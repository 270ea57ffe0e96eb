/** The ring of packets that arrive while the client waits for an answer. */
module PduQueue {
  import opened Fnv
  import opened Wrappers

  const CAPACITY: nat := 32

  datatype Frame = Frame(source: seq<Byte>, data: seq<Byte>)

  const NO_FRAME := Frame([], [])

  class PduQueue {
    const pending: array<Frame>
    /** The longest packet a slot can hold. */
    const maxLength: nat
    var head: nat
    var count: nat

    ghost predicate Valid()
      reads this
    {
      pending.Length == CAPACITY && head < CAPACITY && count <= CAPACITY
    }

    /** The packets waiting, oldest first. */
    ghost function Contents(): (s: seq<Frame>)
      requires Valid()
      reads this, pending
      ensures |s| == count
    {
      Window(pending[..], head, count)
    }

    constructor (maxLength: nat)
      ensures Valid() && Contents() == [] && this.maxLength == maxLength && fresh(pending)
    {
      pending := new Frame[CAPACITY](_ => NO_FRAME);
      this.maxLength := maxLength;
      head, count := 0, 0;
    }

    /** Takes a packet in, unless it is empty, too long, or the ring is full. */
    method Queue(f: Frame) returns (ok: bool)
      requires Valid()
      modifies this`count, pending
      ensures Valid()
      ensures ok <==> 0 < |f.data| <= maxLength && |old(Contents())| < CAPACITY
      ensures Contents() == if ok then old(Contents()) + [f] else old(Contents())
    {
      if |f.data| == 0 || |f.data| > maxLength || count >= CAPACITY {
        return false;
      }
      var index := (head + count) % CAPACITY;
      WindowGrows(pending[..], head, count, f);
      pending[index] := f;
      count := count + 1;
      assert pending[..] == old(pending[..])[index := f];
      return true;
    }

    /** Hands out the packet waiting longest. */
    method Pop() returns (f: Option<Frame>)
      requires Valid()
      modifies this`head, this`count
      ensures Valid()
      ensures if old(Contents()) == [] then f == None && Contents() == []
              else f == Some(old(Contents())[0]) && Contents() == old(Contents())[1..]
    {
      if count == 0 {
        return None;
      }
      WindowShrinks(pending[..], head, count);
      f := Some(pending[head]);
      head := (head + 1) % CAPACITY;
      count := count - 1;
    }
  }

  /** The `count` slots from `head` on, wrapping around. */
  function Window(t: seq<Frame>, head: nat, count: nat): (s: seq<Frame>)
    requires |t| == CAPACITY
    ensures |s| == count
  {
    seq(count, i requires 0 <= i < count => At(t, head, i))
  }

  function At(t: seq<Frame>, head: nat, i: nat): Frame
    requires |t| == CAPACITY
  {
    t[(head + i) % CAPACITY]
  }

  lemma WindowGrows(t: seq<Frame>, head: nat, count: nat, f: Frame)
    requires |t| == CAPACITY && head < CAPACITY && count < CAPACITY
    ensures Window(t[(head + count) % CAPACITY := f], head, count + 1) == Window(t, head, count) + [f]
  {
    var u := t[(head + count) % CAPACITY := f];
    forall i | 0 <= i < count ensures At(u, head, i) == At(t, head, i) {
      SlotsDiffer(head, i, count);
    }
  }

  lemma WindowShrinks(t: seq<Frame>, head: nat, count: nat)
    requires |t| == CAPACITY && head < CAPACITY && 0 < count
    ensures Window(t, head, count)[0] == t[head]
    ensures Window(t, (head + 1) % CAPACITY, count - 1) == Window(t, head, count)[1..]
  {
    var next := (head + 1) % CAPACITY;
    forall i | 0 <= i < count - 1 ensures At(t, next, i) == At(t, head, i + 1)
    {
      NextSlot(head, i);
    }
  }

  lemma SlotsDiffer(head: nat, i: nat, k: nat)
    requires head < CAPACITY && i < k < CAPACITY
    ensures (head + i) % CAPACITY != (head + k) % CAPACITY
  {
  }

  lemma NextSlot(head: nat, i: nat)
    ensures ((head + 1) % CAPACITY + i) % CAPACITY == (head + (i + 1)) % CAPACITY
  {
  }
}

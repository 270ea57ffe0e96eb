/** IPv4 networks in CIDR notation (section 3.1 of RFC 4632) and the allow and deny lists built from them.
    Addresses and masks are 32-bit words. */
module Cidr {
  import opened Bits
  import opened Wrappers

  const WORD: nat := 0x1_0000_0000

  type Ip = x: nat | x < WORD

  const MAX_NETWORKS: nat := 128

  datatype Network = Network(address: Ip, mask: Ip)

  /** Left shift of a 32-bit word, high bits lost. */
  function ShiftLeft(x: Ip, n: nat): Ip {
    if n == 0 then x else (2 * ShiftLeft(x, n - 1)) % WORD
  }

  function Mask(prefix: nat): Ip
    requires prefix <= 32
  {
    if prefix == 0 then 0 else ShiftLeft(WORD - 1, 32 - prefix)
  }

  /** One item of a network list after the text has been split: the address if the system's address parser took
      it, and the decimal prefix (32 when none was written). */
  datatype Item = Item(address: Option<Ip>, prefix: int)

  predicate WellFormed(item: Item) {
    item.address.Some? && 0 <= item.prefix <= 32
  }

  /** The network of a well-formed item; host bits are dropped. */
  function Parse(item: Item): Network
    requires WellFormed(item)
  {
    Network(And(item.address.value, Mask(item.prefix)), Mask(item.prefix))
  }

  /** A list is taken whole or refused whole: one malformed item or one item too many refuses it. */
  method ParseList(items: seq<Item>) returns (r: Option<seq<Network>>)
    ensures r.Some? <==> |items| <= 128 &&
                         forall i :: 0 <= i < |items| ==> items[i].address.Some? && 0 <= items[i].prefix <= 32
    ensures r.Some? ==> |r.value| == |items| && forall i :: 0 <= i < |items| ==> r.value[i] == Parse(items[i])
  {
    var networks: seq<Network> := [];
    for i := 0 to |items|
      invariant |networks| == i <= MAX_NETWORKS
      invariant forall k :: 0 <= k < i ==> WellFormed(items[k]) && networks[k] == Parse(items[k])
    {
      if |networks| >= MAX_NETWORKS || !WellFormed(items[i]) {
        return None;
      }
      networks := networks + [Parse(items[i])];
    }
    return Some(networks);
  }

  predicate Contains(n: Network, ip: Ip) {
    And(ip, n.mask) == n.address
  }

  /** The list scan: does any network of the list contain the address? */
  method Match(ip: Ip, list: seq<Network>) returns (found: bool)
    ensures found <==> InAny(list, ip)
  {
    for i := 0 to |list|
      invariant forall k :: 0 <= k < i ==> !Contains(list[k], ip)
    {
      if Contains(list[i], ip) {
        return true;
      }
    }
    return false;
  }

  predicate InAny(list: seq<Network>, ip: Ip) {
    exists i :: 0 <= i < |list| && Contains(list[i], ip)
  }

  /** Deny wins; an empty allow list allows everything. */
  predicate Passes(allowed: seq<Network>, denied: seq<Network>, ip: Ip) {
    !InAny(denied, ip) && (allowed == [] || InAny(allowed, ip))
  }

  /** A mask is the word range minus its host part. */
  lemma {:induction false} ShiftedOnes(n: nat)
    requires n <= 32
    ensures Pow2(n) <= WORD && ShiftLeft(WORD - 1, n) == WORD - Pow2(n)
  {
    WordSizes();
    Pow2Increases(n, 32);
    if n > 0 {
      ShiftedOnes(n - 1);
    }
  }

  lemma MaskedRemainder(ip: Ip, prefix: nat)
    requires prefix <= 32
    ensures And(ip, Mask(prefix)) == ip - ip % Pow2(32 - prefix)
  {
    WordSizes();
    ShiftedOnes(32 - prefix);
    AndTopOnes(ip, 32, 32 - prefix);
  }

  lemma SameBlock(a: nat, x: nat, size: nat)
    requires 0 < size
    ensures a - a % size <= a < a - a % size + size
    ensures x - x % size == a - a % size <==> a - a % size <= x < a - a % size + size
  {
    var base := a - a % size;
    assert a == size * (a / size) + a % size;
    if base <= x < base + size {
      DivModUnique(x, size, a / size, x - base);
    }
  }

  /** The addresses an item stands for: a block of 2^(32 - prefix) of them around the written one. */
  predicate Covers(item: Item, ip: Ip)
    requires WellFormed(item)
  {
    var size := Pow2(32 - item.prefix);
    var first := item.address.value - item.address.value % size;
    first <= ip < first + size
  }

  /** Mask matching is membership in the address range of the network. */
  lemma NetworkIsRange(item: Item, ip: Ip)
    requires WellFormed(item)
    ensures Contains(Parse(item), ip) <==> Covers(item, ip)
    ensures Covers(item, item.address.value)
  {
    MaskedRemainder(item.address.value, item.prefix);
    MaskedRemainder(ip, item.prefix);
    SameBlock(item.address.value, ip, Pow2(32 - item.prefix));
  }

  ghost predicate ParsedFrom(list: seq<Network>, items: seq<Item>) {
    |list| == |items| && forall i :: 0 <= i < |items| ==> WellFormed(items[i]) && list[i] == Parse(items[i])
  }

  /** A source passes the lists exactly when no denied range covers it and, if there are allowed ranges at all,
      one of them does. */
  lemma PassesIffRangesAllow(allow: seq<Item>, deny: seq<Item>, allowed: seq<Network>, denied: seq<Network>, ip: Ip)
    requires ParsedFrom(allowed, allow) && ParsedFrom(denied, deny)
    ensures Passes(allowed, denied, ip) <==>
            (forall i :: 0 <= i < |deny| ==> !Covers(deny[i], ip)) &&
            (allow == [] || exists i :: 0 <= i < |allow| && Covers(allow[i], ip))
  {
    forall i | 0 <= i < |deny| ensures Contains(denied[i], ip) <==> Covers(deny[i], ip) {
      NetworkIsRange(deny[i], ip);
    }
    forall i | 0 <= i < |allow| ensures Contains(allowed[i], ip) <==> Covers(allow[i], ip) {
      NetworkIsRange(allow[i], ip);
    }
  }
}

/** The server's answer to ReadPropertyMultiple (clause 15.7 of ASHRAE 135). The code decodes, evaluates and encodes
    in a single pass into a buffer of fixed size; here that pass is compared with first parsing the whole request
    and then answering it. */
module ReadPropertyMultiple {
  import opened Fnv
  import opened Wrappers
  import opened ObjectList

  const ALL: nat := 8

  /** The properties of the device that a request for all of them names, in order. */
  const DEVICE_PROPERTIES: seq<nat> :=
    [75, 77, 79, 28, 112, 121, 120, 70, 44, 12, 98, 139, 107, 97, 96, 76, 11, 73, 62, 10, 167]

  /** The same for any other object. */
  const OBJECT_PROPERTIES: seq<nat> := [75, 77, 79, 28, 85]

  datatype Reference = Reference(property: nat, index: Option<nat>)

  /** One property to be read. */
  datatype Query = Query(target: ObjectId, property: nat, index: Option<nat>)

  datatype Answer = Value(bytes: seq<Byte>) | Error(class_: nat, code: nat)

  datatype Decoded<T> = Decoded(value: T, length: nat)

  /** The protocol stack and the application: decoders for the start of a byte string, encoders, and the answers. An
      answer may depend on everything asked before it, as read callbacks may keep state. */
  datatype Service = Service(
    objectId: seq<Byte> -> Option<Decoded<ObjectId>>,
    objectEnd: seq<Byte> -> Option<nat>,
    reference: seq<Byte> -> Option<Decoded<Reference>>,
    begin: ObjectId -> seq<Byte>,
    end: seq<Byte>,
    property: (nat, Option<nat>) -> seq<Byte>,
    result: Answer -> seq<Byte>,
    answer: (seq<Query>, Query) -> Answer,
    device: ObjectId,
    header: seq<Byte>,
    maxApdu: nat,
    slack: nat)

  /** Decoders consume something and no more than there is; every mark fits the slack of the buffer. */
  ghost predicate ValidService(v: Service) {
    && (forall s :: v.objectId(s).Some? ==> 0 < v.objectId(s).value.length <= |s|)
    && (forall s :: v.objectEnd(s).Some? ==> 0 < v.objectEnd(s).value <= |s|)
    && (forall s :: v.reference(s).Some? ==> 0 < v.reference(s).value.length <= |s|)
    && (forall o :: 0 < |v.begin(o)| <= v.slack)
    && |v.end| <= v.slack && |v.header| == 3 <= v.maxApdu
  }

  /** One piece of the response. */
  datatype Item = Begin(target: ObjectId) | Ask(query: Query) | End

  /** The properties a reference stands for. */
  function Expand(v: Service, target: ObjectId, property: nat): seq<nat> {
    if property != ALL then [property]
    else if target == v.device then DEVICE_PROPERTIES
    else OBJECT_PROPERTIES
  }

  function Asks(target: ObjectId, properties: seq<nat>, index: Option<nat>): (items: seq<Item>)
    ensures |items| == |properties|
  {
    seq(|properties|, i requires 0 <= i < |properties| => Ask(Query(target, properties[i], index)))
  }

  datatype Scanned = Scanned(items: seq<Item>, complete: bool)

  function Before(items: seq<Item>, s: Scanned): Scanned {
    Scanned(items + s.items, s.complete)
  }

  /** What the request asks for, piece by piece, up to its end or to the first part that cannot be decoded. `inside`
      is the object whose list of properties is open. */
  function Scan(v: Service, s: seq<Byte>, inside: Option<ObjectId>): Scanned
    requires ValidService(v)
    decreases |s|
  {
    match inside
    case None =>
      if s == [] then Scanned([], true)
      else
        var o := v.objectId(s);
        if o.None? then Scanned([], false)
        else Before([Begin(o.value.value)], Scan(v, s[o.value.length..], Some(o.value.value)))
    case Some(target) =>
      if s == [] then Scanned([], false)
      else
        var e := v.objectEnd(s);
        if e.Some? then Before([End], Scan(v, s[e.value..], None))
        else
          var r := v.reference(s);
          if r.None? then Scanned([], false)
          else Before(Asks(target, Expand(v, target, r.value.value.property), r.value.value.index),
                      Scan(v, s[r.value.length..], inside))
  }

  /** The queries among some items. */
  function Queries(items: seq<Item>): seq<Query> {
    if items == [] then []
    else
      var last := items[|items| - 1];
      Queries(items[..|items| - 1]) + if last.Ask? then [last.query] else []
  }

  /** The encoding of one item after the queries in `asked`. */
  function Piece(v: Service, asked: seq<Query>, item: Item): seq<Byte> {
    match item
    case Begin(target) => v.begin(target)
    case Ask(q) => v.property(q.property, q.index) + v.result(v.answer(asked, q))
    case End => v.end
  }

  function Encode(v: Service, items: seq<Item>): seq<Byte> {
    if items == [] then []
    else
      var front := items[..|items| - 1];
      Encode(v, front) + Piece(v, Queries(front), items[|items| - 1])
  }

  datatype Outcome = Ack(bytes: seq<Byte>) | Abort | Malformed | Silence

  /** Parse first, then answer: the whole response if it fits, an abort if it does not. */
  function Respond(v: Service, request: seq<Byte>): Outcome
    requires ValidService(v)
  {
    var scanned := Scan(v, request, None);
    var response := v.header + Encode(v, scanned.items);
    if |response| > v.maxApdu then Abort
    else if !scanned.complete then Malformed
    else if |response| > 3 then Ack(response)
    else Silence
  }

  lemma {:induction false} EncodeGrows(v: Service, a: seq<Item>, b: seq<Item>)
    ensures Encode(v, a) <= Encode(v, a + b)
  {
    if b == [] {
      assert a + b == a;
    } else {
      assert (a + b)[..|a + b| - 1] == a + b[..|b| - 1];
      EncodeGrows(v, a, b[..|b| - 1]);
    }
  }

  lemma EncodeAppend(v: Service, items: seq<Item>, item: Item)
    ensures Encode(v, items + [item]) == Encode(v, items) + Piece(v, Queries(items), item)
    ensures Queries(items + [item]) == Queries(items) + if item.Ask? then [item.query] else []
  {
    assert (items + [item])[..|items|] == items;
  }

  /** A response that no longer fits after some items never fits again. */
  lemma OverflowIsFinal(v: Service, request: seq<Byte>, done: seq<Item>, rest: Scanned)
    requires ValidService(v) && Scan(v, request, None) == Before(done, rest)
    requires |v.header + Encode(v, done)| > v.maxApdu
    ensures Respond(v, request) == Abort
  {
    EncodeGrows(v, done, rest.items);
  }

  lemma ScanBegin(v: Service, s: seq<Byte>)
    requires ValidService(v) && s != [] && v.objectId(s).Some?
    ensures var o := v.objectId(s).value;
            Scan(v, s, None) == Before([Begin(o.value)], Scan(v, s[o.length..], Some(o.value)))
  {
  }

  lemma ScanEnd(v: Service, s: seq<Byte>, target: ObjectId)
    requires ValidService(v) && s != [] && v.objectEnd(s).Some?
    ensures Scan(v, s, Some(target)) == Before([End], Scan(v, s[v.objectEnd(s).value..], None))
  {
  }

  lemma ScanReference(v: Service, s: seq<Byte>, target: ObjectId)
    requires ValidService(v) && s != [] && v.objectEnd(s).None? && v.reference(s).Some?
    ensures var r := v.reference(s).value;
            Scan(v, s, Some(target)) ==
            Before(Asks(target, Expand(v, target, r.value.property), r.value.index), Scan(v, s[r.length..], Some(target)))
  {
  }

  lemma BeforeBefore(a: seq<Item>, b: seq<Item>, rest: Scanned)
    ensures Before(a, Before(b, rest)) == Before(a + b, rest)
  {
  }

  /** The buffer holds the response up to `length` for the items `done`. */
  ghost predicate Holds(v: Service, buffer: array<Byte>, length: nat, asked: seq<Query>, done: seq<Item>)
    reads buffer
  {
    && length <= v.maxApdu && v.maxApdu + v.slack <= buffer.Length
    && buffer[..length] == v.header + Encode(v, done) && asked == Queries(done)
  }

  lemma MarkFits(v: Service, asked: seq<Query>, item: Item)
    requires ValidService(v) && !item.Ask?
    ensures |Piece(v, asked, item)| <= v.slack && (item.Begin? ==> Piece(v, asked, item) != [])
  {
  }

  lemma DecodersAdvance(v: Service, s: seq<Byte>)
    requires ValidService(v)
    ensures v.objectId(s).Some? ==> 0 < v.objectId(s).value.length <= |s|
    ensures v.objectEnd(s).Some? ==> 0 < v.objectEnd(s).value <= |s|
    ensures v.reference(s).Some? ==> 0 < v.reference(s).value.length <= |s|
  {
  }

  lemma PieceOfAsk(v: Service, asked: seq<Query>, q: Query)
    ensures Piece(v, asked, Ask(q)) == v.property(q.property, q.index) + v.result(v.answer(asked, q))
  {
  }

  /** Writes one mark; whether it fits is only checked afterwards. */
  method Mark(v: Service, item: Item, buffer: array<Byte>, length: nat, asked: seq<Query>, ghost done: seq<Item>)
    returns (fits: bool, newLength: nat)
    requires ValidService(v) && !item.Ask? && Holds(v, buffer, length, asked, done)
    modifies buffer
    ensures fits ==> Holds(v, buffer, newLength, asked, done + [item])
    ensures !fits ==> |v.header + Encode(v, done + [item])| > v.maxApdu
  {
    hide Encode, Queries, ValidService, Piece;
    EncodeAppend(v, done, item);
    MarkFits(v, asked, item);
    var piece := Piece(v, asked, item);
    WriteAt(buffer, length, piece);
    newLength := length + |piece|;
    fits := newLength <= v.maxApdu;
    assert v.header + Encode(v, done + [item]) == (v.header + Encode(v, done)) + piece;
  }

  /** Answers every property a reference stands for; each answer is only written if it fits. */
  method AnswerReference(v: Service, target: ObjectId, reference: Reference, buffer: array<Byte>, length: nat,
                         asked: seq<Query>, ghost done: seq<Item>)
    returns (fits: bool, newLength: nat, newAsked: seq<Query>)
    requires ValidService(v) && Holds(v, buffer, length, asked, done)
    modifies buffer
    ensures var items := Asks(target, Expand(v, target, reference.property), reference.index);
            && (fits ==> Holds(v, buffer, newLength, newAsked, done + items))
            && (!fits ==> |v.header + Encode(v, done + items)| > v.maxApdu)
  {
    hide Encode, Queries, ValidService, Expand, Piece;
    var properties := Expand(v, target, reference.property);
    ghost var items := Asks(target, properties, reference.index);
    newLength, newAsked := length, asked;
    assert done + items[..0] == done;
    for i := 0 to |properties|
      invariant Holds(v, buffer, newLength, newAsked, done + items[..i])
    {
      var q := Query(target, properties[i], reference.index);
      var piece := v.property(q.property, q.index) + v.result(v.answer(newAsked, q));
      assert items[..i + 1] == items[..i] + [Ask(q)];
      assert done + items[..i + 1] == (done + items[..i]) + [Ask(q)];
      EncodeAppend(v, done + items[..i], Ask(q));
      PieceOfAsk(v, newAsked, q);
      assert v.header + Encode(v, done + items[..i + 1]) == (v.header + Encode(v, done + items[..i])) + piece;
      if newLength + |piece| > v.maxApdu {
        EncodeGrows(v, done + items[..i + 1], items[i + 1..]);
        assert done + items[..i + 1] + items[i + 1..] == done + items;
        return false, newLength, newAsked;
      }
      WriteAt(buffer, newLength, piece);
      newLength := newLength + |piece|;
      newAsked := newAsked + [q];
    }
    assert items[..|properties|] == items;
    fits := true;
  }

  datatype Progress = Closed | Overflow | Undecodable

  /** Answers the open list of properties of one object, up to the end of the list. */
  method AnswerObject(v: Service, request: seq<Byte>, target: ObjectId, from: nat, buffer: array<Byte>, length: nat,
                      asked: seq<Query>, ghost done: seq<Item>)
    returns (progress: Progress, offset: nat, newLength: nat, newAsked: seq<Query>, ghost all: seq<Item>)
    requires ValidService(v) && from <= |request| && Holds(v, buffer, length, asked, done)
    requires Scan(v, request, None) == Before(done, Scan(v, request[from..], Some(target)))
    modifies buffer
    ensures match progress
            case Closed =>
              from < offset <= |request| && Holds(v, buffer, newLength, newAsked, all)
              && Scan(v, request, None) == Before(all, Scan(v, request[offset..], None))
            case Overflow => Respond(v, request) == Abort
            case Undecodable => Respond(v, request) == Malformed
  {
    hide Encode, Queries, Scan, Expand, Respond, ValidService, Piece, Asks;
    offset, newLength, newAsked, all := from, length, asked, done;
    var fits;
    while offset < |request|
      invariant from <= offset <= |request| && Holds(v, buffer, newLength, newAsked, all)
      invariant Scan(v, request, None) == Before(all, Scan(v, request[offset..], Some(target)))
      decreases |request| - offset
    {
      var rest := request[offset..];
      DecodersAdvance(v, rest);
      var e := v.objectEnd(rest);
      if e.Some? {
        ScanEnd(v, rest, target);
        assert rest[e.value..] == request[offset + e.value..];
        offset := offset + e.value;
        fits, newLength := Mark(v, End, buffer, newLength, newAsked, all);
        all := all + [End];
        Rescan(v, request, all, Scan(v, request[offset..], None));
        progress := if fits then Closed else Overflow;
        return;
      }
      var r := v.reference(rest);
      if r.None? {
        ScanStops(v, rest, target);
        StopsMalformed(v, request, all);
        return Undecodable, offset, newLength, newAsked, all;
      }
      ScanReference(v, rest, target);
      assert rest[r.value.length..] == request[offset + r.value.length..];
      offset := offset + r.value.length;
      fits, newLength, newAsked := AnswerReference(v, target, r.value.value, buffer, newLength, newAsked, all);
      all := all + Asks(target, Expand(v, target, r.value.value.property), r.value.value.index);
      Rescan(v, request, all, Scan(v, request[offset..], Some(target)));
      if !fits {
        return Overflow, offset, newLength, newAsked, all;
      }
    }
    ScanStops(v, request[offset..], target);
    StopsMalformed(v, request, all);
    progress := Undecodable;
  }

  /** Where the scan stands after more items, and what it means if they do not fit. */
  lemma Rescan(v: Service, request: seq<Byte>, all: seq<Item>, rest: Scanned)
    requires ValidService(v)
    ensures Scan(v, request, None) == Before(all, rest) && |v.header + Encode(v, all)| > v.maxApdu ==>
              Respond(v, request) == Abort
  {
    if Scan(v, request, None) == Before(all, rest) && |v.header + Encode(v, all)| > v.maxApdu {
      OverflowIsFinal(v, request, all, rest);
    }
  }

  lemma ScanStops(v: Service, s: seq<Byte>, target: ObjectId)
    requires ValidService(v) && (s == [] || (v.objectEnd(s).None? && v.reference(s).None?))
    ensures Scan(v, s, Some(target)) == Scanned([], false)
  {
  }

  lemma StopsMalformed(v: Service, request: seq<Byte>, all: seq<Item>)
    requires ValidService(v) && Scan(v, request, None) == Before(all, Scanned([], false))
    requires |v.header + Encode(v, all)| <= v.maxApdu
    ensures Respond(v, request) == Malformed
  {
    assert all + [] == all;
  }

  /** The single pass over a request. The buffer has `slack` bytes beyond the limit. */
  method AnswerRequest(v: Service, request: seq<Byte>, buffer: array<Byte>) returns (outcome: Outcome)
    requires ValidService(v) && v.maxApdu + v.slack <= buffer.Length
    modifies buffer
    ensures outcome == Respond(v, request)
  {
    hide Encode, Queries, Scan, Respond, ValidService, Piece;
    HeaderFits(v);
    WriteAt(buffer, 0, v.header);
    var offset: nat, length: nat, asked: seq<Query> := 0, |v.header|, [];
    ghost var done: seq<Item> := [];
    NothingEncoded(v);
    assert request[0..] == request;
    assert [] + Scan(v, request, None).items == Scan(v, request, None).items;
    while offset < |request|
      invariant offset <= |request| && Holds(v, buffer, length, asked, done)
      invariant Scan(v, request, None) == Before(done, Scan(v, request[offset..], None))
      decreases |request| - offset
    {
      var rest := request[offset..];
      DecodersAdvance(v, rest);
      var o := v.objectId(rest);
      if o.None? {
        ScanFails(v, rest);
        StopsMalformed(v, request, done);
        return Malformed;
      }
      ScanBegin(v, rest);
      assert rest[o.value.length..] == request[offset + o.value.length..];
      offset := offset + o.value.length;
      var fits;
      fits, length := Mark(v, Begin(o.value.value), buffer, length, asked, done);
      done := done + [Begin(o.value.value)];
      Rescan(v, request, done, Scan(v, request[offset..], Some(o.value.value)));
      if !fits {
        return Abort;
      }
      var progress;
      progress, offset, length, asked, done := AnswerObject(v, request, o.value.value, offset, buffer, length, asked, done);
      if progress == Overflow {
        return Abort;
      }
      if progress == Undecodable {
        return Malformed;
      }
    }
    assert request[offset..] == [];
    Finished(v, request, done);
    outcome := if length > 3 then Ack(buffer[..length]) else Silence;
  }

  lemma HeaderFits(v: Service)
    requires ValidService(v)
    ensures |v.header| == 3 <= v.maxApdu
  {
  }

  lemma NothingEncoded(v: Service)
    ensures Encode(v, []) == [] && Queries([]) == []
  {
  }

  lemma ScanFails(v: Service, s: seq<Byte>)
    requires ValidService(v) && s != [] && v.objectId(s).None?
    ensures Scan(v, s, None) == Scanned([], false)
  {
  }

  lemma Finished(v: Service, request: seq<Byte>, done: seq<Item>)
    requires ValidService(v) && Scan(v, request, None) == Before(done, Scan(v, [], None))
    ensures var response := v.header + Encode(v, done);
            |response| <= v.maxApdu ==> Respond(v, request) == if |response| > 3 then Ack(response) else Silence
  {
    assert done + [] == done;
  }

  /** The request as a tree: objects, each with the properties asked of it. */
  datatype Access = Access(target: ObjectId, references: seq<Reference>)

  datatype Listed = Listed(references: seq<Reference>, rest: seq<Byte>)

  /** Parsing the property list of one object, up to its end mark. */
  function ParseList(v: Service, s: seq<Byte>): (r: Option<Listed>)
    requires ValidService(v)
    ensures r.Some? ==> |r.value.rest| < |s|
    decreases |s|
  {
    if s == [] then None
    else if v.objectEnd(s).Some? then Some(Listed([], s[v.objectEnd(s).value..]))
    else if v.reference(s).None? then None
    else
      var r := v.reference(s).value;
      var tail := ParseList(v, s[r.length..]);
      if tail.None? then None else Some(Listed([r.value] + tail.value.references, tail.value.rest))
  }

  function Parse(v: Service, s: seq<Byte>): Option<seq<Access>>
    requires ValidService(v)
    decreases |s|
  {
    if s == [] then Some([])
    else if v.objectId(s).None? then None
    else
      var o := v.objectId(s).value;
      var list := ParseList(v, s[o.length..]);
      if list.None? then None
      else
        var tail := Parse(v, list.value.rest);
        if tail.None? then None else Some([Access(o.value, list.value.references)] + tail.value)
  }

  /** The response tree of one object's list, and of the whole request, as a sequence of items. */
  function FlatList(v: Service, target: ObjectId, references: seq<Reference>): seq<Item> {
    if references == [] then []
    else Asks(target, Expand(v, target, references[0].property), references[0].index) + FlatList(v, target, references[1..])
  }

  function Flat(v: Service, tree: seq<Access>): seq<Item> {
    if tree == [] then []
    else [Begin(tree[0].target)] + FlatList(v, tree[0].target, tree[0].references) + [End] + Flat(v, tree[1..])
  }

  lemma {:induction false} ListIsScanned(v: Service, s: seq<Byte>, target: ObjectId)
    requires ValidService(v)
    ensures var list, scanned := ParseList(v, s), Scan(v, s, Some(target));
            && (list.None? ==> !scanned.complete)
            && (list.Some? ==> scanned == Before(FlatList(v, target, list.value.references) + [End], Scan(v, list.value.rest, None)))
    decreases |s|
  {
    hide ValidService, Expand, Asks;
    DecodersAdvance(v, s);
    if s == [] || (v.objectEnd(s).None? && v.reference(s).None?) {
      ScanStops(v, s, target);
    } else if v.objectEnd(s).Some? {
      ScanEnd(v, s, target);
      assert [] + [End] == [End];
    } else {
      var r := v.reference(s).value;
      ScanReference(v, s, target);
      ListIsScanned(v, s[r.length..], target);
      var tail := ParseList(v, s[r.length..]);
      if tail.Some? {
        var all := [r.value] + tail.value.references;
        assert all[1..] == tail.value.references;
        var asks, flat := Asks(target, Expand(v, target, r.value.property), r.value.index),
                          FlatList(v, target, tail.value.references);
        assert asks + (flat + [End]) == (asks + flat) + [End];
        BeforeBefore(asks, flat + [End], Scan(v, tail.value.rest, None));
      }
    }
  }

  /** Scanning a request piece by piece finds exactly what parsing it into a tree finds. */
  lemma {:induction false} TreeIsScanned(v: Service, s: seq<Byte>)
    requires ValidService(v)
    ensures var tree, scanned := Parse(v, s), Scan(v, s, None);
            && (scanned.complete <==> tree.Some?)
            && (tree.Some? ==> scanned.items == Flat(v, tree.value))
    decreases |s|
  {
    hide ValidService, ParseList, FlatList;
    DecodersAdvance(v, s);
    if s != [] && v.objectId(s).Some? {
      var o := v.objectId(s).value;
      ScanBegin(v, s);
      ListIsScanned(v, s[o.length..], o.value);
      var list := ParseList(v, s[o.length..]);
      if list.Some? {
        TreeIsScanned(v, list.value.rest);
        var tail := Parse(v, list.value.rest);
        if tail.Some? {
          var all := [Access(o.value, list.value.references)] + tail.value;
          assert all[1..] == tail.value;
          var flat := FlatList(v, o.value, list.value.references);
          assert [Begin(o.value)] + ((flat + [End]) + Flat(v, tail.value)) == [Begin(o.value)] + flat + [End] + Flat(v, tail.value);
        }
      }
    } else if s != [] {
      ScanFails(v, s);
    }
  }

  /** The queries the tree asks for: every reference under its own object, in order. */
  function ListQueries(v: Service, target: ObjectId, references: seq<Reference>): seq<Query> {
    if references == [] then []
    else QueriesOf(Asks(target, Expand(v, target, references[0].property), references[0].index))
         + ListQueries(v, target, references[1..])
  }

  function QueriesOf(asks: seq<Item>): (qs: seq<Query>)
    requires forall a :: a in asks ==> a.Ask?
    ensures |qs| == |asks|
  {
    seq(|asks|, i requires 0 <= i < |asks| => asks[i].query)
  }

  function Requested(v: Service, tree: seq<Access>): seq<Query> {
    if tree == [] then [] else ListQueries(v, tree[0].target, tree[0].references) + Requested(v, tree[1..])
  }

  lemma {:induction false} QueriesSplit(a: seq<Item>, b: seq<Item>)
    ensures Queries(a + b) == Queries(a) + Queries(b)
  {
    if b == [] {
      assert a + b == a;
    } else {
      assert (a + b)[..|a + b| - 1] == a + b[..|b| - 1];
      QueriesSplit(a, b[..|b| - 1]);
    }
  }

  lemma {:induction false} QueriesOfAsks(asks: seq<Item>)
    requires forall a :: a in asks ==> a.Ask?
    ensures Queries(asks) == QueriesOf(asks)
  {
    if asks != [] {
      var front := asks[..|asks| - 1];
      assert forall a :: a in front ==> a in asks;
      QueriesOfAsks(front);
      assert QueriesOf(asks) == QueriesOf(front) + [asks[|asks| - 1].query];
    }
  }

  lemma {:induction false} ListQueriesAsked(v: Service, target: ObjectId, references: seq<Reference>)
    ensures Queries(FlatList(v, target, references)) == ListQueries(v, target, references)
  {
    if references != [] {
      var asks := Asks(target, Expand(v, target, references[0].property), references[0].index);
      ListQueriesAsked(v, target, references[1..]);
      QueriesSplit(asks, FlatList(v, target, references[1..]));
      QueriesOfAsks(asks);
    }
  }

  lemma {:induction false} TreeQueriesAsked(v: Service, tree: seq<Access>)
    ensures Queries(Flat(v, tree)) == Requested(v, tree)
  {
    if tree != [] {
      var begin, list, rest := [Begin(tree[0].target)], FlatList(v, tree[0].target, tree[0].references), Flat(v, tree[1..]);
      TreeQueriesAsked(v, tree[1..]);
      ListQueriesAsked(v, tree[0].target, tree[0].references);
      QueriesSplit(begin + list + [End], rest);
      QueriesSplit(begin + list, [End]);
      QueriesSplit(begin, list);
      assert Queries(begin) == [] && Queries([End]) == [] by {
        EncodeAppend(v, [], Begin(tree[0].target));
        EncodeAppend(v, [], End);
        assert [] + begin == begin && [] + [End] == [End];
      }
    }
  }

  lemma FlatStarts(v: Service, tree: seq<Access>) returns (rest: seq<Item>)
    requires tree != []
    ensures Flat(v, tree) == [Begin(tree[0].target)] + rest
  {
    hide FlatList;
    rest := FlatList(v, tree[0].target, tree[0].references) + [End] + Flat(v, tree[1..]);
  }

  lemma FirstIsEncoded(v: Service, item: Item, rest: seq<Item>)
    ensures Piece(v, [], item) <= Encode(v, [item] + rest)
  {
    hide Piece;
    NothingEncoded(v);
    EncodeAppend(v, [], item);
    assert [] + [item] == [item];
    EncodeGrows(v, [item], rest);
  }

  lemma FlatIsNotEmpty(v: Service, tree: seq<Access>)
    requires ValidService(v)
    ensures tree == [] <==> Encode(v, Flat(v, tree)) == []
  {
    if tree != [] {
      hide ValidService, Encode, Flat, Piece;
      var rest := FlatStarts(v, tree);
      FirstIsEncoded(v, Begin(tree[0].target), rest);
      MarkFits(v, [], Begin(tree[0].target));
    }
  }

  /** Main theorem about the response: a well-formed request is answered with the complete response to its tree if
      that fits and is not empty, every requested property being asked for once, in order, under its own object; it
      is aborted exactly when the complete response does not fit. A malformed request is never acknowledged. */
  lemma ResponseIsComplete(v: Service, request: seq<Byte>)
    requires ValidService(v)
    ensures match Parse(v, request)
            case Some(tree) =>
              var items := Flat(v, tree);
              var response := v.header + Encode(v, items);
              && Queries(items) == Requested(v, tree)
              && (Respond(v, request) == Abort <==> |response| > v.maxApdu)
              && (|response| <= v.maxApdu ==> Respond(v, request) == if tree == [] then Silence else Ack(response))
            case None => Respond(v, request) in {Abort, Malformed}
  {
    hide ValidService, Scan, Parse, Flat, Encode, Queries;
    HeaderFits(v);
    TreeIsScanned(v, request);
    var tree := Parse(v, request);
    if tree.Some? {
      TreeQueriesAsked(v, tree.value);
      FlatIsNotEmpty(v, tree.value);
    }
  }
}

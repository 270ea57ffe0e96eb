/** The acknowledgement of ReadPropertyMultiple read back, and the request written: whoever can decode the pieces gets the
    answers to exactly what was asked. */
module ResponseReader {
  import opened Fnv
  import opened Wrappers
  import opened ObjectList
  import opened ReadPropertyMultiple

  datatype Named = Named(property: nat, index: Option<nat>)

  /** Decoders for the start of a byte string, on the side that receives the response. */
  datatype Reader = Reader(
    begin: seq<Byte> -> Option<Decoded<ObjectId>>,
    end: seq<Byte> -> Option<nat>,
    property: seq<Byte> -> Option<Decoded<Named>>,
    result: seq<Byte> -> Option<Decoded<Answer>>)

  /** The decoders undo the encoders, whatever follows, and can tell a property from the end mark. */
  ghost predicate Reads(rd: Reader, v: Service) {
    && v.end != []
    && (forall o, rest :: rd.begin(v.begin(o) + rest) == Some(Decoded(o, |v.begin(o)|)))
    && (forall rest :: rd.end(v.end + rest) == Some(|v.end|))
    && (forall p, i, rest :: rd.property(v.property(p, i) + rest) == Some(Decoded(Named(p, i), |v.property(p, i)|)))
    && (forall p, i, rest :: rd.end(v.property(p, i) + rest) == None)
    && (forall p, i :: v.property(p, i) != [])
    && (forall a, rest :: rd.result(v.result(a) + rest) == Some(Decoded(a, |v.result(a)|)))
  }

  /** One property with its answer. */
  datatype Reply = Reply(property: nat, index: Option<nat>, answer: Answer)

  /** What the response says about one object. */
  datatype Section = Section(target: ObjectId, replies: seq<Reply>)

  datatype Replies = Replies(replies: seq<Reply>, rest: seq<Byte>)

  /** Reads the properties of one object, up to its end mark. */
  function ReadReplies(rd: Reader, s: seq<Byte>): (r: Option<Replies>)
    ensures r.Some? ==> |r.value.rest| < |s|
    decreases |s|
  {
    match rd.end(s)
    case Some(n) => if 0 < n <= |s| then Some(Replies([], s[n..])) else None
    case None =>
      var p := rd.property(s);
      if p.None? || !(0 < p.value.length <= |s|) then None
      else
        var t := s[p.value.length..];
        var a := rd.result(t);
        if a.None? || a.value.length > |t| then None
        else
          var more := ReadReplies(rd, t[a.value.length..]);
          if more.None? then None
          else Some(Replies([Reply(p.value.value.property, p.value.value.index, a.value.value)] + more.value.replies,
                            more.value.rest))
  }

  /** Reads a response, object by object. */
  function ReadSections(rd: Reader, s: seq<Byte>): Option<seq<Section>>
    decreases |s|
  {
    if s == [] then Some([])
    else
      var o := rd.begin(s);
      if o.None? || !(0 < o.value.length <= |s|) then None
      else
        var list := ReadReplies(rd, s[o.value.length..]);
        if list.None? then None
        else
          var more := ReadSections(rd, list.value.rest);
          if more.None? then None else Some([Section(o.value.value, list.value.replies)] + more.value)
  }

  /** The answers to some queries, asked one after the other. */
  function RepliesTo(v: Service, asked: seq<Query>, qs: seq<Query>): (rs: seq<Reply>)
    ensures |rs| == |qs|
    decreases |qs|
  {
    if qs == [] then []
    else [Reply(qs[0].property, qs[0].index, v.answer(asked, qs[0]))] + RepliesTo(v, asked + [qs[0]], qs[1..])
  }

  /** The tree of answers to the tree of a request: one section for each object, one reply for each property. */
  function AnswerTree(v: Service, tree: seq<Access>, asked: seq<Query>): (ss: seq<Section>)
    ensures |ss| == |tree|
  {
    if tree == [] then []
    else
      var qs := ListQueries(v, tree[0].target, tree[0].references);
      [Section(tree[0].target, RepliesTo(v, asked, qs))] + AnswerTree(v, tree[1..], asked + qs)
  }

  /** Encoding from the front, after the queries in `asked`. */
  function EncodeFrom(v: Service, asked: seq<Query>, items: seq<Item>): seq<Byte>
    decreases |items|
  {
    if items == [] then []
    else Piece(v, asked, items[0]) + EncodeFrom(v, asked + Queries([items[0]]), items[1..])
  }

  lemma {:induction false} FromFront(v: Service, done: seq<Item>, items: seq<Item>)
    ensures Encode(v, done + items) == Encode(v, done) + EncodeFrom(v, Queries(done), items)
    decreases |items|
  {
    hide Piece, Encode, Queries;
    if items == [] {
      assert done + items == done;
    } else {
      EncodeAppend(v, done, items[0]);
      OneQuery(items[0]);
      FromFront(v, done + [items[0]], items[1..]);
      assert done + items == (done + [items[0]]) + items[1..];
    }
  }

  lemma OneQuery(item: Item)
    ensures Queries([item]) == if item.Ask? then [item.query] else []
  {
    assert [item][..0] == [];
  }

  /** The pieces that ask some queries. */
  function AskAll(qs: seq<Query>): (items: seq<Item>)
    ensures |items| == |qs|
  {
    seq(|qs|, i requires 0 <= i < |qs| => Ask(qs[i]))
  }

  lemma {:induction false} ListIsAsked(v: Service, target: ObjectId, references: seq<Reference>)
    ensures FlatList(v, target, references) == AskAll(ListQueries(v, target, references))
  {
    hide Expand;
    if references != [] {
      ListIsAsked(v, target, references[1..]);
    }
  }

  lemma {:induction false} FromFrontSplit(v: Service, asked: seq<Query>, a: seq<Item>, b: seq<Item>)
    ensures EncodeFrom(v, asked, a + b) == EncodeFrom(v, asked, a) + EncodeFrom(v, asked + Queries(a), b)
    decreases |a|
  {
    hide Piece, Queries;
    if a == [] {
      assert a + b == b;
      NothingEncoded(v);
      assert asked + [] == asked;
    } else {
      assert (a + b)[1..] == a[1..] + b;
      FromFrontSplit(v, asked + Queries([a[0]]), a[1..], b);
      QueriesSplit([a[0]], a[1..]);
      assert [a[0]] + a[1..] == a;
      assert asked + Queries([a[0]]) + Queries(a[1..]) == asked + Queries(a);
    }
  }

  lemma ReadsPieces(rd: Reader, v: Service, p: nat, i: Option<nat>, a: Answer, rest: seq<Byte>, tail: seq<Byte>)
    requires Reads(rd, v)
    ensures v.property(p, i) != [] && rd.end(v.property(p, i) + rest) == None
    ensures rd.property(v.property(p, i) + rest) == Some(Decoded(Named(p, i), |v.property(p, i)|))
    ensures rd.result(v.result(a) + tail) == Some(Decoded(a, |v.result(a)|))
    ensures v.end != [] && rd.end(v.end + tail) == Some(|v.end|)
  {
  }

  /** Reading one property with its answer. */
  lemma ReplyReadBack(rd: Reader, name: seq<Byte>, answer: seq<Byte>, p: nat, i: Option<nat>, a: Answer, tail: seq<Byte>)
    requires name != [] && rd.end(name + (answer + tail)) == None
    requires rd.property(name + (answer + tail)) == Some(Decoded(Named(p, i), |name|))
    requires rd.result(answer + tail) == Some(Decoded(a, |answer|))
    ensures var more := ReadReplies(rd, tail);
            ReadReplies(rd, name + (answer + tail)) ==
            if more.None? then None else Some(Replies([Reply(p, i, a)] + more.value.replies, more.value.rest))
  {
    assert (name + (answer + tail))[|name|..] == answer + tail;
    assert (answer + tail)[|answer|..] == tail;
  }

  /** Reading back the answers of one object. */
  lemma {:induction false} RepliesReadBack(rd: Reader, v: Service, asked: seq<Query>, qs: seq<Query>, rest: seq<Byte>)
    requires Reads(rd, v)
    ensures ReadReplies(rd, EncodeFrom(v, asked, AskAll(qs)) + (v.end + rest)) == Some(Replies(RepliesTo(v, asked, qs), rest))
    decreases |qs|
  {
    hide Reads;
    if qs == [] {
      ReadsPieces(rd, v, 0, None, Value([]), [], rest);
      assert [] + (v.end + rest) == v.end + rest;
      assert (v.end + rest)[|v.end|..] == rest;
    } else {
      hide ReadReplies;
      var q := qs[0];
      var name, answer := v.property(q.property, q.index), v.result(v.answer(asked, q));
      var tail := EncodeFrom(v, asked + [q], AskAll(qs[1..])) + (v.end + rest);
      OneQuery(Ask(q));
      assert AskAll(qs)[1..] == AskAll(qs[1..]);
      assert EncodeFrom(v, asked, AskAll(qs)) + (v.end + rest) == name + (answer + tail);
      ReadsPieces(rd, v, q.property, q.index, v.answer(asked, q), answer + tail, tail);
      ReplyReadBack(rd, name, answer, q.property, q.index, v.answer(asked, q), tail);
      RepliesReadBack(rd, v, asked + [q], qs[1..], rest);
    }
  }

  /** Reading back a whole response. */
  lemma {:induction false} SectionsReadBack(rd: Reader, v: Service, tree: seq<Access>, asked: seq<Query>)
    requires ValidService(v) && Reads(rd, v)
    ensures ReadSections(rd, EncodeFrom(v, asked, Flat(v, tree))) == Some(AnswerTree(v, tree, asked))
    decreases |tree|
  {
    hide ReadReplies, FlatList, ListQueries, Queries, RepliesTo;
    if tree != [] {
      var target, references := tree[0].target, tree[0].references;
      var qs := ListQueries(v, target, references);
      var more := EncodeFrom(v, asked + qs, Flat(v, tree[1..]));
      var s := EncodeFrom(v, asked, Flat(v, tree));
      SectionEncodes(v, tree, asked);
      var inner := EncodeFrom(v, asked, AskAll(qs)) + (v.end + more);
      assert s == v.begin(target) + inner && v.begin(target) != [];
      assert s[|v.begin(target)|..] == inner;
      RepliesReadBack(rd, v, asked, qs, more);
      SectionsReadBack(rd, v, tree[1..], asked + qs);
    }
  }

  /** The encoding of the first object and what follows it. */
  lemma SectionEncodes(v: Service, tree: seq<Access>, asked: seq<Query>)
    requires tree != []
    ensures var qs := ListQueries(v, tree[0].target, tree[0].references);
            EncodeFrom(v, asked, Flat(v, tree))
            == v.begin(tree[0].target)
               + (EncodeFrom(v, asked, AskAll(qs)) + (v.end + EncodeFrom(v, asked + qs, Flat(v, tree[1..]))))
  {
    hide FlatList, ListQueries, Queries;
    var target, references := tree[0].target, tree[0].references;
    var qs, rest := ListQueries(v, target, references), Flat(v, tree[1..]);
    ListIsAsked(v, target, references);
    ListQueriesAsked(v, target, references);
    OneQuery(Begin(target));
    OneQuery(End);
    var list := AskAll(qs);
    assert Flat(v, tree) == [Begin(target)] + (list + ([End] + rest));
    assert ([Begin(target)] + (list + ([End] + rest)))[1..] == list + ([End] + rest);
    assert asked + [] == asked && (asked + qs) + [] == asked + qs;
    FromFrontSplit(v, asked, list, [End] + rest);
    assert ([End] + rest)[1..] == rest;
  }

  /** Main theorem: whoever can decode its pieces reads from an acknowledgement the answers to the request: for each object
      asked about, in order, one answer for each property, as the application gave it. */
  lemma AckReadsBack(rd: Reader, v: Service, request: seq<Byte>)
    requires ValidService(v) && Reads(rd, v) && Respond(v, request).Ack?
    ensures var bytes := Respond(v, request).bytes;
            && Parse(v, request).Some? && |bytes| >= 3 && bytes[..3] == v.header
            && ReadSections(rd, bytes[3..]) == Some(AnswerTree(v, Parse(v, request).value, []))
  {
    hide Reads, Parse, Flat, ReadSections, AnswerTree, Encode, EncodeFrom, Respond;
    ResponseIsComplete(v, request);
    var tree := Parse(v, request).value;
    FromFront(v, [], Flat(v, tree));
    NothingEncoded(v);
    assert [] + Flat(v, tree) == Flat(v, tree);
    assert [] + EncodeFrom(v, [], Flat(v, tree)) == EncodeFrom(v, [], Flat(v, tree));
    SectionsReadBack(rd, v, tree, []);
    var bytes := Respond(v, request).bytes;
    HeaderFits(v);
    assert bytes == v.header + Encode(v, Flat(v, tree));
    assert bytes[3..] == Encode(v, Flat(v, tree));
  }

  /** What a reference stands for: the property itself, or, for "all", the required properties of the device, or identifier,
      name, type, description and present value of any other object. */
  lemma AllMeans(v: Service, target: ObjectId, property: nat)
    ensures Expand(v, target, property)
            == if property != 8 then [property]
               else if target == v.device
               then [75, 77, 79, 28, 112, 121, 120, 70, 44, 12, 98, 139, 107, 97, 96, 76, 11, 73, 62, 10, 167]
               else [75, 77, 79, 28, 85]
  {
  }

  /** Encoders for requests. */
  datatype Writer = Writer(target: ObjectId -> seq<Byte>, end: seq<Byte>, reference: Reference -> seq<Byte>)

  /** The decoders of the server undo the encoders, whatever follows, and can tell a reference from the end mark. */
  ghost predicate Understands(v: Service, w: Writer) {
    && (forall o, rest :: v.objectId(w.target(o) + rest) == Some(Decoded(o, |w.target(o)|)))
    && (forall rest :: v.objectEnd(w.end + rest) == Some(|w.end|))
    && (forall r, rest :: v.reference(w.reference(r) + rest) == Some(Decoded(r, |w.reference(r)|)))
    && (forall r, rest :: v.objectEnd(w.reference(r) + rest) == None)
  }

  function WriteList(w: Writer, references: seq<Reference>): seq<Byte> {
    if references == [] then w.end else w.reference(references[0]) + WriteList(w, references[1..])
  }

  function WriteRequest(w: Writer, tree: seq<Access>): seq<Byte> {
    if tree == [] then [] else w.target(tree[0].target) + (WriteList(w, tree[0].references) + WriteRequest(w, tree[1..]))
  }

  lemma {:induction false} ListParsed(v: Service, w: Writer, references: seq<Reference>, rest: seq<Byte>)
    requires ValidService(v) && Understands(v, w)
    ensures ParseList(v, WriteList(w, references) + rest) == Some(Listed(references, rest))
    decreases |references|
  {
    hide Understands;
    if references == [] {
      assert (w.end + rest)[|w.end|..] == rest;
      EndUnderstood(v, w, rest);
    } else {
      var r, tail := references[0], WriteList(w, references[1..]) + rest;
      var s := WriteList(w, references) + rest;
      assert s == w.reference(r) + tail && s[|w.reference(r)|..] == tail;
      ReferenceUnderstood(v, w, r, tail);
      ListParsed(v, w, references[1..], rest);
      assert [r] + references[1..] == references;
    }
  }

  lemma ReferenceUnderstood(v: Service, w: Writer, r: Reference, rest: seq<Byte>)
    requires Understands(v, w)
    ensures v.reference(w.reference(r) + rest) == Some(Decoded(r, |w.reference(r)|))
    ensures v.objectEnd(w.reference(r) + rest) == None
  {
  }

  lemma EndUnderstood(v: Service, w: Writer, rest: seq<Byte>)
    requires Understands(v, w)
    ensures v.objectEnd(w.end + rest) == Some(|w.end|)
  {
  }

  /** The server parses a request that was written for a tree into that tree. */
  lemma {:induction false} RequestIsUnderstood(v: Service, w: Writer, tree: seq<Access>)
    requires ValidService(v) && Understands(v, w)
    ensures Parse(v, WriteRequest(w, tree)) == Some(tree)
    decreases |tree|
  {
    hide ParseList, WriteList;
    if tree != [] {
      var o, rest := tree[0].target, WriteRequest(w, tree[1..]);
      var inner := WriteList(w, tree[0].references) + rest;
      var s := WriteRequest(w, tree);
      assert s == w.target(o) + inner && s[|w.target(o)|..] == inner;
      assert v.objectId(s).Some?;
      ListParsed(v, w, tree[0].references, rest);
      RequestIsUnderstood(v, w, tree[1..]);
      assert [Access(o, tree[0].references)] + tree[1..] == tree;
    }
  }
}

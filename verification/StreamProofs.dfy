/** Framing: parsing inverts the layout of section 3.3 on an input that is all there, and a
    receiver reads any sequence of rendered frames back. */
module StreamProofs {
  import opened Bytes
  import opened Wire
  import opened PairProofs

  // --------------------------------------------------------- stream round trip

  /** A well-formed record as a client lays it out. */
  datatype Content =
    | Begin(role: u16, flags: byte, fill: bytes)
    | Abort
    | Params(params: seq<Pair>)
    | Stdin(stdin: bytes)
    | Data(data: bytes)
    | Values(values: seq<Pair>)
    | Results(results: seq<Pair>)

  datatype RawItem = Item(rid: u16, content: Content, padding: bytes, reserved: byte) {
    /** The type numbers of section 8. */
    function Type(): byte {
      match content
      case Begin(_, _, _) => 1
      case Abort => 2
      case Params(_) => 4
      case Stdin(_) => 5
      case Data(_) => 8
      case Values(_) => 9
      case Results(_) => 10
    }

    function Payload(): bytes {
      match content
      case Begin(role, flags, fill) => Short(role) + [flags] + fill
      case Abort => []
      case Stdin(s) => s
      case Data(s) => s
      case _ => EncodePairs(0x80, Pairs())
    }

    /** The name-value pairs of a PARAMS, GET_VALUES or GET_VALUES_RESULT record. */
    function Pairs(): seq<Pair> {
      match content
      case Params(ps) => ps
      case Values(ps) => ps
      case Results(ps) => ps
      case _ => []
    }

    /** Sections 3.3 and 5.1: a payload of up to 65535 bytes, up to 255 bytes of padding. */
    ghost predicate Sized() {
      |Payload()| < 0x1_0000 && |padding| < 0x100
    }

    ghost predicate WellFormed(t: LenTest) {
      && (rid == 0 <==> content.Values? || content.Results?)
      && (content.Begin? ==> |content.fill| == 5)
      && Encodable(Pairs()) && (t.HighBit? || AllShort(0x80, Pairs()))
    }
  }

  type Item = i: RawItem | i.Sized() witness RawItem.Item(0, Abort, [], 0)

  ghost function Layout(i: Item): bytes {
    [1, i.Type()] + Short(i.rid) + Short(|i.Payload()|) + [|i.padding|, i.reserved] + i.Payload() + i.padding
  }

  /** The record `mnfcgi_parse` should return when the layout starts at `pos`. */
  ghost function Expected(i: Item, pos: nat): Record {
    var q := pos + HEADER_LEN;
    Record(i.rid, |i.Payload()|, |i.padding|, match i.content
      case Begin(role, flags, _) => BeginBody(role, flags)
      case Abort => AbortBody
      case Params(ps) => ParamsBody(ParamsMap(ps))
      case Stdin(s) => StdinBody(q, q + |s|)
      case Data(s) => DataBody(q, q + |s|)
      case Values(ps) => ValuesBody(ValuesMap(ps))
      case Results(ps) => ResultBody(ValuesMap(ps)))
  }

  ghost predicate AllWellFormed(t: LenTest, items: seq<Item>) {
    forall k :: 0 <= k < |items| ==> items[k].WellFormed(t)
  }

  ghost function LayoutAll(items: seq<Item>): bytes
  {
    if items == [] then [] else Layout(items[0]) + LayoutAll(items[1..])
  }

  ghost function ExpectedAll(items: seq<Item>, pos: nat): seq<Record>
  {
    if items == [] then []
    else [Expected(items[0], pos)] + ExpectedAll(items[1..], pos + |Layout(items[0])|)
  }

  lemma HeaderBack(w: bytes, pos: nat, ty: byte, rid: u16, rsz: u16, psz: byte, reserved: byte)
    requires Holds(w, pos, [VERSION, ty] + Short(rid) + Short(rsz) + [psz, reserved])
    ensures At(w, pos) == VERSION && At(w, pos + 1) == ty && RidAt(w, pos) == rid
    ensures RszAt(w, pos) == rsz && At(w, pos + 6) == psz
  {
    var s := [VERSION, ty] + Short(rid) + Short(rsz) + [psz, reserved];
    forall i: nat | i < 8 ensures At(w, pos + i) == s[i] {
      HoldsAt(w, pos, s, i);
    }
    ShortBack(rid);
    ShortBack(rsz);
    assert s[2] == Short(rid)[0] && s[3] == Short(rid)[1] && s[4] == Short(rsz)[0] && s[5] == Short(rsz)[1];
  }

  lemma PayloadBack(t: LenTest, w: bytes, q: nat, item: Item)
    requires item.WellFormed(t) && Holds(w, q, item.Payload())
    requires HEADER_LEN <= q
    ensures PayloadAt(t, w, q, item.Type(), |item.Payload()|)
         == Wire.Payload.Payload(Expected(item, q - HEADER_LEN).body, |item.Payload()|)
  {
    hide Pairs, EncodePairs, ParamsMap, ValuesMap;
    var s := item.Payload();
    match item.content
    case Begin(role, flags, fill) =>
      HoldsAt(w, q, s, 0);
      HoldsAt(w, q, s, 1);
      HoldsAt(w, q, s, 2);
      ShortBack(role);
    case Stdin(_) =>
    case Data(_) =>
    case Abort =>
    case _ => PairsBack(t, 0x80, w, q, item.Pairs());
  }

  lemma LayoutHolds(w: bytes, pos: nat, item: Item)
    requires Holds(w, pos, Layout(item))
    ensures |Layout(item)| == HEADER_LEN + |item.Payload()| + |item.padding|
    ensures At(w, pos) == VERSION
    ensures HeaderAt(w, pos) == Header(item.Type(), item.rid, |item.Payload()|, |item.padding|)
    ensures Holds(w, pos + HEADER_LEN, item.Payload())
  {
    var s, p := item.Payload(), item.padding;
    var head := [VERSION, item.Type()] + Short(item.rid) + Short(|s|) + [|p|, item.reserved];
    HoldsSplit(w, pos, head + s, p);
    HoldsSplit(w, pos, head, s);
    HeaderBack(w, pos, item.Type(), item.rid, |s|, |p|, item.reserved);
  }

  lemma ItemBack(t: LenTest, w: bytes, pos: nat, item: Item)
    requires item.WellFormed(t) && Holds(w, pos, Layout(item))
    ensures ParseOne(t, w, pos) == Good(Expected(item, pos), pos + |Layout(item)|)
  {
    LayoutHolds(w, pos, item);
    PayloadBack(t, w, pos + HEADER_LEN, item);
  }

  lemma ParseAllCons(t: LenTest, w: bytes, pos: nat, rec: Record, next: nat, rest: Drained)
    requires ParseOne(t, w, pos) == Good(rec, next) && ParseAll(t, w, next) == rest
    ensures ParseAll(t, w, pos) == Drained([rec] + rest.records, rest.end)
  {
  }

  lemma FirstItem(t: LenTest, w: bytes, pos: nat, items: seq<Item>)
    requires items != [] && AllWellFormed(t, items) && Holds(w, pos, LayoutAll(items))
    ensures items[0].WellFormed(t) && AllWellFormed(t, items[1..])
    ensures Holds(w, pos, Layout(items[0])) && Holds(w, pos + |Layout(items[0])|, LayoutAll(items[1..]))
    ensures |LayoutAll(items)| == |Layout(items[0])| + |LayoutAll(items[1..])|
  {
    HoldsSplit(w, pos, Layout(items[0]), LayoutAll(items[1..]));
  }

  /** A reader that returns every well-formed record laid out in `w`. */
  ghost predicate Reads(one: nat -> Parsed, t: LenTest, w: bytes) {
    forall item: Item, p: nat :: item.WellFormed(t) && Holds(w, p, Layout(item)) ==>
      one(p) == Good(Expected(item, p), p + |Layout(item)|)
  }

  lemma ParserReads(t: LenTest, w: bytes)
    ensures Reads((p: nat) => ParseOne(t, w, p), t, w)
  {
    forall item: Item, p: nat | item.WellFormed(t) && Holds(w, p, Layout(item))
      ensures ParseOne(t, w, p) == Good(Expected(item, p), p + |Layout(item)|)
    {
      ItemBack(t, w, p, item);
    }
  }

  /** The records of a list, read one by one up to `end`. */
  ghost predicate OneByOne(one: nat -> Parsed, end: nat, pos: nat, items: seq<Item>)
    decreases |items|
  {
    if items == [] then pos == end
    else
      var next := pos + |Layout(items[0])|;
      one(pos) == Good(Expected(items[0], pos), next) && OneByOne(one, end, next, items[1..])
  }

  lemma {:induction false} ReadOneByOne(one: nat -> Parsed, t: LenTest, w: bytes, pos: nat, items: seq<Item>)
    requires AllWellFormed(t, items) && Reads(one, t, w)
    requires pos + |LayoutAll(items)| == |w| && Holds(w, pos, LayoutAll(items))
    ensures OneByOne(one, |w|, pos, items)
    decreases |items|
  {
    hide OneByOne, Reads, Layout, LayoutAll, AllWellFormed, Expected, Holds;
    if items == [] {
      NoneLeft(one, |w|, pos, items);
    } else {
      var next := pos + |Layout(items[0])|;
      FirstItem(t, w, pos, items);
      ReadFirst(one, t, w, pos, items[0]);
      ReadOneByOne(one, t, w, next, items[1..]);
      OneMore(one, |w|, pos, items);
    }
  }

  lemma NoneLeft(one: nat -> Parsed, end: nat, pos: nat, items: seq<Item>)
    requires items == [] && pos + |LayoutAll(items)| == end
    ensures OneByOne(one, end, pos, items)
  {
  }

  lemma OneMore(one: nat -> Parsed, end: nat, pos: nat, items: seq<Item>)
    requires items != [] && one(pos) == Good(Expected(items[0], pos), pos + |Layout(items[0])|)
    requires OneByOne(one, end, pos + |Layout(items[0])|, items[1..])
    ensures OneByOne(one, end, pos, items)
  {
  }

  lemma ReadFirst(one: nat -> Parsed, t: LenTest, w: bytes, pos: nat, item: Item)
    requires Reads(one, t, w) && item.WellFormed(t) && Holds(w, pos, Layout(item))
    ensures one(pos) == Good(Expected(item, pos), pos + |Layout(item)|)
  {
  }

  lemma ParseAtEnd(t: LenTest, w: bytes)
    ensures ParseAll(t, w, |w|) == Drained([], Bad(|w|))
  {
  }

  lemma {:induction false} DrainOneByOne(t: LenTest, w: bytes, pos: nat, items: seq<Item>)
    requires OneByOne((p: nat) => ParseOne(t, w, p), |w|, pos, items)
    ensures ParseAll(t, w, pos) == Drained(ExpectedAll(items, pos), Bad(|w|))
    decreases |items|
  {
    hide Layout, Expected, ParseOne;
    if items == [] {
      ParseAtEnd(t, w);
    } else {
      var next := pos + |Layout(items[0])|;
      DrainOneByOne(t, w, next, items[1..]);
      ParseAllCons(t, w, pos, Expected(items[0], pos), next, ParseAll(t, w, next));
    }
  }

  /** Parsing a laid-out list of records returns exactly that list, wherever it starts,
      and stops at the end of the input. */
  lemma StreamRoundTrip(t: LenTest, w: bytes, pos: nat, items: seq<Item>)
    requires AllWellFormed(t, items)
    requires pos + |LayoutAll(items)| == |w| && Holds(w, pos, LayoutAll(items))
    ensures ParseAll(t, w, pos) == Drained(ExpectedAll(items, pos), Bad(|w|))
  {
    ParserReads(t, w);
    ReadOneByOne((p: nat) => ParseOne(t, w, p), t, w, pos, items);
    DrainOneByOne(t, w, pos, items);
  }

  // ---------------------------------------------------------- what is accepted

  /** The bytes a payload takes, by type: eight for BEGIN_REQUEST, none for ABORT_REQUEST, all
      its pairs, the last one maybe past the end, or as many as declared. */
  function Takes(t: LenTest, w: bytes, pos: nat): nat {
    var ty, rsz := At(w, pos + 1), At(w, pos + 4) * 0x100 + At(w, pos + 5);
    if ty == 1 then 8 else if ty == 2 then 0 else if ty == 5 || ty == 8 then rsz else Pairs(t, w, pos + 8, rsz).size
  }

  /** The same for a payload: whether it is accepted, and what it gives. */
  lemma PayloadTakes(t: LenTest, w: bytes, pos: nat)
    requires KnownType(At(w, pos + 1))
    ensures var ty, payload := At(w, pos + 1), PayloadAt(t, w, pos + 8, At(w, pos + 1), RszAt(w, pos));
            && (payload.Fatal? <==> ty == 11)
            && (payload.Payload? <==> ty in {1, 2, 4, 5, 8, 9, 10})
            && (payload.Payload? ==> payload.size == Takes(t, w, pos) && OfType(payload.body, ty, pos + 8, RszAt(w, pos)))
  {
    hide Pairs, ParamsMap, ValuesMap;
  }

  /** A body of a type; for STDIN and DATA, where its bytes are. */
  predicate OfType(body: Body, ty: byte, q: nat, rsz: u16) {
    match body
    case BeginBody(_, _) => ty == 1
    case AbortBody => ty == 2
    case ParamsBody(_) => ty == 4
    case StdinBody(start, end) => ty == 5 && start == q && end == q + rsz
    case DataBody(start, end) => ty == 8 && start == q && end == q + rsz
    case ValuesBody(_) => ty == 9
    case ResultBody(_) => ty == 10
  }

  /** Exactly which records are accepted, which stop the process, and what their headers say.
      Everything else, another version, a type the code does not implement, an id where none
      belongs or none where one does, ends the connection. */
  lemma AcceptsIff(t: LenTest, w: bytes, pos: nat)
    ensures var one, ty, takes := ParseOne(t, w, pos), At(w, pos + 1), Takes(t, w, pos);
            var rid, rsz := ShortOf(At(w, pos + 2), At(w, pos + 3)), ShortOf(At(w, pos + 4), At(w, pos + 5));
            var psz := At(w, pos + 6);
            var whole := pos + 8 + rsz <= |w| && At(w, pos) == 1;
            && (one.Killed? <==> whole && ty == 11 && rid == 0)
            && (one.Good? <==>
                  && whole && ty in {1, 2, 4, 5, 8, 9, 10} && (rid == 0 <==> ty in {9, 10})
                  && rsz <= takes && pos + 8 + takes + psz <= |w|)
            && (one.Good? ==>
                  && one.next == pos + 8 + takes + psz && one.rec.rid == rid && one.rec.rsz == rsz && one.rec.psz == psz
                  && OfType(one.rec.body, ty, pos + 8, rsz))
  {
    hide PayloadAt, Takes, OfType;
    if KnownType(At(w, pos + 1)) {
      PayloadTakes(t, w, pos);
    }
  }

  // ------------------------------------------------- frames on the sending side

  /** Every frame is a multiple of eight bytes, as section 3.3 recommends. */
  lemma FrameAligned(ty: byte, rid: u16, data: bytes)
    requires |data| <= MAX_PAYLOAD
    ensures |Frame(ty, rid, data)| % 8 == 0
    ensures |Frame(ty, rid, data)| == HEADER_LEN + |data| + Padding(|data|)
  {
  }

  lemma HeaderParts(ty: byte, rid: u16, rsz: u16, psz: byte)
    ensures HeaderBytes(ty, rid, rsz, psz) == [VERSION, ty] + Short(rid) + Short(rsz) + [psz, 0]
  {
  }

  lemma UncheckedHeader(ty: byte, rid: u16, c: Chunk)
    requires 0 <= c.ret <= MAX_PAYLOAD
    ensures var u := Unchecked(ty, rid, c);
            |u| == HEADER_LEN + |c.data| + Padding(c.ret) && RszAt(u, 0) == c.ret && At(u, 6) == Padding(c.ret)
  {
    var u := Unchecked(ty, rid, c);
    var head := HeaderBytes(ty, rid, c.ret, Padding(c.ret));
    HeaderParts(ty, rid, c.ret, Padding(c.ret));
    assert u[0..8] == head;
    HeaderBack(u, 0, ty, rid, c.ret, Padding(c.ret), 0);
  }

  /** Without assertions an answer to GET_VALUES is as long as its header says exactly if
      it answers nothing; otherwise the receiver takes later bytes for its content. */
  lemma UncheckedFrameIffEmpty(rec: OutRecord, eod: nat)
    requires rec.ResultOut? || rec.ValuesOut?
    requires 0 <= PayloadOf(rec, eod + HEADER_LEN).ret <= MAX_PAYLOAD
    ensures var u := Unchecked(rec.Type(), rec.rid, PayloadOf(rec, eod + HEADER_LEN));
            && (|u| == HEADER_LEN + RszAt(u, 0) + At(u, 6) <==> Present(rec.values) == [])
            && |u| <= HEADER_LEN + RszAt(u, 0) + At(u, 6)
  {
    UncheckedHeader(rec.Type(), rec.rid, PayloadOf(rec, eod + HEADER_LEN));
    RenderedPairs(rec.values, eod + HEADER_LEN);
  }

  /** The body of END_REQUEST, read the way section 5.5 lays it out: the application status
      in four bytes, then the protocol status. It says what was meant if and only if all
      four bytes of the application status equal the protocol status. */
  lemma EndBodyIff(rid: u16, proto: byte, app: u32, start: nat)
    ensures var s := PayloadOf(EndOut(rid, proto, app), start).data;
            && |s| == 8 && s[0] == proto && Int4Of(s[1], s[2], s[3], s[4]) == app
            && (Int4Of(s[0], s[1], s[2], s[3]) == app && s[4] == proto <==> app == proto * 0x101_0101)
  {
    Int4Back(app);
    var r := Int4(app);
    EqualBytes(proto, r[0], r[1], r[2], r[3]);
  }

  lemma EqualBytes(p: byte, a: byte, b: byte, c: byte, d: byte)
    ensures Int4Of(p, a, b, c) == Int4Of(a, b, c, d) && d == p <==> Int4Of(a, b, c, d) == p * 0x101_0101
  {
  }

  datatype FrameRead = FrameRead(ty: byte, rid: u16, data: bytes)

  /** A receiver that follows section 3.3 of the FastCGI Specification and knows
      nothing else: read a header, take its content, skip its padding. */
  function ReadFrames(w: bytes): seq<FrameRead>
    decreases |w|
  {
    if |w| < HEADER_LEN || |w| < HEADER_LEN + RszAt(w, 0) + At(w, 6) then []
    else
      [FrameRead(At(w, 1), RidAt(w, 0), w[HEADER_LEN..HEADER_LEN + RszAt(w, 0)])]
      + ReadFrames(w[HEADER_LEN + RszAt(w, 0) + At(w, 6)..])
  }

  function Frames(sent: seq<FrameRead>): bytes
    requires forall f <- sent :: |f.data| <= MAX_PAYLOAD
  {
    if sent == [] then [] else Frame(sent[0].ty, sent[0].rid, sent[0].data) + Frames(sent[1..])
  }

  /** What a receiver sees of a frame at the head of its input. */
  lemma FrameHead(f: FrameRead, rest: bytes)
    requires |f.data| <= MAX_PAYLOAD
    ensures var n := |f.data|;
            var w := Frame(f.ty, f.rid, f.data) + rest;
            && |w| == HEADER_LEN + n + Padding(n) + |rest|
            && At(w, 1) == f.ty && RidAt(w, 0) == f.rid && RszAt(w, 0) == n && At(w, 6) == Padding(n)
            && w[HEADER_LEN..HEADER_LEN + n] == f.data && w[HEADER_LEN + n + Padding(n)..] == rest
  {
    var n := |f.data|;
    var head, pad := HeaderBytes(f.ty, f.rid, n, Padding(n)), PaddingBytes(n);
    var w := Frame(f.ty, f.rid, f.data) + rest;
    assert w == head + (f.data + (pad + rest));
    HeaderParts(f.ty, f.rid, n, Padding(n));
    assert w[0..8] == head;
    HeaderBack(w, 0, f.ty, f.rid, n, Padding(n), 0);
  }

  lemma FrameBack(f: FrameRead, rest: bytes)
    requires |f.data| <= MAX_PAYLOAD
    ensures ReadFrames(Frame(f.ty, f.rid, f.data) + rest) == [f] + ReadFrames(rest)
  {
    FrameHead(f, rest);
  }

  /** Any concatenation of frames is read back as exactly those frames in order. */
  lemma {:induction false} FramesReadBack(sent: seq<FrameRead>)
    requires forall f <- sent :: |f.data| <= MAX_PAYLOAD
    ensures ReadFrames(Frames(sent)) == sent
    decreases |sent|
  {
    if sent != [] {
      FrameBack(sent[0], Frames(sent[1..]));
      FramesReadBack(sent[1..]);
      assert sent == [sent[0]] + sent[1..];
    }
  }
}

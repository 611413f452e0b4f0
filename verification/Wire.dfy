/** The record format: what `mnfcgi_parse` reads and what `mnfcgi_render` writes,
    as functions. `ByteStreams` runs them on a stream; `PairProofs` and `StreamProofs`
    relate them. */
module Wire {
  import opened Bytes

  const HEADER_LEN := 8
  const VERSION: byte := 1
  const BEGIN_REQUEST: byte := 1
  const ABORT_REQUEST: byte := 2
  const END_REQUEST: byte := 3
  const PARAMS: byte := 4
  const STDIN: byte := 5
  const STDOUT: byte := 6
  const STDERR: byte := 7
  const DATA: byte := 8
  const GET_VALUES: byte := 9
  const GET_VALUES_RESULT: byte := 10
  const UNKNOWN_TYPE: byte := 11
  const MAX_PAYLOAD := 0x8000
  const PADDING_VALUE: byte := 0x5a

  // ---------------------------------------------------------------- parsing

  datatype Pair = Pair(name: bytes, value: bytes)

  /** How a length's first byte is tested. The code tests bit 0x800 of a byte, which
      is never set; section 3.4 of the FastCGI Specification means bit 0x80. */
  datatype LenTest = AsCoded | HighBit

  datatype Length = Length(value: nat, width: nat)

  function LengthAt(t: LenTest, m: bytes, q: nat): (r: Length)
    ensures r.width == 1 || r.width == 4
  {
    if t.HighBit? && At(m, q) >= 0x80 then
      Length(Mask31(Int4Of(At(m, q), At(m, q + 1), At(m, q + 2), At(m, q + 3))), 4)
    else
      Length(At(m, q), 1)
  }

  datatype RawRead = KvpRead(pair: Pair, size: nat)

  /** A pair and the bytes it takes: the two lengths alone take two. */
  type PairRead = r: RawRead | 2 <= r.size witness KvpRead(Pair([], []), 2)

  function Kvp(t: LenTest, m: bytes, q: nat): (r: RawRead)
    ensures 2 <= r.size
  {
    var k := LengthAt(t, m, q);
    var v := LengthAt(t, m, q + k.width);
    var idx := k.width + v.width;
    KvpRead(Pair(Slice(m, q + idx, k.value), Slice(m, q + idx + k.value, v.value)),
            idx + k.value + v.value)
  }

  datatype PairRun = PairRun(pairs: seq<Pair>, size: nat)

  /** The pairs a reader returns from `q` on until at least `left` bytes are used up. */
  function PairsBy(read: nat -> PairRead, q: nat, left: int): (r: PairRun)
    ensures left <= r.size
    decreases left
  {
    if left <= 0 then PairRun([], 0)
    else
      var kvp := read(q);
      var rest := PairsBy(read, q + kvp.size, left - kvp.size);
      PairRun([kvp.pair] + rest.pairs, kvp.size + rest.size)
  }

  function ReaderOf(t: LenTest, m: bytes): nat -> PairRead {
    (q: nat) => Kvp(t, m, q)
  }

  function Pairs(t: LenTest, m: bytes, q: nat, left: int): PairRun {
    PairsBy(ReaderOf(t, m), q, left)
  }

  /** PARAMS: the last pair of a name wins. */
  function ParamsMap(pairs: seq<Pair>): map<bytes, bytes> {
    if pairs == [] then map[]
    else
      var last := pairs[|pairs| - 1];
      ParamsMap(pairs[..|pairs| - 1])[last.name := last.value]
  }

  /** GET_VALUES: an empty name is skipped and an empty value is NULL. */
  function ValuesMap(pairs: seq<Pair>): map<bytes, Option<bytes>> {
    if pairs == [] then map[]
    else
      var last := pairs[|pairs| - 1];
      var before := ValuesMap(pairs[..|pairs| - 1]);
      if last.name == [] then before
      else before[last.name := if last.value == [] then None else Some(last.value)]
  }

  datatype Body =
    | BeginBody(role: u16, flags: byte)
    | AbortBody
    | ParamsBody(params: map<bytes, bytes>)
    | StdinBody(start: nat, end: nat)
    | DataBody(start: nat, end: nat)
    | ValuesBody(values: map<bytes, Option<bytes>>)
    | ResultBody(values: map<bytes, Option<bytes>>)

  datatype Record = Record(rid: u16, rsz: u16, psz: byte, body: Body)

  datatype Payload =
    | Payload(body: Body, size: nat)
    | Unimplemented
    | Fatal

  predicate KnownType(ty: byte) {
    BEGIN_REQUEST <= ty <= UNKNOWN_TYPE
  }

  predicate IsManagement(ty: byte) {
    ty == GET_VALUES || ty == GET_VALUES_RESULT || ty == UNKNOWN_TYPE
  }

  function PayloadAt(t: LenTest, m: bytes, q: nat, ty: byte, rsz: u16): Payload
    requires KnownType(ty)
  {
    if ty == BEGIN_REQUEST then
      Payload(BeginBody(ShortOf(At(m, q), At(m, q + 1)), At(m, q + 2)), 8)
    else if ty == ABORT_REQUEST then Payload(AbortBody, 0)
    else if ty == PARAMS then
      var run := Pairs(t, m, q, rsz);
      Payload(ParamsBody(ParamsMap(run.pairs)), run.size)
    else if ty == STDIN then Payload(StdinBody(q, q + rsz), rsz)
    else if ty == DATA then Payload(DataBody(q, q + rsz), rsz)
    else if ty == GET_VALUES then
      var run := Pairs(t, m, q, rsz);
      Payload(ValuesBody(ValuesMap(run.pairs)), run.size)
    else if ty == GET_VALUES_RESULT then
      var run := Pairs(t, m, q, rsz);
      Payload(ResultBody(ValuesMap(run.pairs)), run.size)
    else if ty == UNKNOWN_TYPE then Fatal
    else Unimplemented
  }

  datatype Header = Header(ty: byte, rid: u16, rsz: u16, psz: byte)

  function RidAt(m: bytes, q: nat): u16 { ShortOf(At(m, q + 2), At(m, q + 3)) }
  function RszAt(m: bytes, q: nat): u16 { ShortOf(At(m, q + 4), At(m, q + 5)) }

  function HeaderAt(m: bytes, q: nat): Header {
    Header(At(m, q + 1), RidAt(m, q), RszAt(m, q), At(m, q + 6))
  }

  /** The header checks of `mnfcgi_parse`, on eight available bytes. */
  predicate HeaderOk(m: bytes, q: nat) {
    && KnownType(At(m, q + 1))
    && At(m, q) == VERSION
    && (IsManagement(At(m, q + 1)) <==> RidAt(m, q) == 0)
  }

  /** `Good` leaves the position after the record, `Bad` wherever the parse gave up,
      `Killed` is the process exit on an incoming UNKNOWN_TYPE record. */
  datatype Parsed =
    | Good(rec: Record, next: nat)
    | Bad(next: nat)
    | Killed

  /** One record of an input of which every byte is there. */
  function ParseOne(t: LenTest, w: bytes, pos: nat): (r: Parsed)
    ensures r.Good? ==> pos + HEADER_LEN <= r.next <= |w|
  {
    if |w| < pos + HEADER_LEN || !HeaderOk(w, pos) then Bad(pos)
    else OneBody(t, w, pos + HEADER_LEN, HeaderAt(w, pos))
  }

  function OneBody(t: LenTest, w: bytes, q: nat, h: Header): (r: Parsed)
    requires KnownType(h.ty)
    ensures r.Good? ==> q <= r.next <= |w|
  {
    if |w| < q + h.rsz then Bad(q) else Finished(PayloadAt(t, w, q, h.ty, h.rsz), |w|, q, h)
  }

  /** What becomes of a payload read at `q` when the input has `len` bytes in all. */
  function Finished(payload: Payload, len: nat, q: nat, h: Header): (r: Parsed)
    ensures r.Good? ==> q <= r.next <= len
  {
    match payload
    case Fatal => Killed
    case Unimplemented => Bad(q)
    case Payload(body, size) =>
      if size < h.rsz || len < q + size + h.psz then Bad(q + size)
      else Good(Record(h.rid, h.rsz, h.psz, body), q + size + h.psz)
  }

  /** The outcome of parsing until the first failure. */
  datatype Drained = Drained(records: seq<Record>, end: Parsed)

  function ParseAll(t: LenTest, w: bytes, pos: nat): (r: Drained)
    ensures !r.end.Good?
    decreases |w| - pos
  {
    var one := ParseOne(t, w, pos);
    if !one.Good? then Drained([], one)
    else
      var rest := ParseAll(t, w, one.next);
      Drained([one.rec] + rest.records, rest.end)
  }

  // -------------------------------------------------- parsing a growing input

  /** The input stream: cells written so far, end of data, read position, and the
      chunks the peer is still going to deliver. Cells from `eod` on are stale. */
  datatype Buffered = Input(mem: bytes, eod: nat, pos: nat, feed: seq<bytes>) {
    function Available(): int { eod - pos }

    function Moved(n: nat): Buffered { this.(pos := pos + n) }
  }

  type Input = s: Buffered | s.eod <= |s.mem| witness Buffered.Input([], 0, 0, [])

  /** Everything received and everything still to come. */
  function Whole(s: Input): bytes {
    s.mem[..s.eod] + Flatten(s.feed)
  }

  /** What appending `s` at `eod` does to the cells. */
  function Overwrite(m: bytes, eod: nat, s: bytes): (r: bytes)
    requires eod <= |m|
    ensures eod + |s| <= |r|
    ensures r[..eod + |s|] == m[..eod] + s
    ensures eod + |s| >= |m| ==> r == m[..eod] + s
  {
    m[..eod] + s + if eod + |s| < |m| then m[eod + |s|..] else []
  }

  function Consumed(s: Input): Input
    requires s.feed != []
  {
    Buffered.Input(Overwrite(s.mem, s.eod, s.feed[0]), s.eod + |s.feed[0]|, s.pos, s.feed[1..])
  }

  datatype Filled = Filled(ok: bool, input: Input)

  /** The waiting loop `while (SAVAIL(bs) < need) consume`. */
  function Fill(s: Input, need: nat): (r: Filled)
    ensures r.input.pos == s.pos
    ensures r.ok <==> r.input.Available() >= need
    decreases |s.feed|
  {
    if s.Available() >= need then Filled(true, s)
    else if s.feed == [] then Filled(false, s)
    else Fill(Consumed(s), need)
  }

  datatype Step = Step(parsed: Parsed, input: Input)

  /** `mnfcgi_parse` on a growing input, wait by wait. */
  function ParseInput(t: LenTest, s: Input): (r: Step)
    ensures !r.parsed.Killed? ==> r.parsed.next == r.input.pos
  {
    var head := Fill(s, HEADER_LEN);
    if !head.ok || !HeaderOk(head.input.mem, s.pos) then Step(Bad(s.pos), head.input)
    else InputBody(t, head.input.Moved(HEADER_LEN), HeaderAt(head.input.mem, s.pos))
  }

  function InputBody(t: LenTest, s: Input, h: Header): (r: Step)
    requires KnownType(h.ty)
    ensures !r.parsed.Killed? ==> r.parsed.next == r.input.pos
  {
    var body := Fill(s, h.rsz);
    if !body.ok then Step(Bad(s.pos), body.input)
    else
      match PayloadAt(t, body.input.mem, s.pos, h.ty, h.rsz)
      case Fatal => Step(Killed, body.input)
      case Unimplemented => Step(Bad(s.pos), body.input)
      case Payload(content, size) =>
        InputPadding(body.input.Moved(size), h, content, size)
  }

  function InputPadding(s: Input, h: Header, content: Body, size: nat): (r: Step)
    ensures !r.parsed.Killed? ==> r.parsed.next == r.input.pos
  {
    if size < h.rsz then Step(Bad(s.pos), s)
    else
      var tail := Fill(s, h.psz);
      if !tail.ok then Step(Bad(s.pos), tail.input)
      else
        Step(Good(Record(h.rid, h.rsz, h.psz, content), s.pos + h.psz), tail.input.Moved(h.psz))
  }

  // -------------------------------------------------------------- rendering

  /** What a payload renderer did: the bytes it appended and the number it returned. */
  datatype Chunk = Chunk(data: bytes, ret: int)

  datatype OutRecord =
    | BeginOut(rid: u16, role: u16, flags: byte)
    | AbortOut(rid: u16)
    | EndOut(rid: u16, protoStatus: byte, appStatus: u32)
    | ParamsOut(rid: u16)
    | StdoutOut(rid: u16, stdout: Chunk)
    | StderrOut(rid: u16, stderr: Chunk)
    | ValuesOut(rid: u16, values: seq<(bytes, Option<bytes>)>)
    | ResultOut(rid: u16, values: seq<(bytes, Option<bytes>)>)
    | UnknownTypeOut(rid: u16, unknown: byte)
  {
    function Type(): byte {
      match this
      case BeginOut(_, _, _) => BEGIN_REQUEST
      case AbortOut(_) => ABORT_REQUEST
      case EndOut(_, _, _) => END_REQUEST
      case ParamsOut(_) => PARAMS
      case StdoutOut(_, _) => STDOUT
      case StderrOut(_, _) => STDERR
      case ValuesOut(_, _) => GET_VALUES
      case ResultOut(_, _) => GET_VALUES_RESULT
      case UnknownTypeOut(_, _) => UNKNOWN_TYPE
    }
  }

  /** `MNFCGI_RENDER_INT`: note 0x7f, where section 3.4 has one byte up to 127. */
  function RenderLength(n: nat): bytes {
    if n < 0x7f then [n] else Int4(Set31(n % 0x1_0000_0000))
  }

  function RenderPair(name: bytes, value: bytes): bytes {
    RenderLength(|name|) + RenderLength(|value|) + name + value
  }

  /** The pair renderer returns the stream's absolute end, not the bytes appended,
      so the total depends on where the payload starts. */
  function RenderValues(values: seq<(bytes, Option<bytes>)>, start: nat): Chunk {
    if values == [] then Chunk([], 0)
    else
      var (name, value) := values[0];
      match value
      case None => RenderValues(values[1..], start)
      case Some(v) =>
        var s := RenderPair(name, v);
        var rest := RenderValues(values[1..], start + |s|);
        Chunk(s + rest.data, start + |s| + rest.ret)
  }

  function PayloadOf(rec: OutRecord, start: nat): Chunk {
    match rec
    case BeginOut(_, role, flags) =>
      Chunk(Short(role) + [flags] + [PADDING_VALUE, PADDING_VALUE, PADDING_VALUE, PADDING_VALUE, PADDING_VALUE], 8)
    case AbortOut(_) => Chunk([], 0)
    // protocol status first: the reverse of section 5.5 of the FastCGI Specification
    case EndOut(_, proto, app) => Chunk([proto] + Int4(app) + [0, 0, 0], 8)
    case ParamsOut(_) => Chunk([], -1)
    case StdoutOut(_, c) => c
    case StderrOut(_, c) => c
    case ValuesOut(_, values) => RenderValues(values, start)
    case ResultOut(_, values) => RenderValues(values, start)
    case UnknownTypeOut(_, _) => Chunk([], 0)
  }

  datatype Outcome = Rendered | RenderError | PayloadTooLarge | AssertionFailed

  function RenderOutcome(c: Chunk): Outcome {
    if c.ret < 0 then RenderError
    else if c.ret != |c.data| then AssertionFailed
    else if c.ret > MAX_PAYLOAD then PayloadTooLarge
    else Rendered
  }

  /** With assertions compiled out a length that is not the real one goes unnoticed. */
  function OutcomeIn(checked: bool, c: Chunk): Outcome {
    if !checked && RenderOutcome(c).AssertionFailed? then (if c.ret > MAX_PAYLOAD then PayloadTooLarge else Rendered)
    else RenderOutcome(c)
  }

  function HeaderStart(ty: byte, rid: u16): bytes {
    [VERSION, ty, rid / 0x100, rid % 0x100]
  }

  function HeaderEnd(rsz: u16, psz: byte): bytes {
    [rsz / 0x100, rsz % 0x100, psz, 0]
  }

  function HeaderBytes(ty: byte, rid: u16, rsz: u16, psz: byte): (r: bytes)
    ensures |r| == HEADER_LEN
  {
    HeaderStart(ty, rid) + HeaderEnd(rsz, psz)
  }

  function Padding(rsz: nat): (psz: byte)
    ensures psz < 8
  {
    if rsz % 8 != 0 then 8 - rsz % 8 else 0
  }

  function PaddingBytes(rsz: nat): (r: bytes)
    ensures |r| == Padding(rsz)
  {
    seq<byte>(Padding(rsz), (i: nat) => PADDING_VALUE)
  }

  /** A frame laid out as section 3.3 of the FastCGI Specification has it. */
  function Frame(ty: byte, rid: u16, data: bytes): bytes
    requires |data| <= MAX_PAYLOAD
  {
    HeaderBytes(ty, rid, |data|, Padding(|data|)) + data + PaddingBytes(|data|)
  }

  /** A frame that declares as its length whatever the payload renderer returned. */
  function Unchecked(ty: byte, rid: u16, c: Chunk): bytes
    requires 0 <= c.ret <= MAX_PAYLOAD
  {
    HeaderBytes(ty, rid, c.ret, Padding(c.ret)) + (c.data + PaddingBytes(c.ret))
  }

  /** Everything a render at absolute position `eod` appends: the frame, or the
      placeholder header and the partial payload a failed render leaves behind. */
  function Appended(rec: OutRecord, eod: nat): bytes {
    var c := PayloadOf(rec, eod + HEADER_LEN);
    if RenderOutcome(c).Rendered? then Frame(rec.Type(), rec.rid, c.data)
    else HeaderBytes(rec.Type(), rec.rid, 0, 0) + c.data
  }

  /** The same for a build with assertions or without. */
  function AppendedIn(checked: bool, rec: OutRecord, eod: nat): bytes {
    var c := PayloadOf(rec, eod + HEADER_LEN);
    if OutcomeIn(checked, c).Rendered? then Unchecked(rec.Type(), rec.rid, c)
    else HeaderBytes(rec.Type(), rec.rid, 0, 0) + c.data
  }

  /** Assertions matter only where one fails. */
  lemma AppendedChecked(checked: bool, rec: OutRecord, eod: nat)
    requires checked || !RenderOutcome(PayloadOf(rec, eod + HEADER_LEN)).AssertionFailed?
    ensures AppendedIn(checked, rec, eod) == Appended(rec, eod)
  {
    var c := PayloadOf(rec, eod + HEADER_LEN);
    if RenderOutcome(c).Rendered? {
      var head := HeaderBytes(rec.Type(), rec.rid, c.ret, Padding(c.ret));
      assert head + (c.data + PaddingBytes(c.ret)) == head + c.data + PaddingBytes(c.ret);
    }
  }
}

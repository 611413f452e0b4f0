/** The byte stream of the library as the repository uses it, with the parser and the
    renderer that run on it. A cell once written stays in `buf` after a rewind, as it
    does in the C buffer: data is `buf[..eod]`, everything behind it is stale. */
module ByteStreams {
  import opened Bytes
  import opened Wire
  import PairProofs

  class ByteStream {
    var buf: bytes
    var eod: nat
    var pos: nat
    /** What the peer will still send, one element per successful read. */
    var feed: seq<bytes>
    /** Whether the n-th write to the peer succeeds. */
    const writeOk: nat -> bool
    var writes: nat
    /** History: every byte the peer received. */
    var delivered: bytes

    ghost predicate Valid()
      reads this
    {
      eod <= |buf|
    }

    ghost function In(): Input
      requires Valid()
      reads this
    {
      Buffered.Input(buf, eod, pos, feed)
    }

    ghost function Data(): bytes
      requires Valid()
      reads this
    {
      buf[..eod]
    }

    constructor (feed: seq<bytes>, writeOk: nat -> bool)
      ensures Valid() && In() == Buffered.Input([], 0, 0, feed)
      ensures this.writeOk == writeOk && writes == 0 && delivered == []
    {
      buf, eod, pos, this.feed := [], 0, 0, feed;
      this.writeOk, writes, delivered := writeOk, 0, [];
    }

    /** Writes `s` at the end of data, over stale cells if there are any. */
    method Store(s: bytes)
      requires Valid()
      modifies this`buf, this`eod
      ensures Valid() && eod == old(eod) + |s| && buf == Overwrite(old(buf), old(eod), s)
    {
      buf := buf[..eod] + s + if eod + |s| < |buf| then buf[eod + |s|..] else [];
      eod := eod + |s|;
    }

    /** `bytestream_cat`, `SCATC` and `SCATI`. */
    method Cat(s: bytes)
      requires Valid()
      modifies this`buf, this`eod
      ensures Valid() && eod == old(eod) + |s| && Data() == old(Data()) + s
    {
      Store(s);
    }

    method Consume() returns (ok: bool)
      requires Valid()
      modifies this`buf, this`eod, this`feed
      ensures Valid() && ok == (old(feed) != [])
      ensures In() == if ok then Consumed(old(In())) else old(In())
    {
      ok := feed != [];
      if ok {
        var chunk := feed[0];
        feed := feed[1..];
        Store(chunk);
      }
    }

    /** `bytestream_produce_data`: everything unsent goes out, or the write fails. */
    method Produce() returns (ok: bool)
      requires Valid() && pos <= eod
      modifies this`pos, this`writes, this`delivered
      ensures ok == writeOk(old(writes)) && writes == old(writes) + 1 && pos <= eod
      ensures delivered == old(delivered) + if ok then old(buf[pos..eod]) else []
      ensures pos == if ok then eod else old(pos)
    {
      ok := writeOk(writes);
      writes := writes + 1;
      if ok {
        delivered := delivered + buf[pos..eod];
        pos := eod;
      }
    }

    method Rewind()
      modifies this`pos, this`eod
      ensures Valid() && pos == 0 && eod == 0
    {
      pos, eod := 0, 0;
    }

    // ---------------------------------------------------------------- parser

    method Wait(need: nat) returns (ok: bool)
      requires Valid()
      modifies this`buf, this`eod, this`feed
      ensures Valid() && Filled(ok, In()) == Fill(old(In()), need)
    {
      ok := true;
      while eod - pos < need
        invariant Valid() && ok && pos == old(pos)
        invariant Fill(In(), need) == Fill(old(In()), need)
        decreases |feed|
      {
        ok := Consume();
        if !ok {
          return;
        }
      }
    }

    /** One pair of a PARAMS record goes into the table, replacing an earlier value. */
    method ParseParam(ghost done: seq<Pair>, params: map<bytes, bytes>)
      returns (kvp: PairRead, params': map<bytes, bytes>)
      requires params == ParamsMap(done)
      modifies this`pos
      ensures kvp == Kvp(AsCoded, buf, old(pos)) && pos == old(pos) + kvp.size
      ensures params' == ParamsMap(done + [kvp.pair])
    {
      kvp := ParseKvp();
      params' := params[kvp.pair.name := kvp.pair.value];
      pos := pos + kvp.size;
      PairProofs.MapsSnoc(done, kvp.pair);
    }

    method ParseParams(rsz: u16) returns (params: map<bytes, bytes>, nread: nat)
      modifies this`pos
      ensures var run := Pairs(AsCoded, buf, old(pos), rsz);
              params == ParamsMap(run.pairs) && nread == run.size
      ensures pos == old(pos) + nread
    {
      params, nread := map[], 0;
      ghost var m, start := buf, pos;
      ghost var done: seq<Pair> := [];
      while nread < rsz
        invariant buf == m && pos == start + nread && params == ParamsMap(done)
        invariant Progress(m, start, rsz, done, nread)
        decreases rsz - nread
      {
        ProgressStep(m, start, rsz, done, nread);
        var kvp;
        kvp, params := ParseParam(done, params);
        done := done + [kvp.pair];
        nread := nread + kvp.size;
      }
      ProgressDone(m, start, rsz, done, nread);
    }

    /** One pair of a GET_VALUES record, with NULL for an empty value. */
    method ParseValue(ghost done: seq<Pair>, values: map<bytes, Option<bytes>>)
      returns (kvp: PairRead, values': map<bytes, Option<bytes>>)
      requires values == ValuesMap(done)
      modifies this`pos
      ensures kvp == Kvp(AsCoded, buf, old(pos)) && pos == old(pos) + kvp.size
      ensures values' == ValuesMap(done + [kvp.pair])
    {
      kvp := ParseKvp();
      values' := values;
      if kvp.pair.name != [] {
        values' := values[kvp.pair.name := if kvp.pair.value == [] then None else Some(kvp.pair.value)];
      }
      pos := pos + kvp.size;
      PairProofs.MapsSnoc(done, kvp.pair);
    }

    method ParseValues(rsz: u16) returns (values: map<bytes, Option<bytes>>, nread: nat)
      modifies this`pos
      ensures var run := Pairs(AsCoded, buf, old(pos), rsz);
              values == ValuesMap(run.pairs) && nread == run.size
      ensures pos == old(pos) + nread
    {
      values, nread := map[], 0;
      ghost var m, start := buf, pos;
      ghost var done: seq<Pair> := [];
      while nread < rsz
        invariant buf == m && pos == start + nread && values == ValuesMap(done)
        invariant Progress(m, start, rsz, done, nread)
        decreases rsz - nread
      {
        ProgressStep(m, start, rsz, done, nread);
        var kvp;
        kvp, values := ParseValue(done, values);
        done := done + [kvp.pair];
        nread := nread + kvp.size;
      }
      ProgressDone(m, start, rsz, done, nread);
    }

    /** `mnfcgi_parse_kvp`: bit 0x800 of a byte is never set, so a length is one byte. */
    method ParseKvp() returns (kvp: PairRead)
      ensures kvp == Kvp(AsCoded, buf, pos)
    {
      var idx := 0;
      var ksz: nat := At(buf, pos + idx);
      idx := idx + 1;
      var vsz: nat := At(buf, pos + idx);
      idx := idx + 1;
      var name := Slice(buf, pos + idx, ksz);
      var value := Slice(buf, pos + idx + ksz, vsz);
      kvp := KvpRead(Pair(name, value), idx + ksz + vsz);
    }

    method ParsePayload(ty: byte, rsz: u16) returns (payload: Payload)
      requires KnownType(ty)
      modifies this`pos
      ensures payload == PayloadAt(AsCoded, buf, old(pos), ty, rsz)
      ensures pos == old(pos) + if payload.Payload? then payload.size else 0
    {
      var start := pos;
      if ty == BEGIN_REQUEST {
        payload := Payload(BeginBody(ShortOf(At(buf, pos), At(buf, pos + 1)), At(buf, pos + 2)), 8);
        pos := pos + 8;
      } else if ty == ABORT_REQUEST {
        payload := Payload(AbortBody, 0);
      } else if ty == PARAMS {
        var params, nread := ParseParams(rsz);
        payload := Payload(ParamsBody(params), nread);
      } else if ty == STDIN {
        pos := pos + rsz;
        payload := Payload(StdinBody(start, pos), rsz);
      } else if ty == DATA {
        pos := pos + rsz;
        payload := Payload(DataBody(start, pos), rsz);
      } else if ty == GET_VALUES || ty == GET_VALUES_RESULT {
        var values, nread := ParseValues(rsz);
        payload := Payload(if ty == GET_VALUES then ValuesBody(values) else ResultBody(values), nread);
      } else if ty == UNKNOWN_TYPE {
        payload := Fatal;
      } else {
        payload := Unimplemented;
      }
    }

    method Parse() returns (r: Parsed)
      requires Valid()
      modifies this`buf, this`eod, this`feed, this`pos
      ensures Valid()
      ensures Step(r, In()) == ParseInput(AsCoded, old(In()))
    {
      var ok := Wait(HEADER_LEN);
      if !ok || !HeaderOk(buf, pos) {
        return Bad(pos);
      }
      var h := HeaderAt(buf, pos);
      pos := pos + HEADER_LEN;
      r := ParseBody(h);
    }

    method ParseBody(h: Header) returns (r: Parsed)
      requires Valid() && KnownType(h.ty)
      modifies this`buf, this`eod, this`feed, this`pos
      ensures Valid()
      ensures Step(r, In()) == InputBody(AsCoded, old(In()), h)
    {
      var ok := Wait(h.rsz);
      if !ok {
        return Bad(pos);
      }
      var payload := ParsePayload(h.ty, h.rsz);
      if payload.Fatal? {
        r := Killed;
      } else if payload.Unimplemented? {
        r := Bad(pos);
      } else {
        r := ParsePadding(h, payload.body, payload.size);
      }
    }

    method ParsePadding(h: Header, body: Body, size: nat) returns (r: Parsed)
      requires Valid()
      modifies this`buf, this`eod, this`feed, this`pos
      ensures Valid()
      ensures Step(r, In()) == InputPadding(old(In()), h, body, size)
    {
      if size < h.rsz {
        return Bad(pos);
      }
      var ok := Wait(h.psz);
      if !ok {
        return Bad(pos);
      }
      pos := pos + h.psz;
      r := Good(Record(h.rid, h.rsz, h.psz, body), pos);
    }

    // -------------------------------------------------------------- renderer

    method RenderPairs(values: seq<(bytes, Option<bytes>)>) returns (ret: int)
      requires Valid()
      modifies this`buf, this`eod
      ensures Valid() && Data() == old(Data()) + RenderValues(values, old(eod)).data
      ensures ret == RenderValues(values, old(eod)).ret
    {
      ret := 0;
      var i := 0;
      ghost var done: bytes := [];
      while i < |values|
        invariant 0 <= i <= |values| && Valid() && Data() == old(Data()) + done && eod == old(eod) + |done|
        invariant ValuesProgress(values, old(eod), i, done, ret)
      {
        ValuesStep(values, old(eod), i, done, ret);
        if values[i].1.Some? {
          ghost var s := RenderPair(values[i].0, values[i].1.value);
          var end := RenderKvp(values[i].0, values[i].1.value);
          Assoc(old(Data()), done, s);
          done := done + s;
          ret := ret + end;
        }
        i := i + 1;
      }
    }

    /** `mnfcgi_render_kvp`, which returns the stream's end and not the bytes appended. */
    method RenderKvp(name: bytes, value: bytes) returns (end: nat)
      requires Valid()
      modifies this`buf, this`eod
      ensures Valid() && Data() == old(Data()) + RenderPair(name, value)
      ensures end == eod
    {
      Cat(RenderLength(|name|));
      Cat(RenderLength(|value|));
      Cat(name);
      Cat(value);
      end := eod;
    }

    method RenderPayload(rec: OutRecord) returns (ret: int)
      requires Valid()
      modifies this`buf, this`eod
      ensures Valid() && Data() == old(Data()) + PayloadOf(rec, old(eod)).data
      ensures ret == PayloadOf(rec, old(eod)).ret
    {
      match rec
      case BeginOut(_, role, flags) =>
        Cat(Short(role));
        Cat([flags]);
        Cat([PADDING_VALUE, PADDING_VALUE, PADDING_VALUE, PADDING_VALUE, PADDING_VALUE]);
        ret := 8;
      case EndOut(_, proto, app) =>
        Cat([proto]);
        Cat(Int4(app));
        Cat([0, 0, 0]);
        ret := 8;
      case ParamsOut(_) =>
        ret := -1;
      case StdoutOut(_, c) =>
        Cat(c.data);
        ret := c.ret;
      case StderrOut(_, c) =>
        Cat(c.data);
        ret := c.ret;
      case ValuesOut(_, values) =>
        ret := RenderPairs(values);
      case ResultOut(_, values) =>
        ret := RenderPairs(values);
      case AbortOut(_) =>
        ret := 0;
      case UnknownTypeOut(_, _) =>
        ret := 0;
    }

    /** Moves the end of data back to the placeholders, fills them in, and restores it. */
    method Patch(eod0: nat, rsz: u16, psz: byte)
      requires Valid() && eod0 + 4 <= eod
      modifies this`buf, this`eod
      ensures Valid() && eod == old(eod)
      ensures Data() == old(Data())[..eod0] + HeaderEnd(rsz, psz) + old(Data())[eod0 + 4..]
    {
      var eod1 := eod;
      eod := eod0;
      Store(Short(rsz));
      Store([psz]);
      Store([0]);
      eod := eod1;
      Overwritten(old(buf), eod0, Short(rsz), [psz]);
      Overwritten(old(buf), eod0, Short(rsz) + [psz], [0]);
      EndParts(rsz, psz);
      PatchedData(old(buf), eod1, eod0, HeaderEnd(rsz, psz));
    }

    method RenderStart(ty: byte, rid: u16)
      requires Valid()
      modifies this`buf, this`eod
      ensures Valid() && eod == old(eod) + 4 && Data() == old(Data()) + HeaderStart(ty, rid)
    {
      Cat([VERSION]);
      Cat([ty]);
      Cat(Short(rid));
      StartParts(old(Data()), ty, rid);
    }

    method RenderPlaceholders()
      requires Valid()
      modifies this`buf, this`eod
      ensures Valid() && eod == old(eod) + 4 && Data() == old(Data()) + HeaderEnd(0, 0)
    {
      var placeholder := Short(0);
      Cat(placeholder);
      Cat(placeholder);
      Placeholders(old(Data()), placeholder);
    }

    /** The header with placeholders for the length and the padding, which stand at `eod0`. */
    method RenderHeader(ty: byte, rid: u16) returns (eod0: nat)
      requires Valid()
      modifies this`buf, this`eod
      ensures Valid() && eod0 == old(eod) + 4 && eod == old(eod) + HEADER_LEN
      ensures Data() == old(Data()) + HeaderBytes(ty, rid, 0, 0)
    {
      RenderStart(ty, rid);
      eod0 := eod;
      RenderPlaceholders();
      Assoc(old(Data()), HeaderStart(ty, rid), HeaderEnd(0, 0));
    }

    /** Padding behind the payload, then the length returned and the padding into the header. */
    method PadAndPatch(eod0: nat, n: nat, ghost before: bytes, ghost ty: byte, ghost rid: u16, ghost data: bytes)
      requires Valid() && eod0 == |before| + 4 && n <= MAX_PAYLOAD
      requires Data() == before + HeaderBytes(ty, rid, 0, 0) + data
      modifies this`buf, this`eod
      ensures Valid() && Data() == before + Unchecked(ty, rid, Chunk(data, n))
    {
      Cat(PaddingBytes(n));
      Patch(eod0, n, Padding(n));
      PatchedFrame(before, ty, rid, data, n);
    }

    /** Renders behind placeholders and patches the length and padding in, with assertions
        or without. With them the result is the direct encoding of the payload; a failed
        render leaves its partial bytes. */
    method Render(checked: bool, rec: OutRecord) returns (res: Outcome)
      requires Valid()
      modifies this`buf, this`eod
      ensures Valid() && res == OutcomeIn(checked, PayloadOf(rec, old(eod) + HEADER_LEN))
      ensures Data() == old(Data()) + AppendedIn(checked, rec, old(eod))
      ensures checked || !RenderOutcome(PayloadOf(rec, old(eod) + HEADER_LEN)).AssertionFailed? ==>
                Data() == old(Data()) + Appended(rec, old(eod))
    {
      if checked || !RenderOutcome(PayloadOf(rec, eod + HEADER_LEN)).AssertionFailed? {
        AppendedChecked(checked, rec, eod);
      }
      var eod0 := RenderHeader(rec.Type(), rec.rid);
      var start := eod;
      var n := RenderPayload(rec);
      ghost var data := PayloadOf(rec, start).data;
      Assoc(old(Data()), HeaderBytes(rec.Type(), rec.rid, 0, 0), data);
      if n < 0 {
        return RenderError;
      }
      if checked && eod - start != n {
        return AssertionFailed;
      }
      if n > MAX_PAYLOAD {
        return PayloadTooLarge;
      }
      PadAndPatch(eod0, n, old(Data()), rec.Type(), rec.rid, data);
      res := Rendered;
    }
  }

  /** Replacing the four bytes `b` behind `before + a`. */
  lemma Replaced(before: bytes, a: bytes, b: bytes, rest: bytes, patch: bytes)
    ensures var s := before + (a + b) + rest;
            s[..|before| + |a|] + patch + s[|before| + |a| + |b|..] == before + (a + patch + rest)
  {
    var s := before + (a + b) + rest;
    assert s[..|before| + |a|] == before + a;
    assert s[|before| + |a| + |b|..] == rest;
  }

  lemma Assoc(a: bytes, b: bytes, c: bytes)
    ensures a + b + c == a + (b + c)
  {
  }

  lemma StartParts(before: bytes, ty: byte, rid: u16)
    ensures before + [VERSION] + [ty] + Short(rid) == before + HeaderStart(ty, rid)
  {
    Assoc(before, [VERSION], [ty]);
    Assoc(before, [VERSION] + [ty], Short(rid));
    assert [VERSION] + [ty] + Short(rid) == HeaderStart(ty, rid);
  }

  lemma EndParts(rsz: u16, psz: byte)
    ensures Short(rsz) + [psz] + [0] == HeaderEnd(rsz, psz)
  {
  }

  lemma Placeholders(before: bytes, zero: bytes)
    requires zero == [0, 0]
    ensures before + zero + zero == before + HeaderEnd(0, 0)
  {
    Assoc(before, zero, zero);
    assert zero + zero == HeaderEnd(0, 0);
  }

  lemma PatchedFrame(before: bytes, ty: byte, rid: u16, data: bytes, n: nat)
    requires n <= MAX_PAYLOAD
    ensures (var s := before + HeaderBytes(ty, rid, 0, 0) + data + PaddingBytes(n);
             s[..|before| + 4] + HeaderEnd(n, Padding(n)) + s[|before| + 8..])
         == before + Unchecked(ty, rid, Chunk(data, n))
  {
    var a, z, patch := HeaderStart(ty, rid), HeaderEnd(0, 0), HeaderEnd(n, Padding(n));
    Replaced(before, a, z, data + PaddingBytes(n), patch);
    Assoc(before + (a + z), data, PaddingBytes(n));
  }

  lemma PatchedData(m: bytes, eod: nat, at: nat, patch: bytes)
    requires at + |patch| <= eod <= |m|
    ensures Overwrite(m, at, patch)[..eod] == m[..eod][..at] + patch + m[..eod][at + |patch|..]
  {
  }

  lemma Overwritten(m: bytes, eod: nat, a: bytes, b: bytes)
    requires eod <= |m|
    ensures Overwrite(Overwrite(m, eod, a), eod + |a|, b) == Overwrite(m, eod, a + b)
  {
    var x := Overwrite(m, eod, a);
    assert x[..eod + |a|] + b == m[..eod] + (a + b);
    if eod + |a| + |b| < |m| {
      assert x[eod + |a| + |b|..] == m[eod + |a| + |b|..];
    }
  }

  /** After `nread` of `rsz` bytes, `done` is what the pair run has so far. */
  ghost predicate Progress(m: bytes, start: nat, rsz: u16, done: seq<Pair>, nread: nat) {
    var rest := Pairs(AsCoded, m, start + nread, rsz - nread);
    Pairs(AsCoded, m, start, rsz) == PairRun(done + rest.pairs, nread + rest.size)
  }

  lemma ProgressDone(m: bytes, start: nat, rsz: u16, done: seq<Pair>, nread: nat)
    requires rsz <= nread && Progress(m, start, rsz, done, nread)
    ensures Pairs(AsCoded, m, start, rsz) == PairRun(done, nread)
  {
  }

  lemma ProgressStep(m: bytes, start: nat, rsz: u16, done: seq<Pair>, nread: nat)
    requires nread < rsz && Progress(m, start, rsz, done, nread)
    ensures var kvp := Kvp(AsCoded, m, start + nread);
            Progress(m, start, rsz, done + [kvp.pair], nread + kvp.size)
  {
    var kvp := Kvp(AsCoded, m, start + nread);
    var rest := Pairs(AsCoded, m, start + nread + kvp.size, rsz - nread - kvp.size);
    assert done + ([kvp.pair] + rest.pairs) == done + [kvp.pair] + rest.pairs;
  }

  /** The pairs before the `i`-th gave `done` and `ret`; the rest starts behind them. */
  ghost predicate ValuesProgress(values: seq<(bytes, Option<bytes>)>, start: nat, i: nat, done: bytes, ret: int)
    requires i <= |values|
  {
    var rest := RenderValues(values[i..], start + |done|);
    RenderValues(values, start) == Chunk(done + rest.data, ret + rest.ret)
  }

  lemma ValuesStep(values: seq<(bytes, Option<bytes>)>, start: nat, i: nat, done: bytes, ret: int)
    requires i < |values| && ValuesProgress(values, start, i, done, ret)
    ensures var s := if values[i].1.Some? then RenderPair(values[i].0, values[i].1.value) else [];
            ValuesProgress(values, start, i + 1, done + s,
                           ret + if values[i].1.Some? then start + |done| + |s| else 0)
  {
    assert values[i..][0] == values[i] && values[i..][1..] == values[i + 1..];
    if values[i].1.Some? {
      var s := RenderPair(values[i].0, values[i].1.value);
      var rest := RenderValues(values[i + 1..], start + |done| + |s|);
      assert RenderValues(values[i..], start + |done|) == Chunk(s + rest.data, start + |done| + |s| + rest.ret);
      assert done + (s + rest.data) == done + s + rest.data;
    } else {
      assert done + [] == done;
    }
  }
}

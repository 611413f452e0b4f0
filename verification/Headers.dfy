/** The response header table and the packer that spreads it over STDOUT records.
    The table is the sequence of its pairs in iteration order; a lookup finds the
    first pair of a name and an insertion goes last. */
module Headers {
  import opened Bytes
  import opened Wire

  datatype Field = Field(name: bytes, value: Option<bytes>)

  type Table = seq<Field>

  datatype Mode = Plain | IfNotExists | Override

  datatype Code =
    | Ok
    | Completed
    | IoError
    | TooLarge
    | RenderFailed
    | BadState
    | Duplicate

  const BEGIN := 1
  const PARAMS_DONE := 2
  const HEADERS_ALLOWED := 3
  const HEADERS_END := 4

  // -------------------------------------------------------------- multimap

  /** The index of the first pair of a name, or the length. */
  function Find(t: Table, name: bytes): (i: nat)
    ensures i <= |t|
    ensures i < |t| ==> t[i].name == name
    ensures forall j :: 0 <= j < i ==> t[j].name != name
  {
    if t == [] || t[0].name == name then 0
    else
      assert forall j :: 0 < j < |t| ==> t[j] == t[1..][j - 1];
      1 + Find(t[1..], name)
  }

  datatype Added = Added(table: Table, code: Code)

  /** `mnfcgi_request_field_add{f,b,t}`, the value already formatted. */
  function AddField(t: Table, state: int, mode: Mode, name: bytes, value: Option<bytes>): Added {
    if state > HEADERS_ALLOWED then Added(t, BadState)
    else
      var i := Find(t, name);
      if mode == IfNotExists && i < |t| then Added(t, Duplicate)
      else if i < |t| && mode == Override then Added(t[i := Field(name, value)], Ok)
      else Added(t + [Field(name, value)], if i < |t| then Duplicate else Ok)
  }

  /** Position `j` holds the first pair of a name. */
  ghost predicate IsFirst(t: Table, j: nat, name: bytes)
    requires j < |t|
  {
    t[j].name == name && forall k :: 0 <= k < j ==> t[k].name != name
  }

  /** What a field call answers and leaves, by state, mode and presence alone; overriding
      changes the first pair of the name and no other position. */
  lemma AddResult(t: Table, state: int, mode: Mode, name: bytes, value: Option<bytes>)
    ensures var r := AddField(t, state, mode, name, value);
            && (r.code == BadState <==> state > HEADERS_ALLOWED)
            && (r.code == Duplicate <==> state <= HEADERS_ALLOWED && mode != Override && Count(t, name) > 0)
            && (state <= HEADERS_ALLOWED && (Count(t, name) == 0 || mode == Plain) ==>
                  r.table == t + [Field(name, value)])
            && (state > HEADERS_ALLOWED || (mode == IfNotExists && Count(t, name) > 0) ==> r.table == t)
            && (state <= HEADERS_ALLOWED && mode == Override && Count(t, name) > 0 ==>
                  |r.table| == |t| &&
                  forall j :: 0 <= j < |t| ==>
                    r.table[j] == if IsFirst(t, j, name) then Field(name, value) else t[j])
  {
    CountZero(t, name);
  }

  datatype Call = Call(mode: Mode, name: bytes, value: Option<bytes>)

  /** A run of field calls while fields are allowed. */
  function AddAll(t: Table, calls: seq<Call>): Table
    decreases |calls|
  {
    if calls == [] then t
    else AddAll(AddField(t, HEADERS_ALLOWED, calls[0].mode, calls[0].name, calls[0].value).table, calls[1..])
  }

  function Count(t: Table, name: bytes): nat {
    if t == [] then 0 else (if t[0].name == name then 1 else 0) + Count(t[1..], name)
  }

  /** How many pairs the calls on a name leave: the first call inserts, later ones only
      when they are plain. */
  function Multiplicity(calls: seq<Call>, name: bytes, present: nat): nat {
    if calls == [] then present
    else
      var c := calls[0];
      Multiplicity(calls[1..], name,
                   if c.name == name && (present == 0 || c.mode == Plain) then present + 1 else present)
  }

  lemma {:induction false} CountAppend(t: Table, f: Field, name: bytes)
    ensures Count(t + [f], name) == Count(t, name) + if f.name == name then 1 else 0
  {
    if t == [] {
      assert t + [f] == [f];
    } else {
      CountAppend(t[1..], f, name);
      assert (t + [f])[1..] == t[1..] + [f];
    }
  }

  lemma {:induction false} CountUpdate(t: Table, i: nat, f: Field, name: bytes)
    requires i < |t| && t[i].name == f.name
    ensures Count(t[i := f], name) == Count(t, name)
  {
    if i == 0 {
      assert t[0 := f][1..] == t[1..];
    } else {
      CountUpdate(t[1..], i - 1, f, name);
      assert t[i := f][1..] == t[1..][i - 1 := f];
    }
  }

  lemma {:induction false} CountZero(t: Table, name: bytes)
    ensures Count(t, name) == 0 <==> Find(t, name) == |t|
  {
    if t != [] {
      CountZero(t[1..], name);
    }
  }

  /** The table after any run of calls holds each name exactly as often as the calls on
      that name alone say. */
  lemma {:induction false} FieldCount(t: Table, calls: seq<Call>, name: bytes)
    ensures Count(AddAll(t, calls), name) == Multiplicity(calls, name, Count(t, name))
    decreases |calls|
  {
    if calls != [] {
      var c := calls[0];
      var t' := AddField(t, HEADERS_ALLOWED, c.mode, c.name, c.value).table;
      CountZero(t, c.name);
      CountAppend(t, Field(c.name, c.value), name);
      if Find(t, c.name) < |t| {
        CountUpdate(t, Find(t, c.name), Field(c.name, c.value), name);
      }
      FieldCount(t', calls[1..], name);
    }
  }

  /** The values of a name, in order. */
  function ValuesOf(t: Table, name: bytes): seq<Option<bytes>> {
    if t == [] then [] else (if t[0].name == name then [t[0].value] else []) + ValuesOf(t[1..], name)
  }

  /** What the calls on a name make of its values: plain ones append, the others do only if
      there is none, and an overriding one replaces the first. */
  function ValuesAfter(calls: seq<Call>, name: bytes, values: seq<Option<bytes>>): seq<Option<bytes>> {
    if calls == [] then values
    else
      var c := calls[0];
      ValuesAfter(calls[1..], name,
                  if c.name != name then values
                  else if values == [] || c.mode == Plain then values + [c.value]
                  else if c.mode == Override then [c.value] + values[1..]
                  else values)
  }

  lemma {:induction false} ValuesAppend(t: Table, f: Field, name: bytes)
    ensures ValuesOf(t + [f], name) == ValuesOf(t, name) + if f.name == name then [f.value] else []
  {
    if t == [] {
      assert t + [f] == [f];
    } else {
      ValuesAppend(t[1..], f, name);
      assert (t + [f])[1..] == t[1..] + [f];
    }
  }

  lemma {:induction false} ValuesUpdate(t: Table, i: nat, f: Field, name: bytes)
    requires i < |t| && IsFirst(t, i, f.name)
    ensures ValuesOf(t, f.name) != []
    ensures ValuesOf(t[i := f], name)
         == if f.name == name then [f.value] + ValuesOf(t, name)[1..] else ValuesOf(t, name)
  {
    if i == 0 {
      assert t[0 := f][1..] == t[1..];
    } else {
      assert forall k :: 0 <= k < |t| - 1 ==> t[1..][k] == t[k + 1];
      ValuesUpdate(t[1..], i - 1, f, name);
      assert t[i := f][1..] == t[1..][i - 1 := f];
    }
  }

  lemma {:induction false} ValuesNone(t: Table, name: bytes)
    ensures ValuesOf(t, name) == [] <==> Find(t, name) == |t|
  {
    if t != [] {
      ValuesNone(t[1..], name);
    }
  }

  lemma CallValues(t: Table, c: Call, name: bytes)
    ensures ValuesOf(AddField(t, HEADERS_ALLOWED, c.mode, c.name, c.value).table, name)
         == ValuesAfter([c], name, ValuesOf(t, name))
  {
    ValuesNone(t, c.name);
    ValuesAppend(t, Field(c.name, c.value), name);
    if Find(t, c.name) < |t| {
      ValuesUpdate(t, Find(t, c.name), Field(c.name, c.value), name);
    }
    assert [c][1..] == [] && ValuesAfter([c][1..], name, []) == [];
  }

  /** After any run of calls the values of a name are what the calls on that name alone make
      of those it had: nothing said of one header changes another. */
  lemma {:induction false} FieldValues(t: Table, calls: seq<Call>, name: bytes)
    ensures ValuesOf(AddAll(t, calls), name) == ValuesAfter(calls, name, ValuesOf(t, name))
    decreases |calls|
  {
    if calls != [] {
      var c := calls[0];
      CallValues(t, c, name);
      FieldValues(AddField(t, HEADERS_ALLOWED, c.mode, c.name, c.value).table, calls[1..], name);
      assert [c][1..] == [];
    }
  }

  /** A name only ever added with OVERRIDE or IFNOEXISTS occurs at most once; `Status`,
      which `mnfcgi_request_status_set` overrides, is one. */
  lemma {:induction false} NeverPlainOnce(calls: seq<Call>, name: bytes, present: nat)
    requires forall c <- calls :: c.name == name ==> c.mode != Plain
    requires present <= 1
    ensures Multiplicity(calls, name, present) <= 1
    decreases |calls|
  {
    if calls != [] {
      var c := calls[0];
      NeverPlainOnce(calls[1..], name,
                     if c.name == name && (present == 0 || c.mode == Plain) then present + 1 else present);
    }
  }

  /** The value an overriding call set is the one that is found, and no other header has
      another value or another count than before. */
  lemma OverrideFound(t: Table, name: bytes, value: Option<bytes>)
    ensures var t' := AddField(t, HEADERS_ALLOWED, Override, name, value).table;
            && Find(t', name) < |t'| && t'[Find(t', name)].value == value
            && forall other :: other != name ==> ValuesOf(t', other) == ValuesOf(t, other)
  {
    var i := Find(t, name);
    var t' := AddField(t, HEADERS_ALLOWED, Override, name, value).table;
    assert t'[i] == Field(name, value);
    assert forall j :: 0 <= j < i ==> t'[j] == t[j];
    assert Find(t', name) == i;
    forall other | other != name ensures ValuesOf(t', other) == ValuesOf(t, other) {
      if i < |t| {
        ValuesUpdate(t, i, Field(name, value), other);
      } else {
        ValuesAppend(t, Field(name, value), other);
      }
    }
  }

  /** The table with its first pair of a name replaced, or one added. */
  function SetFirst(t: Table, f: Field): Table {
    if t == [] then [f] else if t[0].name == f.name then [f] + t[1..] else [t[0]] + SetFirst(t[1..], f)
  }

  lemma {:induction false} OverrideSets(t: Table, state: int, f: Field)
    requires state <= HEADERS_ALLOWED
    ensures AddField(t, state, Override, f.name, f.value) == Added(SetFirst(t, f), Ok)
  {
    if t != [] && t[0].name != f.name {
      OverrideSets(t[1..], state, f);
      var i := Find(t[1..], f.name);
      if i < |t[1..]| {
        assert t[i + 1 := f] == [t[0]] + t[1..][i := f];
      } else {
        assert t + [f] == [t[0]] + (t[1..] + [f]);
      }
    } else if t != [] {
      assert t[0 := f] == [f] + t[1..];
    }
  }

  lemma {:induction false} SetNew(t: Table, f: Field)
    requires forall j :: 0 <= j < |t| ==> t[j].name != f.name
    ensures SetFirst(t, f) == t + [f]
  {
    if t != [] {
      assert forall j :: 0 <= j < |t| - 1 ==> t[1..][j] == t[j + 1];
      SetNew(t[1..], f);
    }
  }

  // ---------------------------------------------------------------- packer

  const CRLF: bytes := [0x0d, 0x0a]
  /** `sizeof("%s: %s\r\n")`, the terminating NUL included. */
  const FMT_SIZE := 9

  /** What `%s` prints of a byte string: everything before the first NUL. */
  function CString(s: bytes): (r: bytes)
    ensures |r| <= |s|
  {
    if s == [] || s[0] == 0 then [] else [s[0]] + CString(s[1..])
  }

  /** "name: value CRLF", a NULL value printing as nothing. */
  function Line(f: Field): bytes {
    CString(f.name) + [0x3a, 0x20] + (match f.value case None => [] case Some(v) => CString(v)) + CRLF
  }

  /** It ends at the first NUL, or nowhere. */
  lemma {:induction false} CStringEnds(s: bytes)
    ensures var n := |CString(s)|; CString(s) == s[..n] && 0 !in s[..n] && (n < |s| ==> s[n] == 0)
  {
    if s != [] && s[0] != 0 {
      CStringEnds(s[1..]);
      var n := |CString(s[1..])|;
      assert s[..n + 1] == [s[0]] + s[1..][..n];
    }
  }

  lemma CStringWhole(s: bytes)
    ensures CString(s) == s <==> 0 !in s
  {
    CStringEnds(s);
    var n := |CString(s)|;
    if n < |s| {
      assert s[n] in s;
    } else {
      assert s[..n] == s;
    }
  }

  /** Without NUL bytes a line is the header field of section 6.3 of RFC 3875; a NULL value
      prints as nothing. */
  lemma LinePrints(name: bytes, value: bytes)
    requires 0 !in name && 0 !in value
    ensures Line(Field(name, Some(value))) == name + [0x3a, 0x20] + value + [0x0d, 0x0a]
    ensures Line(Field(name, None)) == name + [0x3a, 0x20, 0x0d, 0x0a]
  {
    CStringWhole(name);
    CStringWhole(value);
    assert [0x3a, 0x20] + [] + [0x0d, 0x0a] == [0x3a, 0x20, 0x0d, 0x0a];
  }

  /** The size the packer reckons with; `BSZ` counts the NUL behind a byte string. */
  function Estimate(f: Field): nat {
    |f.name| + 1 + FMT_SIZE + match f.value case None => 0 case Some(v) => |v| + 1
  }

  predicate TooLong(f: Field) {
    Estimate(f) >= MAX_PAYLOAD
  }

  datatype Packed = Packed(chunk: bytes, rest: Table)

  /** One STDOUT payload: too long headers are dropped, the others printed until the
      next one might not fit any more. */
  function Pack(t: Table, nwritten: nat): (r: Packed) {
    if t == [] then Packed([], [])
    else if TooLong(t[0]) then Pack(t[1..], nwritten)
    else if nwritten + Estimate(t[0]) < MAX_PAYLOAD then
      var more := Pack(t[1..], nwritten + |Line(t[0])|);
      Packed(Line(t[0]) + more.chunk, more.rest)
    else Packed([], t)
  }

  /** The headers that are sent, in order: those whose name and value, with nine bytes for
      the format and one for the NUL behind each, stay below 0x8000. */
  function Sendable(t: Table): Table {
    if t == [] then []
    else
      (if |t[0].name| + (match t[0].value case None => 10 case Some(v) => |v| + 11) < 0x8000 then [t[0]] else [])
      + Sendable(t[1..])
  }

  /** The header block of section 6.3 of RFC 3875 without any record boundaries. */
  function Lines(t: Table): bytes {
    if t == [] then [] else Line(t[0]) + Lines(t[1..])
  }

  /** What one field adds to the block that is sent. */
  lemma {:induction false} SendableFirst(t: Table)
    requires t != []
    ensures Lines(Sendable(t)) == (if TooLong(t[0]) then [] else Line(t[0])) + Lines(Sendable(t[1..]))
    ensures Sendable(t) == (if TooLong(t[0]) then [] else [t[0]]) + Sendable(t[1..])
  {
    hide Line;
    if !TooLong(t[0]) {
      assert Sendable(t) == [t[0]] + Sendable(t[1..]);
      assert Sendable(t)[1..] == Sendable(t[1..]);
    } else {
      assert Sendable(t) == [] + Sendable(t[1..]) == Sendable(t[1..]);
      assert [] + Lines(Sendable(t)) == Lines(Sendable(t));
    }
  }

  /** The estimate always exceeds the bytes printed. */
  lemma EstimateExceeds(f: Field)
    ensures |Line(f)| < Estimate(f)
  {
  }

  /** What a payload takes off the table is what the block says. */
  lemma {:induction false} PackBlock(t: Table, nwritten: nat)
    ensures Pack(t, nwritten).chunk + Lines(Sendable(Pack(t, nwritten).rest)) == Lines(Sendable(t))
    decreases |t|
  {
    hide Lines, Sendable, Line, Estimate, TooLong;
    if t != [] {
      SendableFirst(t);
      if TooLong(t[0]) {
        PackBlock(t[1..], nwritten);
      } else if nwritten + Estimate(t[0]) < MAX_PAYLOAD {
        var line := Line(t[0]);
        PackBlock(t[1..], nwritten + |line|);
        var more := Pack(t[1..], nwritten + |line|);
        assert line + more.chunk + Lines(Sendable(more.rest)) == line + (more.chunk + Lines(Sendable(more.rest)));
      }
    }
  }

  /** The payload stays below the bound, and the packer stops only in front of a header that
      might not fit any more, but will next time. */
  lemma {:induction false} PackTakes(t: Table, nwritten: nat)
    requires nwritten < MAX_PAYLOAD
    ensures nwritten + |Pack(t, nwritten).chunk| < MAX_PAYLOAD
    ensures |Pack(t, nwritten).rest| <= |t|
    ensures var r := Pack(t, nwritten);
            r.rest != [] ==>
              var size := |r.rest[0].name| + match r.rest[0].value case None => 10 case Some(v) => |v| + 11;
              size < 0x8000 <= nwritten + |r.chunk| + size
    decreases |t|
  {
    if t == [] {
    } else if TooLong(t[0]) {
      PackTakes(t[1..], nwritten);
    } else if nwritten + Estimate(t[0]) < MAX_PAYLOAD {
      EstimateExceeds(t[0]);
      PackTakes(t[1..], nwritten + |Line(t[0])|);
    }
  }

  /** Every payload takes at least one header off the table. */
  lemma PackShrinks(t: Table)
    requires t != []
    ensures |Pack(t, 0).rest| < |t|
  {
    if TooLong(t[0]) {
      PackTakes(t[1..], 0);
    } else {
      EstimateExceeds(t[0]);
      PackTakes(t[1..], |Line(t[0])|);
    }
  }

  /** The payloads `mnfcgi_request_headers_end` emits for a table. */
  function PackAll(t: Table): seq<bytes>
    decreases |t|
  {
    if t == [] then []
    else
      PackShrinks(t);
      [Pack(t, 0).chunk] + PackAll(Pack(t, 0).rest)
  }

  /** Chunked headers refine the block: whatever the record boundaries, the payloads
      concatenate to the lines of exactly the headers below the bound, in order, and each
      stays below it. */
  lemma {:induction false} PackedBlock(t: Table)
    ensures Flatten(PackAll(t)) == Lines(Sendable(t))
    ensures forall c <- PackAll(t) :: |c| < 0x8000
    decreases |t|
  {
    if t != [] {
      PackShrinks(t);
      PackTakes(t, 0);
      PackBlock(t, 0);
      PackedBlock(Pack(t, 0).rest);
      assert PackAll(t)[1..] == PackAll(Pack(t, 0).rest);
    }
  }

  lemma {:induction false} PackEmpty(t: Table)
    ensures Pack(t, 0).chunk == [] <==> Sendable(t) == []
    decreases |t|
  {
    if t != [] {
      SendableFirst(t);
      if TooLong(t[0]) {
        PackEmpty(t[1..]);
      }
    }
  }

  /** An empty payload would close the STDOUT stream early (section 3.3 of the FastCGI
      Specification). The packer emits one exactly if the table is not empty and holds
      nothing but too long headers. */
  lemma EarlyCloseIff(t: Table)
    ensures [] in PackAll(t) <==> t != [] && Sendable(t) == []
  {
    if t != [] {
      PackShrinks(t);
      PackTakes(t, 0);
      PackEmpty(t);
      LaterNonempty(Pack(t, 0).rest);
      if Sendable(t) == [] {
        AllDropped(t);
      }
    }
  }

  lemma {:induction false} AllDropped(t: Table)
    requires Sendable(t) == []
    ensures Pack(t, 0).rest == []
    decreases |t|
  {
    if t != [] {
      SendableFirst(t);
      AllDropped(t[1..]);
    }
  }

  lemma {:induction false} LaterNonempty(t: Table)
    requires t != [] ==> !TooLong(t[0])
    ensures [] !in PackAll(t)
    decreases |t|
  {
    if t != [] {
      PackShrinks(t);
      PackTakes(t, 0);
      PackEmpty(t);
      SendableFirst(t);
      LaterNonempty(Pack(t, 0).rest);
    }
  }
}

/** What every callback keeps, whatever API calls it makes: the shared output is
    conserved, the request's own output obeys the response grammar, and the request's
    fate does not depend on what else is in the shared buffer. */
module RequestProofs {
  import opened Bytes
  import opened Wire
  import opened Headers
  import opened Engine

  // ------------------------------------------------------------ conservation

  function LogBytes(log: seq<Entry>): bytes {
    if log == [] then []
    else LogBytes(log[..|log| - 1]) + log[|log| - 1].bytes
  }

  /** The bytes on the wire followed by the unsent ones are every record rendered so far,
      complete or torn, and unsent bytes are never dropped unless a write has failed. */
  ghost predicate Conserved(o: Out) {
    && (!o.lost ==> o.delivered + o.unsent == LogBytes(o.log))
    && (o.lost ==> o.failed)
  }

  /** A complete request leaves nothing unsent, so its rewinds drop nothing. */
  ghost predicate Quiet(o: Out, q: Req) {
    q.complete ==> o.unsent == []
  }

  lemma PushConserves(o: Out, e: Entry)
    requires Conserved(o)
    ensures Conserved(Push(o, e))
  {
    var log := o.log + [e];
    assert log[..|log| - 1] == o.log;
    assert o.delivered + (o.unsent + e.bytes) == o.delivered + o.unsent + e.bytes;
  }

  lemma FlushConserves(link: Link, o: Out)
    requires Conserved(o)
    ensures Conserved(Flush(link, o)) && Conserved(Rewind(Flush(link, o)))
    ensures !Flush(link, o).failed ==> Flush(link, o).unsent == []
  {
    assert o.delivered + o.unsent + [] == o.delivered + o.unsent;
    if o.failed && !o.lost && link(o.writes) {
      assert Flush(link, o).unsent == [];
    }
  }

  // ----------------------------------------------------------------- grammar

  ghost predicate AllStdout(sent: seq<OutRecord>, rid: u16) {
    forall k :: 0 <= k < |sent| ==> sent[k].StdoutOut? && sent[k].rid == rid
  }

  /** Sections 5.3 and 5.5 of the FastCGI Specification: STDOUT records while the request
      is open; then, after an empty STDOUT if it was finalized, one END_REQUEST and
      nothing more. */
  ghost predicate Grammatical(q: Req) {
    var n := |q.sent|;
    if !q.complete then !q.finalized && AllStdout(q.sent, q.begin.rid)
    else
      && n > 0 && AllStdout(q.sent[..n - 1], q.begin.rid)
      && q.sent[n - 1].EndOut? && q.sent[n - 1].rid == q.begin.rid
      && q.sent[n - 1].protoStatus == REQUEST_COMPLETE
      && (q.finalized ==> n > 1 && q.sent[n - 2] == EmptyStdout(q) && q.sent[n - 1].appStatus == 0)
  }

  // ------------------------------------------------------- what one call does

  function OwnEntries(sent: seq<OutRecord>): seq<Entry> {
    seq(|sent|, (i: nat) requires i < |sent| => EntryOf(true, sent[i]))
  }

  /** The log grows by exactly the records the request put out, and the request keeps
      its identity and its queues; once complete it puts out nothing. */
  ghost predicate Owns(o: Out, q: Req, o': Out, q': Req) {
    && q'.begin == q.begin && q'.params == q.params && q'.stdin == q.stdin && q'.data == q.data
    && q.sent <= q'.sent
    && o'.log == o.log + OwnEntries(q'.sent[|q.sent|..])
    && (q.complete ==> q'.complete && q'.sent == q.sent && q'.finalized == q.finalized)
  }

  lemma OwnsTransitive(o: Out, q: Req, o1: Out, q1: Req, o2: Out, q2: Req)
    requires Owns(o, q, o1, q1) && Owns(o1, q1, o2, q2)
    ensures Owns(o, q, o2, q2)
  {
    var a, b := q1.sent[|q.sent|..], q2.sent[|q1.sent|..];
    assert q2.sent[|q.sent|..] == a + b;
    assert OwnEntries(a + b) == OwnEntries(a) + OwnEntries(b);
  }

  /** Everything a call or a callback preserves. */
  ghost predicate Keeps(o: Out, q: Req, o': Out, q': Req) {
    && Owns(o, q, o', q')
    && (Conserved(o) && Quiet(o, q) ==> Conserved(o') && Quiet(o', q'))
    && (Grammatical(q) ==> Grammatical(q'))
    && (o.failed ==> o'.failed)
    && o.writes <= o'.writes && o.inRewinds <= o'.inRewinds
  }

  lemma KeepsTransitive(o: Out, q: Req, o1: Out, q1: Req, o2: Out, q2: Req)
    requires Keeps(o, q, o1, q1) && Keeps(o1, q1, o2, q2)
    ensures Keeps(o, q, o2, q2)
  {
    OwnsTransitive(o, q, o1, q1, o2, q2);
  }

  lemma PutOwnKeeps(o: Out, q: Req, chunk: Chunk)
    requires !q.complete
    ensures var r := PutOwn(o, q, StdoutOut(q.begin.rid, chunk)); Keeps(o, q, r.out, r.req)
  {
    var rec := StdoutOut(q.begin.rid, chunk);
    assert (q.sent + [rec])[|q.sent|..] == [rec];
    assert OwnEntries([rec]) == [EntryOf(true, rec)];
    if Conserved(o) {
      PushConserves(o, EntryOf(true, rec));
    }
  }

  lemma {:induction false} PutPiecesKeeps(o: Out, q: Req, payloads: seq<bytes>)
    requires !q.complete
    ensures var r := PutPieces(o, q, payloads);
            Keeps(o, q, r.out, r.req) && !r.req.complete && r.req.headers == q.headers && r.req.state == q.state
    decreases |payloads|
  {
    if payloads == [] {
      OwnsSelf(o, q);
    } else {
      var c := Chunk(payloads[0], |payloads[0]|);
      var a := PutOwn(o, q, StdoutOut(q.begin.rid, c));
      PutOwnKeeps(o, q, c);
      PutPiecesKeeps(a.out, a.req, payloads[1..]);
      var r := PutPieces(a.out, a.req, payloads[1..]);
      KeepsTransitive(o, q, a.out, a.req, r.out, r.req);
    }
  }

  lemma OwnsSelf(o: Out, q: Req)
    ensures Owns(o, q, o, q)
  {
    assert q.sent[|q.sent|..] == [] && OwnEntries([]) == [];
  }

  lemma CloseOwns(link: Link, o: Out, q: Req, status: u32, finalized: bool)
    requires !q.complete
    ensures var r := Close(link, o, q, status, finalized); Owns(o, q, r.out, r.req)
  {
    var rec := EndOut(q.begin.rid, REQUEST_COMPLETE, status);
    assert (q.sent + [rec])[|q.sent|..] == [rec];
    assert OwnEntries([rec]) == [EntryOf(true, rec)];
  }

  lemma CloseConserves(link: Link, o: Out, q: Req, status: u32, finalized: bool)
    requires Conserved(o)
    ensures Conserved(Close(link, o, q, status, finalized).out)
  {
    var e := EntryOf(true, EndOut(q.begin.rid, REQUEST_COMPLETE, status));
    PushConserves(o, e);
    FlushConserves(link, Push(o, e));
  }

  lemma CloseGrammatical(link: Link, o: Out, q: Req, status: u32, finalized: bool)
    requires !q.complete && Grammatical(q)
    requires finalized ==> q.sent != [] && q.sent[|q.sent| - 1] == EmptyStdout(q) && status == 0
    ensures Grammatical(Close(link, o, q, status, finalized).req)
  {
    var sent := Close(link, o, q, status, finalized).req.sent;
    assert sent[..|sent| - 1] == q.sent;
  }

  /** Ending a request: an END_REQUEST behind STDOUT records, a flush, a rewind. */
  lemma AbortKeeps(link: Link, o: Out, q: Req, status: u32)
    ensures var r := Abort(link, o, q, status); Keeps(o, q, r.out, r.req) && r.req.complete && r.out.unsent == []
  {
    if q.complete {
      OwnsSelf(o, q);
    } else {
      CloseOwns(link, o, q, status, false);
      if Conserved(o) {
        CloseConserves(link, o, q, status, false);
      }
      if Grammatical(q) {
        CloseGrammatical(link, o, q, status, false);
      }
    }
  }

  lemma FinalizeKeeps(link: Link, o: Out, q: Req)
    ensures var r := Finalize(link, o, q); Keeps(o, q, r.out, r.req) && r.req.complete && r.out.unsent == []
  {
    if q.complete {
      OwnsSelf(o, q);
    } else {
      var a := PutOwn(o, q, EmptyStdout(q));
      PutOwnKeeps(o, q, Chunk([], 0));
      CloseOwns(link, a.out, a.req, 0, true);
      var r := Finalize(link, o, q);
      OwnsTransitive(o, q, a.out, a.req, r.out, r.req);
      if Conserved(o) {
        CloseConserves(link, a.out, a.req, 0, true);
      }
      if Grammatical(q) {
        CloseGrammatical(link, a.out, a.req, 0, true);
      }
    }
  }

  lemma EndHeadersKeeps(o: Out, q: Req)
    ensures var r := EndHeaders(o, q); Keeps(o, q, r.out, r.req)
  {
    OwnsSelf(o, q);
    if q.state <= HEADERS_ALLOWED && !q.complete {
      PutPiecesKeeps(o, q.(headers := []), PackAll(q.headers) + [CRLF]);
    }
  }

  /** Every API call keeps all of it. */
  lemma DoKeeps(link: Link, o: Out, q: Req, op: Op)
    ensures var r := Do(link, o, q, op); Keeps(o, q, r.out, r.req)
  {
    hide EndHeaders, Finalize, AddField;
    OwnsSelf(o, q);
    match op
    case RenderStdoutOp(piece) =>
      if !q.complete {
        PutOwnKeeps(o, q, piece.AsChunk());
      }
    case FlushOutOp =>
      if Conserved(o) {
        FlushConserves(link, o);
      }
    case FinalizeOp => FinalizeKeeps(link, o, q);
    case HeadersEndOp => EndHeadersKeeps(o, q);
    case _ =>
  }

  /** And so does every callback, whatever it does. */
  lemma {:induction false} RunKeeps(link: Link, o: Out, q: Req, p: Prog)
    ensures var r := Run(link, o, q, p); Keeps(o, q, r.out, r.req)
    decreases p
  {
    match p
    case Return(_) => OwnsSelf(o, q);
    case Step(op, _, _, _, _, _, _, _) =>
      var a := Do(link, o, q, op);
      DoKeeps(link, o, q, op);
      RunKeeps(link, a.out, a.req, p.Next(a.code));
      var r := Run(link, o, q, p);
      KeepsTransitive(o, q, a.out, a.req, r.out, r.req);
  }

  /** On a complete request no callback puts out, sends or drops a byte. */
  lemma {:induction false} CompleteIsSilent(link: Link, o: Out, q: Req, p: Prog)
    requires q.complete && o.unsent == []
    ensures OnlyRewound(o, Run(link, o, q, p).out)
    decreases p
  {
    match p
    case Return(_) =>
    case Step(op, _, _, _, _, _, _, _) =>
      var a := Do(link, o, q, op);
      CompleteIsSilent(link, a.out, a.req, p.Next(a.code));
  }

  // ------------------------------------------------------------ independence

  ghost predicate AllWritesSucceed(link: Link) {
    forall n: nat :: link(n)
  }

  /** While writes succeed a callback cannot tell what else is in the shared buffer. */
  lemma {:induction false} RunIndependent(link: Link, o1: Out, o2: Out, q: Req, p: Prog)
    requires AllWritesSucceed(link)
    ensures Run(link, o1, q, p).req == Run(link, o2, q, p).req
    ensures Run(link, o1, q, p).rc == Run(link, o2, q, p).rc
    decreases p
  {
    match p
    case Return(_) =>
    case Step(op, _, _, _, _, _, _, _) =>
      DoIndependent(link, o1, o2, q, op);
      var a1, a2 := Do(link, o1, q, op), Do(link, o2, q, op);
      RunIndependent(link, a1.out, a2.out, a1.req, p.Next(a1.code));
  }

  lemma DoIndependent(link: Link, o1: Out, o2: Out, q: Req, op: Op)
    requires AllWritesSucceed(link)
    ensures Do(link, o1, q, op).req == Do(link, o2, q, op).req
    ensures Do(link, o1, q, op).code == Do(link, o2, q, op).code
  {
    if op.HeadersEndOp? {
      PiecesIndependent(o1, o2, q.(headers := []), PackAll(q.headers) + [CRLF]);
    }
  }

  lemma {:induction false} PiecesIndependent(o1: Out, o2: Out, q: Req, payloads: seq<bytes>)
    ensures PutPieces(o1, q, payloads).req == PutPieces(o2, q, payloads).req
    decreases |payloads|
  {
    if payloads != [] {
      var rec := StdoutOut(q.begin.rid, Chunk(payloads[0], |payloads[0]|));
      PiecesIndependent(PutOwn(o1, q, rec).out, PutOwn(o2, q, rec).out, PutOwn(o1, q, rec).req, payloads[1..]);
    }
  }
}

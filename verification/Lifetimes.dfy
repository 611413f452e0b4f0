/** Who keeps the shared configuration alive: application owners and connection handlers
    count references on it, and whoever drops the last one frees it. */
module Lifetimes {
  /** The two counters of a configuration. `finalized` and `freed`, how often the
      application finalizer and `free` ran on it, are history. */
  datatype Counters = Counters(nref: int, nthreads: int, finalized: nat, freed: nat)

  function Incref(c: Counters): Counters { c.(nref := c.nref + 1) }

  /** `mnfcgi_app_destroy`: the last owner finalizes the application and frees it. */
  function AppDestroy(c: Counters): Counters {
    if c.nref - 1 <= 0 then c.(nref := c.nref - 1, finalized := c.finalized + 1, freed := c.freed + 1)
    else c.(nref := c.nref - 1)
  }

  /** `MNFCGI_CONFIG_DECREF`: the last connection frees it without the finalizer. */
  function Decref(c: Counters): Counters {
    if c.nref - 1 <= 0 then c.(nref := c.nref - 1, freed := c.freed + 1)
    else c.(nref := c.nref - 1)
  }

  function CountIn(c: Counters): Counters { c.(nthreads := c.nthreads + 1) }
  function CountOut(c: Counters): Counters { c.(nthreads := c.nthreads - 1) }

  // ------------------------------------------------------------ interleavings

  /** Where a connection handler is in `mnfcgi_handle_socket`. */
  datatype Phase = Counted | Serving | Leaving

  /** The configuration, its outstanding owner references, its running handlers, and
      whether anything touched it after it was freed. */
  datatype World = World(counters: Counters, owners: nat, handlers: map<nat, Phase>, misused: bool)

  datatype Move =
    | OwnerIncref
    | OwnerDestroy
    | Start(handler: nat)
    | Init(handler: nat)
    | Finish(handler: nat)
    | Fini(handler: nat)

  /** An owner call needs an owner reference; a handler's moves come in order. */
  predicate Enabled(w: World, m: Move) {
    match m
    case OwnerIncref => w.owners > 0
    case OwnerDestroy => w.owners > 0
    case Start(h) => h !in w.handlers
    case Init(h) => h in w.handlers && w.handlers[h] == Counted
    case Finish(h) => h in w.handlers && w.handlers[h] == Serving
    case Fini(h) => h in w.handlers && w.handlers[h] == Leaving
  }

  function Moved(w: World, m: Move): World
    requires Enabled(w, m)
  {
    var w' := w.(misused := w.misused || w.counters.freed > 0);
    match m
    case OwnerIncref => w'.(counters := Incref(w.counters), owners := w.owners + 1)
    case OwnerDestroy => w'.(counters := AppDestroy(w.counters), owners := w.owners - 1)
    case Start(h) => w'.(counters := CountIn(w.counters), handlers := w.handlers[h := Counted])
    case Init(h) => w'.(counters := Incref(w.counters), handlers := w.handlers[h := Serving])
    case Finish(h) => w'.(counters := CountOut(w.counters), handlers := w.handlers[h := Leaving])
    case Fini(h) => w'.(counters := Decref(w.counters), handlers := w.handlers - {h})
  }

  ghost predicate AllEnabled(w: World, moves: seq<Move>)
    decreases |moves|
  {
    moves != [] ==> Enabled(w, moves[0]) && AllEnabled(Moved(w, moves[0]), moves[1..])
  }

  ghost function MovedAll(w: World, moves: seq<Move>): World
    requires AllEnabled(w, moves)
    decreases |moves|
  {
    if moves == [] then w else MovedAll(Moved(w, moves[0]), moves[1..])
  }

  /** What `mnfcgi_app_new` returns when its callback succeeds. */
  const NEW: World := World(Counters(1, 0, 0, 0), 1, map[], false)

  /** Handlers that hold a reference, and handlers that are counted. */
  function Attached(handlers: map<nat, Phase>): set<nat> {
    set h <- handlers | handlers[h] != Counted
  }

  function Running(handlers: map<nat, Phase>): set<nat> {
    set h <- handlers | handlers[h] != Leaving
  }

  /** `nref` is the outstanding owner references plus the initialised connections, and
      `nthreads` the handlers between its two updates. */
  ghost predicate Balanced(w: World) {
    && w.counters.nref == w.owners + |Attached(w.handlers)|
    && w.counters.nthreads == |Running(w.handlers)|
  }

  /** Nothing holds the configuration any more. */
  ghost predicate Released(w: World) {
    w.owners == 0 && Attached(w.handlers) == {}
  }

  /** What a handler's moves do to the two sets. */
  lemma Starts(hs: map<nat, Phase>, h: nat)
    requires h !in hs
    ensures |Attached(hs[h := Counted])| == |Attached(hs)| && |Running(hs[h := Counted])| == |Running(hs)| + 1
  {
    var hs' := hs[h := Counted];
    assert forall x :: x in hs' <==> x in hs || x == h;
    assert Attached(hs') == Attached(hs);
    assert Running(hs') == Running(hs) + {h};
  }

  lemma Inits(hs: map<nat, Phase>, h: nat)
    requires h in hs && hs[h] == Counted
    ensures |Attached(hs[h := Serving])| == |Attached(hs)| + 1 && |Running(hs[h := Serving])| == |Running(hs)|
  {
    assert Attached(hs[h := Serving]) == Attached(hs) + {h};
    assert Running(hs[h := Serving]) == Running(hs);
  }

  lemma Finishes(hs: map<nat, Phase>, h: nat)
    requires h in hs && hs[h] == Serving
    ensures |Attached(hs[h := Leaving])| == |Attached(hs)| && |Running(hs[h := Leaving])| == |Running(hs)| - 1
  {
    assert Attached(hs[h := Leaving]) == Attached(hs);
    assert Running(hs[h := Leaving]) == Running(hs) - {h};
  }

  lemma Ends(hs: map<nat, Phase>, h: nat)
    requires h in hs && hs[h] == Leaving
    ensures |Attached(hs - {h})| == |Attached(hs)| - 1 && |Running(hs - {h})| == |Running(hs)|
  {
    assert Attached(hs - {h}) == Attached(hs) - {h};
    assert Running(hs - {h}) == Running(hs);
  }

  /** A member keeps a set from being empty. */
  lemma HoldsOne(s: set<nat>, h: nat)
    requires h in s
    ensures |s| > 0
  {
  }

  lemma MoveBalances(w: World, m: Move)
    requires Enabled(w, m) && Balanced(w)
    ensures Balanced(Moved(w, m))
  {
    match m
    case OwnerIncref =>
    case OwnerDestroy =>
    case Start(h) => Starts(w.handlers, h);
    case Init(h) => Inits(w.handlers, h);
    case Finish(h) =>
      Finishes(w.handlers, h);
      HoldsOne(Attached(w.handlers), h);
    case Fini(h) =>
      Ends(w.handlers, h);
      HoldsOne(Attached(w.handlers), h);
  }

  /** Over every interleaving, whatever was freed before. */
  lemma {:induction false} RunBalances(w: World, moves: seq<Move>)
    requires AllEnabled(w, moves) && Balanced(w)
    ensures Balanced(MovedAll(w, moves))
    decreases |moves|
  {
    if moves != [] {
      MoveBalances(w, moves[0]);
      RunBalances(Moved(w, moves[0]), moves[1..]);
    }
  }

  lemma NewBalanced()
    ensures Balanced(NEW) && !Released(NEW)
  {
    assert Attached(map[]) == {} && Running(map[]) == {};
  }

  // -------------------------------------------------------------- when it is freed

  lemma ReleasedIff(w: World)
    requires Balanced(w)
    ensures Released(w) <==> w.counters.nref == 0
  {
    if Attached(w.handlers) != {} {
      var h :| h in Attached(w.handlers);
      HoldsOne(Attached(w.handlers), h);
    }
  }

  /** A move frees the configuration exactly if it drops the last reference. */
  lemma MoveFrees(w: World, m: Move)
    requires Enabled(w, m) && Balanced(w)
    ensures var w' := Moved(w, m);
            w'.counters.freed == w.counters.freed + if !Released(w) && Released(w') then 1 else 0
  {
    MoveBalances(w, m);
    ReleasedIff(w);
    ReleasedIff(Moved(w, m));
  }

  /** How often a connection takes its reference when nothing holds the configuration. */
  ghost function LateInits(w: World, moves: seq<Move>): nat
    requires AllEnabled(w, moves)
    decreases |moves|
  {
    if moves == [] then 0
    else (if Released(w) && moves[0].Init? then 1 else 0) + LateInits(Moved(w, moves[0]), moves[1..])
  }

  function AsOne(b: bool): nat {
    if b then 1 else 0
  }

  lemma {:induction false} RunFrees(w: World, moves: seq<Move>)
    requires AllEnabled(w, moves) && Balanced(w)
    ensures var w' := MovedAll(w, moves);
            w'.counters.freed + AsOne(Released(w))
            == w.counters.freed + LateInits(w, moves) + AsOne(Released(w'))
    decreases |moves|
  {
    if moves != [] {
      MoveBalances(w, moves[0]);
      MoveFrees(w, moves[0]);
      if Released(w) {
        OnlyInitsHold(w, moves[0]);
      }
      RunFrees(Moved(w, moves[0]), moves[1..]);
    }
  }

  /** Once released, only a connection that takes its reference makes it held again. */
  lemma OnlyInitsHold(w: World, m: Move)
    requires Enabled(w, m) && Balanced(w) && Released(w)
    ensures m.Start? || m.Init?
    ensures !Released(Moved(w, m)) <==> m.Init?
  {
    assert forall h :: h in w.handlers && w.handlers[h] != Counted ==> h in Attached(w.handlers);
    if m.Init? {
      assert m.handler in Attached(w.handlers[m.handler := Serving]);
    } else if m.Start? {
      assert Attached(w.handlers[m.handler := Counted]) == Attached(w.handlers);
    }
  }

  /** Over every interleaving since `mnfcgi_app_new` the configuration has been freed once for
      the references that are all gone, if they are, and once for every connection that took
      its reference after they were. */
  lemma FreedExactly(moves: seq<Move>)
    requires AllEnabled(NEW, moves)
    ensures MovedAll(NEW, moves).counters.freed == LateInits(NEW, moves) + AsOne(Released(MovedAll(NEW, moves)))
  {
    NewBalanced();
    RunFrees(NEW, moves);
  }

  /** It is freed exactly once when nothing holds it any more and never before, if and only if
      no connection takes its reference after that; else it is freed while that one holds it. */
  lemma FreedOnceIff(moves: seq<Move>)
    requires AllEnabled(NEW, moves)
    ensures var w := MovedAll(NEW, moves);
            && (w.counters.freed == AsOne(Released(w)) <==> LateInits(NEW, moves) == 0)
            && (LateInits(NEW, moves) > 0 ==> w.counters.freed >= 1 + AsOne(Released(w)))
  {
    FreedExactly(moves);
  }

  /** Who holds a reference, owner or initialised connection, does not find the configuration
      freed, over every interleaving in which no connection takes its reference too late. */
  lemma NeverFreedWhileHeld(moves: seq<Move>, h: nat)
    requires AllEnabled(NEW, moves)
    ensures var w := MovedAll(NEW, moves);
            w.owners > 0 || h in Attached(w.handlers) ==> (w.counters.freed == 0 <==> LateInits(NEW, moves) == 0)
  {
    FreedExactly(moves);
  }

  /** A handler is spawned, the owner leaves, and then the handler takes its reference: it
      holds a configuration that has been freed. */
  lemma FreedWhileHeld()
    ensures var moves := [Start(0), OwnerDestroy, Init(0)];
            AllEnabled(NEW, moves)
            && var w := MovedAll(NEW, moves);
               Attached(w.handlers) == {0} && w.counters.freed == 1 && LateInits(NEW, moves) == 1
  {
  }

  /** Freeing goes with the application finalizer exactly if an owner, not a connection,
      drops the last reference; a connection that does so leaves it out for good. */
  lemma FinalizedIff(w: World, m: Move)
    requires Enabled(w, m) && Balanced(w)
    ensures var c, c' := w.counters, Moved(w, m).counters;
            && (c'.freed == c.freed + 1 <==>
                  (m.OwnerDestroy? && w.owners == 1 && Attached(w.handlers) == {})
                  || (m.Fini? && w.owners == 0 && Attached(w.handlers) == {m.handler}))
            && (c'.finalized == c.finalized + 1 <==> c'.freed == c.freed + 1 && m.OwnerDestroy?)
  {
    if m.Fini? {
      Ends(w.handlers, m.handler);
      HoldsOne(Attached(w.handlers), m.handler);
      if Attached(w.handlers) != {m.handler} {
        var other :| other in Attached(w.handlers) && other != m.handler;
        HoldsOne(Attached(w.handlers) - {m.handler}, other);
      }
    } else if Attached(w.handlers) != {} {
      var h :| h in Attached(w.handlers);
      HoldsOne(Attached(w.handlers), h);
    }
  }

  /** The owner leaves while a connection is served: the connection frees the configuration,
      and the application finalizer never runs. */
  lemma FreedUnfinalized()
    ensures var moves := [Start(0), Init(0), OwnerDestroy, Finish(0), Fini(0)];
            AllEnabled(NEW, moves)
            && var w := MovedAll(NEW, moves); Released(w) && w.counters.freed == 1 && w.counters.finalized == 0
  {
    var last := [OwnerDestroy, Finish(0), Fini(0)];
    assert [Start(0), Init(0), OwnerDestroy, Finish(0), Fini(0)][1..][1..] == last;
    assert last[1..] == [Finish(0), Fini(0)] && last[1..][1..] == [Fini(0)] && [Fini(0)][1..] == [];
  }

  // -------------------------------------------------------------- when it is touched

  /** Freed exactly if released: so it is until a connection takes its reference too late. */
  ghost predicate Settled(w: World) {
    Balanced(w) && (w.counters.freed > 0 <==> Released(w))
  }

  /** The one misuse the counting leaves open: a handler that starts, or takes its
      reference, after the configuration was freed. Every other move is safe. */
  lemma MisuseIff(w: World, m: Move)
    requires Enabled(w, m) && Settled(w) && !w.misused
    ensures Moved(w, m).misused <==> w.counters.freed > 0 && (m.Start? || m.Init?)
  {
    if Released(w) {
      OnlyInitsHold(w, m);
    }
  }

  /** Some move of an interleaving starts a handler, or lets one take its reference, after
      the last owner reference and the last initialised connection are gone. */
  ghost predicate Late(w: World, moves: seq<Move>)
    requires AllEnabled(w, moves)
    decreases |moves|
  {
    moves != [] &&
      ((Released(w) && (moves[0].Start? || moves[0].Init?)) || Late(Moved(w, moves[0]), moves[1..]))
  }

  lemma {:induction false} MisuseStays(w: World, moves: seq<Move>)
    requires AllEnabled(w, moves) && w.misused
    ensures MovedAll(w, moves).misused
    decreases |moves|
  {
    if moves != [] {
      MisuseStays(Moved(w, moves[0]), moves[1..]);
    }
  }

  /** Over every interleaving: the configuration is touched after it was freed if and only if
      a handler starts or takes its reference once nothing holds it. */
  lemma {:induction false} RunMisuseIff(w: World, moves: seq<Move>)
    requires AllEnabled(w, moves) && Settled(w) && !w.misused
    ensures MovedAll(w, moves).misused <==> Late(w, moves)
    decreases |moves|
  {
    if moves != [] {
      MisuseIff(w, moves[0]);
      MoveBalances(w, moves[0]);
      MoveFrees(w, moves[0]);
      if Moved(w, moves[0]).misused {
        MisuseStays(Moved(w, moves[0]), moves[1..]);
      } else {
        RunMisuseIff(Moved(w, moves[0]), moves[1..]);
      }
    }
  }

  // ------------------------------------------------------------------- objects

  /** An application with the configuration embedded in it, as the threads share it. Each
      method is one move of an interleaving; the ghost fields say who holds a reference. */
  class Shared {
    var nref: int
    var nthreads: int
    /** History: how often the finalizer and `free` ran on it. */
    var finalized: nat
    var freed: nat
    ghost var owners: nat
    ghost var handlers: map<nat, Phase>
    ghost var misused: bool

    ghost function View(): World
      reads this
    {
      World(Counters(nref, nthreads, finalized, freed), owners, handlers, misused)
    }

    /** The counters are what the references outstanding say. */
    ghost predicate Valid()
      reads this
    {
      Balanced(View())
    }

    /** `mnfcgi_app_new`; a failing `init_app` callback destroys the application at once,
        before there is a reference to it, and nobody gets it. */
    constructor (initOk: bool)
      ensures initOk ==> View() == NEW && Valid()
      ensures !initOk ==> freed == 1 && finalized == 1
    {
      nref, nthreads, finalized, freed := 0, 0, 0, 0;
      owners, handlers, misused := 0, map[], false;
      new;
      if initOk {
        nref := nref + 1;
        owners := 1;
        NewBalanced();
      } else {
        Drop(true);
      }
    }

    /** One reference less; the last one frees, an owner's finalizes first. */
    method Drop(owner: bool)
      modifies this`nref, this`finalized, this`freed
      ensures Counters(nref, nthreads, finalized, freed)
           == var c := old(Counters(nref, nthreads, finalized, freed)); if owner then AppDestroy(c) else Decref(c)
    {
      nref := nref - 1;
      if nref <= 0 {
        finalized := finalized + if owner then 1 else 0;
        freed := freed + 1;
      }
    }

    /** `mnfcgi_app_incref`, by an owner. */
    method Incref()
      requires Valid() && Enabled(View(), OwnerIncref)
      modifies this
      ensures Valid() && View() == Moved(old(View()), OwnerIncref)
    {
      MoveBalances(View(), OwnerIncref);
      misused := misused || freed > 0;
      nref, owners := nref + 1, owners + 1;
    }

    /** `mnfcgi_app_destroy`, by an owner. */
    method Destroy()
      requires Valid() && Enabled(View(), OwnerDestroy)
      modifies this
      ensures Valid() && View() == Moved(old(View()), OwnerDestroy)
    {
      MoveBalances(View(), OwnerDestroy);
      misused, owners := misused || freed > 0, owners - 1;
      Drop(true);
    }

    /** A handler begins in `mnfcgi_handle_socket`: it is counted. */
    method Begin(h: nat)
      requires Valid() && Enabled(View(), Start(h))
      modifies this
      ensures Valid() && View() == Moved(old(View()), Start(h))
    {
      MoveBalances(View(), Start(h));
      misused := misused || freed > 0;
      nthreads, handlers := nthreads + 1, handlers[h := Counted];
    }

    /** `mnfcgi_ctx_init` takes the reference of a connection. */
    method Attach(h: nat)
      requires Valid() && Enabled(View(), Init(h))
      modifies this
      ensures Valid() && View() == Moved(old(View()), Init(h))
    {
      MoveBalances(View(), Init(h));
      misused := misused || freed > 0;
      nref, handlers := nref + 1, handlers[h := Serving];
    }

    /** The connection was served: the handler is no longer counted. */
    method Leave(h: nat)
      requires Valid() && Enabled(View(), Finish(h))
      modifies this
      ensures Valid() && View() == Moved(old(View()), Finish(h))
    {
      MoveBalances(View(), Finish(h));
      misused := misused || freed > 0;
      nthreads, handlers := nthreads - 1, handlers[h := Leaving];
    }

    /** `mnfcgi_ctx_fini` drops the reference of a connection. */
    method Detach(h: nat)
      requires Valid() && Enabled(View(), Fini(h))
      modifies this
      ensures Valid() && View() == Moved(old(View()), Fini(h))
    {
      MoveBalances(View(), Fini(h));
      misused, handlers := misused || freed > 0, handlers - {h};
      Drop(false);
    }
  }
}

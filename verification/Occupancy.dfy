/** How many requests are pending against how many instances there are: the test by which
    `next` tells whether any instance is idle. */
module Occupancy {
  import opened Common
  import opened Rendezvous

  // ----- managed Runtimes -----

  predicate Engaged(state: Runtime) { state.Holding? || state.Busy? }

  /** Runtimes call `next` only once registered, do not exit while they hold an
      invocation, and answer it before they call `next` again; and no invocation is handed
      to a `next` call that an exited Runtime left open. */
  predicate Managed(s: State, e: Event) {
    Enabled(s, e) ==>
      match e
      case NextCall(r) => r in s.processes
      case Abandon(_) => false
      case Exit(r) => r in s.runtimes ==> !Engaged(s.runtimes[r])
      case HandOver(_, r) => r in s.processes
      case _ => true
  }

  predicate ManagedRun(s: State, es: seq<Event>)
    decreases |es|
  {
    es == [] || (Managed(s, es[0]) && ManagedRun(Apply(s, es[0]), es[1..]))
  }


  /** A Runtime has the entry: it is busy with the invocation parked under that ID. */
  predicate Owns(r: nat, x: Cid, s: State) {
    && x in s.pending && s.pending[x] in s.invs && s.invs[s.pending[x]].token == Stored(r)
    && RuntimeIs(s, r, Busy(s.pending[x]))
  }

  ghost predicate ManagedInv(s: State) {
    && (forall r :: r in s.runtimes && Engaged(s.runtimes[r]) ==> r in s.processes)
    && (forall x :: x in s.pending ==> s.pending[x] in s.invs && s.invs[s.pending[x]].token.Stored?
                                       && Owns(s.invs[s.pending[x]].token.runtime, x, s))
  }

  lemma ManagedStore(s: State, r: nat, v: nat)
    requires Inv(s) && ManagedInv(s) && RuntimeIs(s, r, Holding(v)) && v in s.invs
    ensures ManagedInv(DoStore(s, r, v))
  {
    assert RuntimeOk(s.runtimes[r], r, s.invs, s.log);
  }

  lemma ManagedDelete(s: State, v: nat)
    requires ManagedInv(s) && v in s.invs
    ensures ManagedInv(DoDelete(s, v))
  {
  }

  lemma ManagedTakeEntry(s: State, cid: Cid)
    requires Inv(s) && ManagedInv(s) && cid in s.pending
    ensures ManagedInv(DoTakeEntry(s, cid))
    ensures forall x :: x in DoTakeEntry(s, cid).pending ==> s.pending[x] != s.pending[cid]
  {
    forall x | x in s.pending ensures EntryOk(s.pending[x], x, s.invs, s.log) {}
  }

  lemma ManagedPost(s: State, p: nat, v: nat, a: Answer)
    requires ManagedInv(s) && v in s.invs && forall x :: x in s.pending ==> s.pending[x] != v
    ensures ManagedInv(DoPost(s, p, v, a))
  {
  }

  lemma ManagedRecordAnswer(s: State, r: nat, v: nat)
    requires Inv(s) && ManagedInv(s) && RuntimeIs(s, r, Busy(v)) && v in s.invs && s.invs[v].cid !in s.pending
    ensures ManagedInv(RecordAnswer(s, r, v))
  {
    forall x | x in s.pending ensures s.pending[x] != v { assert EntryOk(s.pending[x], x, s.invs, s.log); }
  }

  lemma ManagedDoLookup(s: State, p: nat, cid: Cid, body: Option<Bytes>)
    requires Inv(s) && ManagedInv(s) && p !in s.posters && (body.Some? ==> Posted(cid, body.value) in s.log.posts)
    ensures ManagedInv(DoLookup(s, p, cid, body))
  {
    if cid in s.pending {
      TakeEntryKeepsInv(s, cid);
      ManagedTakeEntry(s, cid);
      if body.Some? { ManagedPost(DoTakeEntry(s, cid), p, s.pending[cid], Posted(cid, body.value)); }
    }
  }

  lemma ManagedLookup(s: State, p: nat, cid: Cid, body: Option<Bytes>, from: Option<nat>)
    requires Inv(s) && ManagedInv(s) && Enabled(s, Lookup(p, cid, body, from))
    ensures ManagedInv(Step(s, Lookup(p, cid, body, from)))
  {
    var u := RecordPost(s, cid, body);
    RecordPostKeepsInv(s, cid, body);
    ManagedDoLookup(u, p, cid, body);
    if from.Some? {
      ManagedRecordAnswer(DoLookup(u, p, cid, body), from.value, s.runtimes[from.value].inv) by {
        LookupKeepsInv(u, p, cid, body);
      }
    }
  }

  lemma ManagedSend(s: State, p: nat)
    requires Inv(s) && ManagedInv(s) && p in s.posters && s.posters[p].inv in s.invs
    ensures ManagedInv(DoSend(s, p))
  {
    assert PosterOk(s.posters[p], p, s.invs, s.log);
  }

  lemma ManagedHandOver(s: State, v: nat, r: nat)
    requires Inv(s) && ManagedInv(s) && Offered(s, v) && RuntimeIs(s, r, Waiting) && r in s.processes
    ensures ManagedInv(DoHandOver(s, v, r))
  {
    assert InvocationOk(s.invs[v], v, s.log);
  }

  lemma ManagedTakeInitError(s: State, v: nat)
    requires Inv(s) && ManagedInv(s) && InPhase(s, v, Offering) && s.initError.Some? && s.initError.value.InitError?
    ensures ManagedInv(DoTakeInitError(s, v))
  {
    assert InvocationOk(s.invs[v], v, s.log);
  }

  lemma ManagedLocalStep(s: State, e: Event)
    requires ManagedInv(s) && Local(e) && Enabled(s, e)
    requires e.v in s.invs ==> InvocationOk(s.invs[e.v], e.v, s.log)
    ensures ManagedInv(Step(s, e))
  {
  }

  lemma ManagedStartFails(s: State, v: nat)
    requires Inv(s) && ManagedInv(s) && InPhase(s, v, Initialising)
    ensures ManagedInv(DoStartFails(s, v))
  {
    assert InvocationOk(s.invs[v], v, s.log);
  }

  lemma ManagedExit(s: State, r: nat)
    requires ManagedInv(s) && (r in s.runtimes ==> !Engaged(s.runtimes[r]))
    ensures ManagedInv(DoExit(s, r))
  {
  }

  lemma ManagedOutsideStep(s: State, e: Event)
    requires ManagedInv(s) && Outside(e) && Enabled(s, e) && Managed(s, e)
    ensures ManagedInv(Step(s, e))
  {
  }

  lemma ManagedStep(s: State, e: Event)
    requires Inv(s) && ManagedInv(s) && Managed(s, e)
    ensures ManagedInv(Apply(s, e))
  {
    if Enabled(s, e) {
      if Local(e) {
        ManagedLocalStep(s, e);
      } else if Outside(e) {
        ManagedOutsideStep(s, e);
      } else {
        hide Inv, ManagedInv;
        match e {
          case HandOver(v, r) => ManagedHandOver(s, v, r);
          case StartFails(v) => ManagedStartFails(s, v);
          case TakeInitError(v) => ManagedTakeInitError(s, v);
          case Delete(v) => ManagedDelete(s, v);
          case Store(r) => ManagedStore(s, r, s.runtimes[r].inv);
          case Lookup(p, cid, body, from) => ManagedLookup(s, p, cid, body, from);
          case Send(p) => ManagedSend(s, p);
          case Exit(r) => ManagedExit(s, r);
        }
      }
    }
  }

  lemma {:induction false} ManagedRunKeepsInv(s: State, es: seq<Event>)
    requires Inv(s) && ManagedInv(s) && ManagedRun(s, es)
    ensures Inv(Run(s, es)) && ManagedInv(Run(s, es))
    decreases |es|
  {
    if es != [] {
      StepKeepsInv(s, es[0]);
      ManagedStep(s, es[0]);
      ManagedRunKeepsInv(Apply(s, es[0]), es[1..]);
    }
  }

  function BusyRuntimes(s: State): set<nat> {
    set r | r in s.runtimes && s.runtimes[r].Busy?
  }

  /** The Runtime that owns each entry. */
  function Owners(s: State): map<Cid, nat> {
    map x | x in s.pending && s.pending[x] in s.invs && s.invs[s.pending[x]].token.Stored? ::
      s.invs[s.pending[x]].token.runtime
  }

  /** |pendingRequests| <= busy instances <= lambdaCount in every reachable state, and
      the two ends meet exactly when every registered instance owns an entry: then none
      is idle. */
  lemma Occupancy(es: seq<Event>)
    requires ManagedRun(INITIAL, es)
    ensures var s := Run(INITIAL, es);
            && |s.pending| <= |BusyRuntimes(s)| <= LambdaCount(s)
            && (|s.pending| == LambdaCount(s) <==> forall r :: r in s.processes ==> exists x :: Owns(r, x, s))
            && (|s.pending| == LambdaCount(s) ==> forall r :: r in s.processes ==> r in BusyRuntimes(s))
  {
    ManagedRunKeepsInv(INITIAL, es);
    var s := Run(INITIAL, es);
    var owners := Owners(s);
    assert owners.Keys == s.pending.Keys;
    assert |owners| == |s.pending|;
    OwnersInjective(s);
    InjectionCard(owners, BusyRuntimes(s));
    assert BusyRuntimes(s) <= s.processes;
    SubsetCard(BusyRuntimes(s), s.processes);
    if |s.pending| == LambdaCount(s) {
      SubsetSameCard(BusyRuntimes(s), s.processes);
      forall r | r in s.processes ensures exists x :: Owns(r, x, s) {
        var x :| x in owners && owners[x] == r;
        assert Owns(r, x, s);
      }
    }
    if forall r :: r in s.processes ==> exists x :: Owns(r, x, s) {
      AllOwnersCovered(s);
    }
  }

  lemma OwnersInjective(s: State)
    requires Inv(s) && ManagedInv(s)
    ensures Injective(Owners(s))
    ensures forall x :: x in Owners(s) ==> Owns(Owners(s)[x], x, s) && Owners(s)[x] in BusyRuntimes(s)
  {
    forall x, y | x in Owners(s) && y in Owners(s) && Owners(s)[x] == Owners(s)[y] ensures x == y {
      assert EntryOk(s.pending[x], x, s.invs, s.log) && EntryOk(s.pending[y], y, s.invs, s.log);
      assert Owns(Owners(s)[x], x, s) && Owns(Owners(s)[y], y, s);
    }
  }

  lemma AllOwnersCovered(s: State)
    requires forall r :: r in s.processes ==> exists x :: Owns(r, x, s)
    ensures |s.processes| <= |s.pending|
  {
    var entry := map r | r in s.processes :: (var x :| Owns(r, x, s); x);
    assert forall r :: r in entry ==> Owns(r, entry[r], s);
    assert Injective(entry) by {
      forall q, r | q in entry && r in entry && entry[q] == entry[r] ensures q == r {
        assert Owns(q, entry[q], s) && Owns(r, entry[r], s);
      }
    }
    InjectionCard(entry, s.pending.Keys);
    assert entry.Keys == s.processes;
    assert |entry| == |entry.Keys|;
  }

  // ----- any Runtimes -----

  /** An entry with a registered Runtime that is busy with it. */
  predicate OwnedEntry(s: State, x: Cid) {
    && x in s.pending && s.pending[x] in s.invs && s.invs[s.pending[x]].token.Stored?
    && s.invs[s.pending[x]].token.runtime in s.processes && Owns(s.invs[s.pending[x]].token.runtime, x, s)
  }

  /** The entries that no registered instance is busy with. */
  function Stale(s: State): set<Cid> { set x | x in s.pending && !OwnedEntry(s, x) }

  /** The registered instances that are busy with no entry, idle ones among them. */
  ghost function Unowned(s: State): set<nat> { set r | r in s.processes && !exists x :: Owns(r, x, s) }

  lemma EntriesHaveOwners(s: State)
    requires Inv(s)
    ensures |s.pending.Keys - Stale(s)| <= |s.processes - Unowned(s)|
  {
    var entries := s.pending.Keys - Stale(s);
    var owner := map x | x in entries :: s.invs[s.pending[x]].token.runtime;
    forall x | x in entries ensures EntryOk(s.pending[x], x, s.invs, s.log) && Owns(owner[x], x, s) {}
    InjectionCard(owner, s.processes - Unowned(s));
    assert owner.Keys == entries && |owner| == |owner.Keys|;
  }

  lemma OwnersHaveEntries(s: State)
    ensures |s.processes - Unowned(s)| <= |s.pending.Keys - Stale(s)|
  {
    var owners := s.processes - Unowned(s);
    var entry := map r | r in owners :: (var x :| Owns(r, x, s); x);
    forall r | r in owners ensures Owns(r, entry[r], s) && OwnedEntry(s, entry[r]) {}
    assert Injective(entry) by {
      forall q, r | q in entry && r in entry && entry[q] == entry[r] ensures q == r {
        assert Owns(q, entry[q], s) && Owns(r, entry[r], s);
      }
    }
    InjectionCard(entry, s.pending.Keys - Stale(s));
    assert entry.Keys == owners && |entry| == |entry.Keys|;
  }

  /** The law behind the test in `next`, for every run: pending requests and instances
      without one balance instances and stale entries.  So the test succeeds exactly when
      there are as many stale entries as instances without an entry, and the requests exceed
      the instances exactly when there are more; and when the test succeeds, some instance is
      without an entry exactly when some entry is stale. */
  lemma OccupancyLaw(es: seq<Event>)
    ensures var s := Run(INITIAL, es);
            && |s.pending| + |Unowned(s)| == LambdaCount(s) + |Stale(s)|
            && (|s.pending| == LambdaCount(s) <==> |Stale(s)| == |Unowned(s)|)
            && (|s.pending| <= LambdaCount(s) <==> |Stale(s)| <= |Unowned(s)|)
            && (|s.pending| == LambdaCount(s) ==> (Unowned(s) != {} <==> Stale(s) != {}))
            && (forall r :: r in s.processes && (r !in s.runtimes || !s.runtimes[r].Busy?) ==> r in Unowned(s))
  {
    RunKeepsInv(INITIAL, es);
    var s := Run(INITIAL, es);
    EntriesHaveOwners(s);
    OwnersHaveEntries(s);
    assert Stale(s) <= s.pending.Keys && |s.pending| == |s.pending.Keys|;
    assert |s.pending.Keys - Stale(s)| == |s.pending.Keys| - |Stale(s)|;
    assert Unowned(s) <= s.processes;
    assert |s.processes - Unowned(s)| == |s.processes| - |Unowned(s)|;
  }

  /** A Runtime comes up and waits for work. */
  function ComesUp(r: nat): seq<Event> { [Register(r), NextCall(r)] }

  /** A new invocation is handed to a waiting Runtime and stored. */
  function Serves(v: nat, cid: Cid, r: nat): seq<Event> { [Spawn(v, cid), HandOver(v, r), Store(r)] }

  lemma {:induction false} ComingUp(s: State, r: nat)
    requires r !in s.runtimes
    ensures Run(s, ComesUp(r)) == s.(processes := s.processes + {r}, runtimes := s.runtimes[r := Waiting])
  {
    var t := Apply(s, Register(r));
    RunTwo(s, Register(r), NextCall(r));
  }

  lemma {:induction false} Serving(s: State, v: nat, cid: Cid, r: nat)
    requires v !in s.invs && RuntimeIs(s, r, Waiting)
    ensures Run(s, Serves(v, cid, r)) ==
            s.(invs := s.invs[v := Invocation(cid, Awaiting, Live, None, Stored(r), 0)],
               pending := s.pending[cid := v],
               runtimes := s.runtimes[r := Busy(v)],
               log := s.log.(taken := s.log.taken + {v}))
  {
    RunThree(s, Spawn(v, cid), HandOver(v, r), Store(r));
    ServingSteps(s, v, cid, r);
  }

  lemma {:induction false} ServingSteps(s: State, v: nat, cid: Cid, r: nat)
    requires v !in s.invs && RuntimeIs(s, r, Waiting)
    ensures Apply(Apply(Apply(s, Spawn(v, cid)), HandOver(v, r)), Store(r)) ==
            s.(invs := s.invs[v := Invocation(cid, Awaiting, Live, None, Stored(r), 0)],
               pending := s.pending[cid := v],
               runtimes := s.runtimes[r := Busy(v)],
               log := s.log.(taken := s.log.taken + {v}))
  {
    var t := Put(s, v, Invocation(cid, Trying, Live, None, Unoffered, 0));
    assert Apply(s, Spawn(v, cid)) == t;
    var u := DoHandOver(t, v, r);
    assert Apply(t, HandOver(v, r)) == u;
    assert u.invs == s.invs[v := Invocation(cid, Awaiting, Live, None, Held(r), 0)];
    var w := DoStore(u, r, v);
    assert Apply(u, Store(r)) == w;
    assert w.invs == s.invs[v := Invocation(cid, Awaiting, Live, None, Stored(r), 0)];
    assert w.runtimes == s.runtimes[r := Busy(v)];
  }

  lemma Exiting(s: State, r: nat)
    ensures Run(s, [Exit(r)]) == DoExit(s, r)
  {
    assert [Exit(r)][1..] == [];
    assert Run(Apply(s, Exit(r)), []) == DoExit(s, r);
  }

  /** Instance 0 exits while busy. */
  function BusyExit(): seq<Event> { ComesUp(0) + (Serves(0, "a", 0) + [Exit(0)]) }

  /** Instances 1 and 2 come up and wait, and 1 is given an invocation. */
  function NextStore(): seq<Event> { ComesUp(1) + (ComesUp(2) + Serves(1, "b", 1)) }

  function Parking(cid: Cid, r: nat): Invocation { Invocation(cid, Awaiting, Live, None, Stored(r), 0) }

  lemma {:induction false} ExitLeavesItsEntry(s: State)
    requires 0 !in s.runtimes && 0 !in s.invs
    ensures var t := Run(s, BusyExit());
            && t.invs == s.invs[0 := Parking("a", 0)] && t.pending == s.pending["a" := 0]
            && t.runtimes == s.runtimes[0 := Waiting][0 := Busy(0)][0 := Gone] && t.processes == s.processes + {0} - {0}
  {
    hide Run, Apply;
    RunConcat(s, ComesUp(0), Serves(0, "a", 0) + [Exit(0)]);
    ComingUp(s, 0);
    var t := Run(s, ComesUp(0));
    RunConcat(t, Serves(0, "a", 0), [Exit(0)]);
    Serving(t, 0, "a", 0);
    var u := Run(t, Serves(0, "a", 0));
    Exiting(u, 0);
  }

  lemma {:induction false} StoreEvensTheCount(s: State)
    requires 1 !in s.runtimes && 2 !in s.runtimes && 1 !in s.invs
    ensures var t := Run(s, NextStore());
            && t.invs == s.invs[1 := Parking("b", 1)] && t.pending == s.pending["b" := 1]
            && t.runtimes == s.runtimes[1 := Waiting][2 := Waiting][1 := Busy(1)]
            && t.processes == s.processes + {1} + {2}
  {
    hide Run, Apply;
    RunConcat(s, ComesUp(1), ComesUp(2) + Serves(1, "b", 1));
    ComingUp(s, 1);
    var t := Run(s, ComesUp(1));
    RunConcat(t, ComesUp(2), Serves(1, "b", 1));
    ComingUp(t, 2);
    Serving(Run(t, ComesUp(2)), 1, "b", 1);
  }

  lemma {:induction false} OneStaleOneIdle(s: State)
    requires s.invs == map[0 := Parking("a", 0)][1 := Parking("b", 1)] && s.pending == map["a" := 0]["b" := 1]
    requires s.processes == {1, 2}
    requires RuntimeIs(s, 0, Gone) && RuntimeIs(s, 1, Busy(1)) && RuntimeIs(s, 2, Waiting)
    ensures Stale(s) == {"a"} && Unowned(s) == {2}
    ensures |s.pending| == LambdaCount(s) == 2
  {
    assert !OwnedEntry(s, "a") && OwnedEntry(s, "b") && Owns(1, "b", s);
    assert s.pending.Keys == {"a", "b"} && |s.pending| == |s.pending.Keys|;
  }

  lemma {:induction false} AfterBusyExit()
    ensures var s := Run(INITIAL, BusyExit());
            && s.invs == map[0 := Parking("a", 0)] && s.pending == map["a" := 0]
            && s.runtimes == map[0 := Gone] && s.processes == {}
  {
    hide Run, Apply;
    ExitLeavesItsEntry(INITIAL);
  }

  /** Without managed Runtimes the test can succeed with an idle instance: this run ends in
      a store after which there are as many requests pending as instances registered, while
      instance 2 waits for work. */
  lemma {:induction false} ExitWhileBusyBreaksTheTest()
    ensures (BusyExit() + NextStore())[|BusyExit() + NextStore()| - 1] == Store(1)
    ensures var s := Run(INITIAL, BusyExit() + NextStore());
            && "b" in s.pending && s.pending["b"] == 1
            && |s.pending| == LambdaCount(s) == 2
            && 2 in s.processes && RuntimeIs(s, 2, Waiting)
            && Stale(s) == {"a"} && Unowned(s) == {2}
  {
    hide Run, Apply;
    var s := Run(INITIAL, BusyExit());
    var t := Run(s, NextStore());
    assert Run(INITIAL, BusyExit() + NextStore()) == t by { RunConcat(INITIAL, BusyExit(), NextStore()); }
    AfterBusyExit();
    StoreEvensTheCount(s);
    OneStaleOneIdle(t);
  }

  // ----- `next` calls that an exited Runtime left open -----

  lemma {:induction false} ManagedConcat(s: State, before: seq<Event>, after: seq<Event>)
    ensures ManagedRun(s, before + after) <==> ManagedRun(s, before) && ManagedRun(Run(s, before), after)
    decreases |before|
  {
    if before == [] {
      assert before + after == after;
    } else {
      assert (before + after)[1..] == before[1..] + after;
      ManagedConcat(Apply(s, before[0]), before[1..], after);
    }
  }

  /** Instance r comes up, waits for work, and exits; its `next` handler is still there. */
  function LeavesOpen(r: nat): seq<Event> { ComesUp(r) + [Exit(r)] }

  lemma {:induction false} LeavingOpen(s: State, r: nat)
    requires r !in s.runtimes && r !in s.processes
    ensures Run(s, LeavesOpen(r)) == s.(runtimes := s.runtimes[r := Waiting])
    ensures ManagedRun(s, LeavesOpen(r))
  {
    var t := s.(processes := s.processes + {r}, runtimes := s.runtimes[r := Waiting]);
    RunConcat(s, ComesUp(r), [Exit(r)]);
    ComingUp(s, r);
    Exiting(t, r);
    assert s.processes + {r} - {r} == s.processes;
    ManagedConcat(s, ComesUp(r), [Exit(r)]);
    ManagedComingUp(s, r);
    assert ManagedRun(t, [Exit(r)]) by { ManagedOne(t, Exit(r)); }
  }

  lemma ManagedOne(s: State, e: Event)
    ensures ManagedRun(s, [e]) <==> Managed(s, e)
  {
    hide Managed, Apply;
    assert [e][1..] == [];
  }

  lemma {:induction false} ManagedComingUp(s: State, r: nat)
    requires r !in s.runtimes
    ensures ManagedRun(s, ComesUp(r))
  {
    var t := Apply(s, Register(r));
    assert t == s.(processes := s.processes + {r});
    assert ComesUp(r) == [Register(r)] + [NextCall(r)];
    ManagedConcat(s, [Register(r)], [NextCall(r)]);
    ManagedOne(s, Register(r));
    ManagedOne(t, NextCall(r));
    assert Run(s, [Register(r)]) == t by { assert [Register(r)][1..] == []; }
  }

  /** Runtimes that never exit while they hold an invocation do not suffice for the bound:
      in this run instance 7 exits while it waits, and an invocation is then handed to the
      call it left open and stored.  Every step is managed but that hand-over. */
  lemma HandOverAfterExitBreaksTheBound()
    ensures ManagedRun(INITIAL, LeavesOpen(7))
    ensures var s := Apply(Run(INITIAL, LeavesOpen(7)), Spawn(0, "a"));
            Enabled(s, HandOver(0, 7)) && !Managed(s, HandOver(0, 7)) && Managed(Apply(s, HandOver(0, 7)), Store(7))
    ensures var t := Run(INITIAL, LeavesOpen(7) + Serves(0, "a", 7));
            |t.pending| == 1 && LambdaCount(t) == 0 && |Stale(t)| == 1 && Unowned(t) == {}
  {
    LeavingOpen(INITIAL, 7);
    var s := INITIAL.(runtimes := map[7 := Waiting]);
    var u := Put(s, 0, Invocation("a", Trying, Live, None, Unoffered, 0));
    assert Apply(s, Spawn(0, "a")) == u;
    RunConcat(INITIAL, LeavesOpen(7), Serves(0, "a", 7));
    Serving(s, 0, "a", 7);
    EntryOfTheDead(Run(s, Serves(0, "a", 7)));
  }

  lemma EntryOfTheDead(t: State)
    requires t.pending == map["a" := 0] && t.processes == {}
    ensures |t.pending| == 1 && LambdaCount(t) == 0 && Stale(t) == {"a"} && Unowned(t) == {}
  {
    assert t.pending.Keys == {"a"} && |t.pending| == |t.pending.Keys|;
    assert Stale(t) == {"a"};
  }

  /** An exit does not take the invocation from a handler that holds it. */
  lemma ExitKeepsHeld(s: State, r: nat, v: nat)
    requires StillHeld(s, v)
    ensures StillHeld(Apply(s, Exit(r)), v) && r !in Apply(s, Exit(r)).processes
  {
    assert Apply(s, Exit(r)) == DoExit(s, r);
  }

  /** So when the Runtime that holds it exits and its caller then gives up, an entry can
      still be left, of a caller that has returned and for a Runtime that is gone. */
  lemma DeadRuntimeLeavesAnEntry(s: State, v: nat)
    requires Inv(s) && InPhase(s, v, Awaiting) && s.invs[v].ctx.Live? && StillHeld(s, v)
    ensures var r := s.invs[v].token.runtime;
            var t := Apply(Apply(Apply(s, Exit(r)), CtxEnds(v, DeadlineExceeded)), Expire(v));
            && r !in t.processes && InPhase(t, v, Deleting)
            && exists es :: Led(Run(Apply(t, Delete(v)), es), v)
  {
    var r := s.invs[v].token.runtime;
    var s1 := DoExit(s, r);
    assert Apply(s, Exit(r)) == s1;
    ExitKeepsHeld(s, r, v);
    var s2 := Put(s1, v, s1.invs[v].(ctx := DeadlineExceeded));
    assert Apply(s1, CtxEnds(v, DeadlineExceeded)) == s2;
    var t := Put(s2, v, s2.invs[v].(phase := Deleting));
    assert Apply(s2, Expire(v)) == t;
    assert Inv(t) by {
      StepKeepsInv(s, Exit(r));
      StepKeepsInv(s1, CtxEnds(v, DeadlineExceeded));
      StepKeepsInv(s2, Expire(v));
    }
    GivenUpLeavesAnEntryIff(t, v);
  }

  /** And this run reaches a state in which that can happen. */
  lemma {:induction false} HeldIsReachable()
    ensures var s := Run(INITIAL, ComesUp(7) + [Spawn(0, "a"), HandOver(0, 7)]);
            && Inv(s) && InPhase(s, 0, Awaiting) && s.invs[0].ctx.Live? && StillHeld(s, 0)
            && 7 in s.processes && s.invs[0].token == Held(7)
  {
    RunConcat(INITIAL, ComesUp(7), [Spawn(0, "a"), HandOver(0, 7)]);
    ComingUp(INITIAL, 7);
    var t := Run(INITIAL, ComesUp(7));
    var u := Put(t, 0, Invocation("a", Trying, Live, None, Unoffered, 0));
    assert Apply(t, Spawn(0, "a")) == u;
    assert Apply(u, HandOver(0, 7)) == DoHandOver(u, 0, 7);
    RunTwo(t, Spawn(0, "a"), HandOver(0, 7));
    RunKeepsInv(INITIAL, ComesUp(7) + [Spawn(0, "a"), HandOver(0, 7)]);
  }
}

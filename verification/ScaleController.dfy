/** The scale-up / scale-down controller.

    An invocation that would block calls RuntimeAPI.Init, which reads the number
    of registered Lambda instances under a read lock, drops the lock, and only
    then runs the launcher under the sync.Once at that index.  The index may be
    stale by the time it is used, and unregistering an instance overwrites a
    slot.  A slot is modelled as a flag: consumed, or free to be claimed. */
module ScaleController {
  import opened Common

  /** The state guarded by the ProcessManager and RuntimeAPI locks.
      `panicked` records an index past the end of the slice. */
  datatype Pool = Pool(slots: seq<bool>, processes: set<int>, lambdaCount: nat, panicked: bool)

  // ----- the critical sections -----

  /** Init, first half: the index of the Once, clamped to the slice. */
  function ReadIndex(p: Pool): nat
    requires |p.slots| >= 1
  {
    if p.lambdaCount > |p.slots| - 1 then |p.slots| - 1 else p.lambdaCount
  }

  /** Once.Do on slot i: the caller launches exactly when the slot was free. */
  function Claim(p: Pool, i: nat): (Pool, bool)
    requires i < |p.slots|
  {
    (p.(slots := p.slots[i := true]), !p.slots[i])
  }

  /** ProcessManager.Register with the RuntimeAPI callback. */
  function Register(p: Pool, pid: int): Pool {
    var ps := p.processes + {pid};
    p.(processes := ps, lambdaCount := |ps|)
  }

  /** ProcessManager.Unregister with the RuntimeAPI callback, which frees the
      slot whose index is the new number of processes. */
  function Unregister(p: Pool, pid: int): Pool {
    if pid !in p.processes then p
    else
      var ps := p.processes - {pid};
      if |ps| < |p.slots|
      then p.(processes := ps, lambdaCount := |ps|, slots := p.slots[|ps| := false])
      else p.(processes := ps, panicked := true)
  }

  // ----- the calls in progress -----

  /** Where a call of Init stands. */
  datatype Caller = Ready(index: nat) | Launching(index: nat)

  datatype State = State(pool: Pool, callers: map<nat, Caller>)

  datatype Event =
    | Read(caller: nat)                // the read-locked section of Init
    | Do(caller: nat)                  // once.Do claims the slot, or finds it consumed
    | Started(caller: nat, pid: int)   // the launched process registers
    | Failed(caller: nat)              // exec failed, nothing is registered
    | Exit(pid: int)                   // a child was reaped

  predicate Enabled(s: State, e: Event) {
    match e
    case Read(c) => c !in s.callers && |s.pool.slots| >= 1
    case Do(c) => c in s.callers && s.callers[c].Ready? && s.callers[c].index < |s.pool.slots|
    case Started(c, _) => c in s.callers && s.callers[c].Launching?
    case Failed(c) => c in s.callers && s.callers[c].Launching?
    case Exit(_) => true
  }

  function Step(s: State, e: Event): State
    requires Enabled(s, e)
  {
    match e
    case Read(c) => s.(callers := s.callers[c := Ready(ReadIndex(s.pool))])
    case Do(c) =>
      var i := s.callers[c].index;
      var (pool, launch) := Claim(s.pool, i);
      State(pool, if launch then s.callers[c := Launching(i)] else s.callers - {c})
    case Started(c, pid) => State(Register(s.pool, pid), s.callers - {c})
    case Failed(c) => s.(callers := s.callers - {c})
    case Exit(pid) => s.(pool := Unregister(s.pool, pid))
  }

  /** Events that are not enabled do not happen. */
  function Apply(s: State, e: Event): State {
    if Enabled(s, e) then Step(s, e) else s
  }

  function Run(s: State, es: seq<Event>): State
    decreases |es|
  {
    if es == [] then s else Run(Apply(s, es[0]), es[1..])
  }

  function Initial(maxConcurrency: nat): State {
    State(Pool(seq(maxConcurrency, _ => false), {}, 0, false), map[])
  }

  // ----- counting -----

  function Consumed(slots: seq<bool>): set<nat> {
    set i | 0 <= i < |slots| && slots[i]
  }

  function Launches(callers: map<nat, Caller>): set<nat> {
    set c | c in callers && callers[c].Launching?
  }

  /** Consumed slots that neither a registered process nor a launch accounts for. */
  function Lost(s: State): int {
    |Consumed(s.pool.slots)| - |s.pool.processes| - |Launches(s.callers)|
  }

  ghost predicate Inv(s: State) {
    && |s.pool.slots| >= 1
    && s.pool.lambdaCount == |s.pool.processes|
    && !s.pool.panicked
    && (forall c :: c in s.callers ==> s.callers[c].index < |s.pool.slots|)
    && Lost(s) >= 0
  }

  lemma ConsumedBound(slots: seq<bool>)
    ensures |Consumed(slots)| <= |slots|
    ensures |Consumed(slots)| == |slots| ==> forall i :: 0 <= i < |slots| ==> slots[i]
  {
    assert Consumed(slots) <= Below(|slots|);
    SubsetCard(Consumed(slots), Below(|slots|));
    if |Consumed(slots)| == |slots| {
      SubsetSameCard(Consumed(slots), Below(|slots|));
      forall i | 0 <= i < |slots| ensures slots[i] { assert i in Below(|slots|); }
    }
  }

  lemma ConsumedUpdate(slots: seq<bool>, i: nat, b: bool)
    requires i < |slots|
    ensures |Consumed(slots[i := b])| == |Consumed(slots)| + (if b then 1 else 0) - (if slots[i] then 1 else 0)
  {
    if b {
      assert Consumed(slots[i := b]) == Consumed(slots) + {i};
    } else {
      assert Consumed(slots[i := b]) == Consumed(slots) - {i};
    }
  }

  /** Exactly the steps that lose a unit of capacity for good: a failed start, the
      registration of a pid that is still registered, and the exit of a process
      when the slot it would free is free already. */
  predicate Loses(s: State, e: Event) {
    Enabled(s, e) &&
    match e
    case Failed(_) => true
    case Started(_, pid) => pid in s.pool.processes
    case Exit(pid) => pid in s.pool.processes
                      && |s.pool.processes| - 1 < |s.pool.slots| && !s.pool.slots[|s.pool.processes| - 1]
    case _ => false
  }

  lemma DoAccounting(s: State, c: nat)
    requires Inv(s) && Enabled(s, Do(c))
    ensures Inv(Step(s, Do(c))) && Lost(Step(s, Do(c))) == Lost(s)
  {
    var t := Step(s, Do(c));
    var i := s.callers[c].index;
    ConsumedUpdate(s.pool.slots, i, true);
    if s.pool.slots[i] {
      assert Launches(t.callers) == Launches(s.callers);
    } else {
      assert Launches(t.callers) == Launches(s.callers) + {c};
    }
  }

  lemma StartedAccounting(s: State, c: nat, pid: int)
    requires Inv(s) && Enabled(s, Started(c, pid))
    ensures Inv(Step(s, Started(c, pid)))
    ensures Lost(Step(s, Started(c, pid))) == Lost(s) + (if pid in s.pool.processes then 1 else 0)
  {
    assert c in Launches(s.callers);
    assert Launches(s.callers - {c}) == Launches(s.callers) - {c};
    if pid in s.pool.processes {
      assert s.pool.processes + {pid} == s.pool.processes;
    }
  }

  lemma FailedAccounting(s: State, c: nat)
    requires Inv(s) && Enabled(s, Failed(c))
    ensures Inv(Step(s, Failed(c))) && Lost(Step(s, Failed(c))) == Lost(s) + 1
  {
    assert c in Launches(s.callers);
    assert Launches(s.callers - {c}) == Launches(s.callers) - {c};
  }

  lemma ExitAccounting(s: State, pid: int)
    requires Inv(s)
    ensures Inv(Step(s, Exit(pid)))
    ensures Lost(Step(s, Exit(pid))) == Lost(s) + (if Loses(s, Exit(pid)) then 1 else 0)
  {
    if pid in s.pool.processes {
      ConsumedBound(s.pool.slots);
      ConsumedUpdate(s.pool.slots, |s.pool.processes| - 1, false);
    }
  }

  /** The exact accounting of one step. */
  lemma StepAccounting(s: State, e: Event)
    requires Inv(s)
    ensures Inv(Apply(s, e))
    ensures Lost(Apply(s, e)) == Lost(s) + (if Loses(s, e) then 1 else 0)
    ensures |Apply(s, e).pool.slots| == |s.pool.slots|
  {
    if Enabled(s, e) {
      match e {
        case Read(c) => assert Launches(Step(s, e).callers) == Launches(s.callers);
        case Do(c) => DoAccounting(s, c);
        case Started(c, pid) => StartedAccounting(s, c, pid);
        case Failed(c) => FailedAccounting(s, c);
        case Exit(pid) => ExitAccounting(s, pid);
      }
    }
  }

  lemma InitialInv(n: nat)
    requires n >= 1
    ensures Inv(Initial(n)) && Lost(Initial(n)) == 0
  {
    assert Consumed(Initial(n).pool.slots) == {};
    assert Launches(Initial(n).callers) == {};
  }

  function LossCount(s: State, es: seq<Event>): nat
    decreases |es|
  {
    if es == [] then 0
    else (if Loses(s, es[0]) then 1 else 0) + LossCount(Apply(s, es[0]), es[1..])
  }

  lemma {:induction false} RunAccounting(s: State, es: seq<Event>)
    requires Inv(s)
    ensures Inv(Run(s, es))
    ensures Lost(Run(s, es)) == Lost(s) + LossCount(s, es)
    ensures |Run(s, es).pool.slots| == |s.pool.slots|
    decreases |es|
  {
    if es != [] {
      StepAccounting(s, es[0]);
      RunAccounting(Apply(s, es[0]), es[1..]);
    }
  }

  /** THE CAP.  Under every interleaving of index reads, claims, launches, failed
      starts and exits, live plus launching processes never exceed MaxConcurrency,
      no slice index is ever out of range, and whatever capacity was lost stays lost. */
  lemma CapNeverExceeded(maxConcurrency: nat, es: seq<Event>, more: seq<Event>)
    requires maxConcurrency >= 1
    ensures var s := Run(Initial(maxConcurrency), es);
            var t := Run(s, more);
            && |t.pool.processes| + |Launches(t.callers)| <= maxConcurrency - Lost(s)
            && Lost(s) == LossCount(Initial(maxConcurrency), es)
            && !t.pool.panicked
            && t.pool.lambdaCount == |t.pool.processes|
            && |t.pool.slots| == maxConcurrency
            && (forall c :: c in t.callers ==> t.callers[c].index < maxConcurrency)
            && (forall c :: c in t.callers && t.callers[c].Ready? ==> Enabled(t, Do(c)))
  {
    InitialInv(maxConcurrency);
    RunAccounting(Initial(maxConcurrency), es);
    var s := Run(Initial(maxConcurrency), es);
    RunAccounting(s, more);
    ConsumedBound(Run(s, more).pool.slots);
  }

  /** At the cap nothing is launched: every claim finds its slot consumed. */
  lemma NoLaunchAtTheCap(s: State, c: nat)
    requires Inv(s) && Enabled(s, Do(c))
    requires |s.pool.processes| + |Launches(s.callers)| == |s.pool.slots|
    ensures Apply(s, Do(c)) == s.(callers := s.callers - {c})
  {
    ConsumedBound(s.pool.slots);
    var i := s.callers[c].index;
    assert s.pool.slots[i := true] == s.pool.slots;
  }

  // ----- one launch per slot -----

  predicate Claims(s: State, e: Event, i: nat) {
    e.Do? && Enabled(s, e) && s.callers[e.caller].index == i && !s.pool.slots[i]
  }

  predicate Frees(s: State, e: Event, i: nat) {
    e.Exit? && e.pid in s.pool.processes && i == |s.pool.processes| - 1 && i < |s.pool.slots| && s.pool.slots[i]
  }

  function ClaimCount(s: State, es: seq<Event>, i: nat): nat
    decreases |es|
  {
    if es == [] then 0 else (if Claims(s, es[0], i) then 1 else 0) + ClaimCount(Apply(s, es[0]), es[1..], i)
  }

  function FreeCount(s: State, es: seq<Event>, i: nat): nat
    decreases |es|
  {
    if es == [] then 0 else (if Frees(s, es[0], i) then 1 else 0) + FreeCount(Apply(s, es[0]), es[1..], i)
  }

  function Bit(b: bool): nat { if b then 1 else 0 }

  /** Conservation for one slot: launches from it equal the times it was freed,
      corrected by where it started and ended. */
  lemma {:induction false} ClaimsBalanceFrees(s: State, es: seq<Event>, i: nat)
    requires Inv(s) && i < |s.pool.slots|
    ensures i < |Run(s, es).pool.slots|
    ensures ClaimCount(s, es, i) + Bit(s.pool.slots[i]) == FreeCount(s, es, i) + Bit(Run(s, es).pool.slots[i])
    decreases |es|
  {
    if es != [] {
      StepAccounting(s, es[0]);
      ClaimsBalanceFrees(Apply(s, es[0]), es[1..], i);
    }
  }

  predicate NoExits(es: seq<Event>) { forall k :: 0 <= k < |es| ==> !es[k].Exit? }

  lemma {:induction false} NoExitsNoFrees(s: State, es: seq<Event>, i: nat)
    requires NoExits(es)
    ensures FreeCount(s, es, i) == 0
    decreases |es|
  {
    if es != [] { NoExitsNoFrees(Apply(s, es[0]), es[1..], i); }
  }

  /** However many callers read the same free index, one of them launches: a run
      without exits launches once from the slot if any of them gets to it, else never. */
  lemma SameIndexLaunchesOnce(s: State, es: seq<Event>, i: nat)
    requires Inv(s) && i < |s.pool.slots| && !s.pool.slots[i] && NoExits(es)
    ensures i < |Run(s, es).pool.slots|
    ensures ClaimCount(s, es, i) == Bit(Run(s, es).pool.slots[i])
  {
    ClaimsBalanceFrees(s, es, i);
    NoExitsNoFrees(s, es, i);
  }

  // ----- when the slots are exactly the first lambdaCount -----

  /** Slot i is consumed exactly when i < lambdaCount, up to the one launch in progress. */
  ghost predicate Tidy(s: State) {
    && Inv(s)
    && (forall c :: c in s.callers && s.callers[c].Ready? ==> s.callers[c].index <= s.pool.lambdaCount)
    && (forall c :: c in s.callers && s.callers[c].Launching? ==> s.callers[c].index == s.pool.lambdaCount)
    && |Launches(s.callers)| <= 1
    && (forall i :: 0 <= i < |s.pool.slots| ==>
                      (s.pool.slots[i] <==>
                        i < s.pool.lambdaCount || (i == s.pool.lambdaCount && Launches(s.callers) != {})))
  }

  /** The steps that keep the slots tidy.  An exit must not fall between another
      caller's index read and the registration that follows from it. */
  predicate Quiet(s: State, e: Event) {
    Enabled(s, e) ==>
      match e
      case Started(_, pid) => pid !in s.pool.processes
      case Failed(_) => false
      case Exit(pid) =>
        pid in s.pool.processes ==>
          forall c :: c in s.callers ==> s.callers[c].Ready? && s.callers[c].index < s.pool.lambdaCount
      case _ => true
  }

  lemma SoleLaunch(callers: map<nat, Caller>, c: nat)
    requires c in callers && callers[c].Launching? && |Launches(callers)| <= 1
    ensures Launches(callers) == {c}
  {
    assert {c} <= Launches(callers);
    SubsetSameCard({c}, Launches(callers));
  }

  /** Exactly the quiet steps keep the slots tidy. */
  lemma TidyIffQuiet(s: State, e: Event)
    requires Tidy(s)
    ensures Tidy(Apply(s, e)) <==> Quiet(s, e)
  {
    StepAccounting(s, e);
    var t := Apply(s, e);
    ConsumedBound(s.pool.slots);
    if Enabled(s, e) {
      match e {
        case Read(c) =>
          assert Launches(t.callers) == Launches(s.callers);
        case Do(c) =>
          TidyDo(s, c);
        case Started(c, pid) =>
          SoleLaunch(s.callers, c);
          assert Launches(t.callers) == {};
          if pid in s.pool.processes {
            assert s.pool.processes + {pid} == s.pool.processes;
            assert t.pool.slots[s.callers[c].index];
          }
        case Failed(c) =>
          SoleLaunch(s.callers, c);
          assert Launches(t.callers) == {};
          assert t.pool.slots[s.callers[c].index];
        case Exit(pid) =>
          TidyExit(s, pid);
      }
    }
  }

  lemma TidyDo(s: State, c: nat)
    requires Tidy(s) && Enabled(s, Do(c))
    ensures Tidy(Apply(s, Do(c)))
  {
    var t := Apply(s, Do(c));
    StepAccounting(s, Do(c));
    var i := s.callers[c].index;
    if s.pool.slots[i] {
      assert Launches(t.callers) == Launches(s.callers);
    } else {
      assert Launches(s.callers) == {};
      assert Launches(t.callers) == {c};
    }
  }

  lemma TidyExit(s: State, pid: int)
    requires Tidy(s)
    ensures Tidy(Apply(s, Exit(pid))) <==> Quiet(s, Exit(pid))
  {
    var t := Apply(s, Exit(pid));
    StepAccounting(s, Exit(pid));
    ConsumedBound(s.pool.slots);
    if pid in s.pool.processes {
      assert t.callers == s.callers;
      if Quiet(s, Exit(pid)) {
        assert Launches(s.callers) == {};
      } else {
        var c :| c in s.callers && !(s.callers[c].Ready? && s.callers[c].index < s.pool.lambdaCount);
        assert t.callers[c] == s.callers[c];
      }
    }
  }

  /** While the slots are tidy, a call of Init that nobody interrupts launches an instance
      exactly when fewer than MaxConcurrency are running or being launched. */
  lemma LaunchesIffBelowTheCap(s: State, c: nat)
    requires Tidy(s) && c !in s.callers && Launches(s.callers) == {}
    ensures var t := Apply(Apply(s, Read(c)), Do(c));
            (c in t.callers && t.callers[c].Launching?) <==> |s.pool.processes| < |s.pool.slots|
  {
    var i := ReadIndex(s.pool);
    ConsumedBound(s.pool.slots);
    assert Apply(s, Read(c)) == s.(callers := s.callers[c := Ready(i)]);
    assert s.pool.slots[i] <==> i < s.pool.lambdaCount;
  }

  predicate QuietRun(s: State, es: seq<Event>)
    decreases |es|
  {
    es == [] || (Quiet(s, es[0]) && QuietRun(Apply(s, es[0]), es[1..]))
  }

  lemma {:induction false} QuietRunIsTidy(s: State, es: seq<Event>)
    requires Tidy(s) && QuietRun(s, es)
    ensures Tidy(Run(s, es))
    decreases |es|
  {
    if es != [] {
      TidyIffQuiet(s, es[0]);
      QuietRunIsTidy(Apply(s, es[0]), es[1..]);
    }
  }

  /** Once launches settle after a quiet run, slot i is consumed exactly when i < lambdaCount. */
  lemma SettledSlots(maxConcurrency: nat, es: seq<Event>)
    requires maxConcurrency >= 1 && QuietRun(Initial(maxConcurrency), es)
    ensures var s := Run(Initial(maxConcurrency), es);
            Launches(s.callers) == {} ==>
              forall i :: 0 <= i < |s.pool.slots| ==> (s.pool.slots[i] <==> i < s.pool.lambdaCount)
  {
    InitialInv(maxConcurrency);
    assert Launches(Initial(maxConcurrency).callers) == {};
    QuietRunIsTidy(Initial(maxConcurrency), es);
  }

  // ----- the two ways in which capacity really is lost -----

  /** One failed start with MaxConcurrency 1: no later run ever has a process. */
  lemma FailedStartIsForever(more: seq<Event>)
    ensures var s := Run(Initial(1), [Read(0), Do(0), Failed(0)]);
            Run(s, more).pool.processes == {}
  {
    var e := [Read(0), Do(0), Failed(0)];
    var s0 := Initial(1);
    var s1 := Apply(s0, e[0]);
    var s2 := Apply(s1, e[1]);
    assert e[1..][0] == e[1] && e[1..][1..] == [e[2]] && e[1..][1..][1..] == [];
    assert LossCount(s2, [e[2]]) == 1;
    assert LossCount(s1, e[1..]) == 1;
    CapNeverExceeded(1, e, more);
  }

  lemma RunCons(s: State, e: Event, es: seq<Event>)
    ensures Run(s, [e] + es) == Run(Apply(s, e), es)
    ensures LossCount(s, [e] + es) == (if Loses(s, e) then 1 else 0) + LossCount(Apply(s, e), es)
  {
    assert ([e] + es)[1..] == es;
  }

  lemma LaunchFrom(s: State, c: nat, pid: int)
    requires c !in s.callers && s.pool.lambdaCount < |s.pool.slots| && !s.pool.slots[s.pool.lambdaCount]
    ensures var i := s.pool.lambdaCount;
            Apply(Apply(s, Read(c)), Do(c))
            == State(s.pool.(slots := s.pool.slots[i := true]), s.callers[c := Launching(i)])
    ensures var t := Apply(Apply(Apply(s, Read(c)), Do(c)), Started(c, pid));
            t == State(Register(s.pool.(slots := s.pool.slots[s.pool.lambdaCount := true]), pid), s.callers)
  {
    var i := s.pool.lambdaCount;
    var t := Apply(s, Read(c));
    assert t == s.(callers := s.callers[c := Ready(i)]);
    assert t.callers[c := Launching(i)] == s.callers[c := Launching(i)];
    assert s.callers[c := Launching(i)] - {c} == s.callers;
  }

  predicate NeverReaps(es: seq<Event>, pid: int) { forall k :: 0 <= k < |es| ==> es[k] != Exit(pid) }

  /** A child that is reaped before Start registers it: the reap does nothing, the dead child
      is registered afterwards, and in every later run that does not reap its pid again it
      takes the place of an instance, so that one fewer than MaxConcurrency can be had. */
  lemma ReapedTooEarlyStays(maxConcurrency: nat, before: seq<Event>, c: nat, pid: int, after: seq<Event>)
    requires maxConcurrency >= 1 && NeverReaps(after, pid)
    requires var s := Run(Initial(maxConcurrency), before);
             Enabled(s, Started(c, pid)) && pid !in s.pool.processes
    ensures var s := Run(Initial(maxConcurrency), before);
            var t := Run(Apply(Apply(s, Exit(pid)), Started(c, pid)), after);
            && Apply(s, Exit(pid)) == s
            && pid in t.pool.processes
            && |t.pool.processes - {pid}| + |Launches(t.callers)| <= maxConcurrency - 1
  {
    InitialInv(maxConcurrency);
    RunAccounting(Initial(maxConcurrency), before);
    var s := Run(Initial(maxConcurrency), before);
    var u := Apply(s, Started(c, pid));
    StepAccounting(s, Started(c, pid));
    RunAccounting(u, after);
    RegisteredUntilReaped(u, after, pid);
    ConsumedBound(Run(u, after).pool.slots);
  }

  /** Only a reap removes a process. */
  lemma {:induction false} RegisteredUntilReaped(s: State, es: seq<Event>, pid: int)
    requires pid in s.pool.processes && NeverReaps(es, pid)
    ensures pid in Run(s, es).pool.processes
    decreases |es|
  {
    if es != [] { RegisteredUntilReaped(Apply(s, es[0]), es[1..], pid); }
  }

  /** Two healthy processes, the first of which exits while the second is being launched. */
  lemma ExitDuringLaunch()
    ensures var s := Apply(Apply(Apply(Initial(2), Read(0)), Do(0)), Started(0, 10));
            Apply(Apply(Apply(Apply(s, Read(1)), Do(1)), Exit(10)), Started(1, 11))
            == State(Pool([false, true], {11}, 1, false), map[])
  {
    LaunchFrom(Initial(2), 0, 10);
    var s3 := State(Pool([true, false], {10}, 1, false), map[]);
    assert Initial(2).pool.slots[0 := true] == [true, false];
    LaunchFrom(s3, 1, 11);
    var s5 := State(Pool([true, true], {10}, 1, false), map[1 := Launching(1)]);
    assert s3.pool.slots[1 := true] == [true, true];
    var s6 := Apply(s5, Exit(10));
    assert s6.pool.processes == {} && s6.pool.slots == [false, true];
    assert s6.callers - {1} == map[];
  }

  /** With MaxConcurrency 2, every start successful and every claim made with a
      fresh index, an exit during another launch still costs one instance for good. */
  lemma ExitDuringLaunchLosesASlot(more: seq<Event>)
    ensures var es := [Read(0)] + ([Do(0)] + ([Started(0, 10)] + ([Read(1)] + ([Do(1)] + ([Exit(10)]
                      + ([Started(1, 11)] + ([Exit(11)] + [])))))));
            |Run(Run(Initial(2), es), more).pool.processes| <= 1
  {
    var s0 := Initial(2);
    var e7: seq<Event> := [];
    var s1 := Apply(s0, Read(0));
    var s2 := Apply(s1, Do(0));
    var s3 := Apply(s2, Started(0, 10));
    var s4 := Apply(s3, Read(1));
    var s5 := Apply(s4, Do(1));
    var s6 := Apply(s5, Exit(10));
    var s7 := Apply(s6, Started(1, 11));
    ExitDuringLaunch();
    assert Loses(s7, Exit(11));
    var t8 := [Exit(11)] + e7;
    RunCons(s7, Exit(11), e7);
    var t7 := [Started(1, 11)] + t8;
    RunCons(s6, Started(1, 11), t8);
    var t6 := [Exit(10)] + t7;
    RunCons(s5, Exit(10), t7);
    var t5 := [Do(1)] + t6;
    RunCons(s4, Do(1), t6);
    var t4 := [Read(1)] + t5;
    RunCons(s3, Read(1), t5);
    var t3 := [Started(0, 10)] + t4;
    RunCons(s2, Started(0, 10), t4);
    var t2 := [Do(0)] + t3;
    RunCons(s1, Do(0), t3);
    RunCons(s0, Read(0), t2);
    CapNeverExceeded(2, [Read(0)] + t2, more);
  }
}

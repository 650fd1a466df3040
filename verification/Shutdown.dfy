/** ProcessManager.HandleSignals: on a termination signal, TERM every managed process;
    after a timeout KILL what is left; after another, give up. */
module Shutdown {
  import opened Common

  const TIMEOUT: nat := 10_000_000_000  // ten seconds, in nanoseconds

  /** What the loop's select receives; and launches, which other goroutines register. */
  datatype Input =
    | Term(at: nat)
    | Child(at: nat, reaped: seq<int>)  // SIGCHLD, and what Wait4 then yields
    | Timeout(at: nat)
    | Launched(at: nat, pid: int)

  datatype Round = TermRound(at: nat, pids: set<int>) | KillRound(at: nat, pids: set<int>)

  datatype Ending = Going | AllGone(at: nat) | HardExit(at: nat)

  datatype State = State(
    processes: set<int>,
    timeout: Option<nat>,  // when the pending time.After fires
    killSent: bool,
    ending: Ending,
    now: nat,
    rounds: seq<Round>     // history: the signals sent to process groups
  )

  function Initial(processes: set<int>): State { State(processes, None, false, Going, 0, []) }

  /** A timer fires at its time or later, and the clock does not run backwards. */
  predicate Enabled(s: State, i: Input) {
    s.ending.Going? && s.now <= i.at && (i.Timeout? ==> s.timeout.Some? && s.timeout.value <= i.at)
  }

  /** The inner loop: unregister each reaped child, and stop when termination has been
      signalled and no managed process is left. */
  function Reap(processes: set<int>, pids: seq<int>, terminating: bool): (set<int>, bool)
    decreases |pids|
  {
    if pids == [] then (processes, false)
    else
      var left := processes - {pids[0]};
      if left == {} && terminating then (left, true) else Reap(left, pids[1..], terminating)
  }

  function Step(s: State, i: Input): State
    requires Enabled(s, i)
  {
    var t := s.(now := i.at);
    match i
    case Term(at) =>
      if s.processes == {} then t.(ending := AllGone(at))
      else t.(rounds := s.rounds + [TermRound(at, s.processes)], timeout := Some(at + TIMEOUT))
    case Child(at, reaped) =>
      var (left, done) := Reap(s.processes, reaped, s.timeout.Some?);
      t.(processes := left, ending := if done then AllGone(at) else Going)
    case Timeout(at) =>
      if s.killSent then t.(ending := HardExit(at))
      else t.(rounds := s.rounds + [KillRound(at, s.processes)], killSent := true, timeout := Some(at + TIMEOUT))
    case Launched(_, pid) => t.(processes := s.processes + {pid})
  }

  function Apply(s: State, i: Input): State { if Enabled(s, i) then Step(s, i) else s }

  function Run(s: State, inputs: seq<Input>): State
    decreases |inputs|
  {
    if inputs == [] then s else Run(Apply(s, inputs[0]), inputs[1..])
  }

  // ----- the loop itself -----

  class Handler {
    var processes: set<int>
    var rounds: seq<Round>

    constructor (processes: set<int>)
      ensures this.processes == processes && rounds == []
    {
      this.processes, rounds := processes, [];
    }

    /** TerminateAll and KillAll: one signal for each process of a snapshot. */
    method SignalAll() returns (signalled: set<int>)
      ensures signalled == processes
    {
      var snapshot := processes;
      signalled := {};
      while snapshot != {}
        invariant signalled + snapshot == processes
        decreases snapshot
      {
        var pid := Pick(snapshot);
        signalled := signalled + {pid};
        snapshot := snapshot - {pid};
      }
    }

    method ReapChildren(pids: seq<int>, terminating: bool) returns (done: bool)
      modifies this`processes
      ensures (processes, done) == Reap(old(processes), pids, terminating)
    {
      var k := 0;
      while k < |pids|
        invariant 0 <= k <= |pids|
        invariant Reap(processes, pids[k..], terminating) == Reap(old(processes), pids, terminating)
      {
        processes := processes - {pids[k]};
        assert pids[k..][1..] == pids[k + 1..];
        if processes == {} && terminating { return true; }
        k := k + 1;
      }
      return false;
    }

    /** The loop over the given inputs; it stops early when it exits. */
    method HandleSignals(inputs: seq<Input>) returns (ending: Ending, now: nat, ghost final: State)
      requires rounds == []
      modifies this
      ensures final == Run(Initial(old(processes)), inputs)
      ensures processes == final.processes && rounds == final.rounds && ending == final.ending && now == final.now
    {
      var timeout: Option<nat> := None;
      var killSent := false;
      ending, now := Going, 0;
      var k := 0;
      final := Initial(processes);
      while k < |inputs| && ending.Going?
        invariant 0 <= k <= |inputs|
        invariant final == State(processes, timeout, killSent, ending, now, rounds)
        invariant Run(final, inputs[k..]) == Run(Initial(old(processes)), inputs)
      {
        var i := inputs[k];
        assert inputs[k..][1..] == inputs[k + 1..];
        final := Apply(final, i);
        if now <= i.at && (i.Timeout? ==> timeout.Some? && timeout.value <= i.at) {
          now := i.at;
          match i {
            case Child(at, reaped) =>
              var done := ReapChildren(reaped, timeout.Some?);
              if done { ending := AllGone(at); }
            case Term(at) =>
              if processes == {} {
                ending := AllGone(at);
              } else {
                var pids := SignalAll();
                rounds := rounds + [TermRound(at, pids)];
                timeout := Some(at + TIMEOUT);
              }
            case Timeout(at) =>
              if killSent {
                ending := HardExit(at);
              } else {
                var pids := SignalAll();
                rounds := rounds + [KillRound(at, pids)];
                killSent := true;
                timeout := Some(at + TIMEOUT);
              }
            case Launched(_, pid) => processes := processes + {pid};
          }
        }
        k := k + 1;
      }
      if !ending.Going? { EndedStays(final, inputs[k..]); }
    }
  }

  lemma {:induction false} EndedStays(s: State, inputs: seq<Input>)
    requires !s.ending.Going?
    ensures Run(s, inputs) == s
    decreases |inputs|
  {
    if inputs != [] { EndedStays(s, inputs[1..]); }
  }

  // ----- what the rounds satisfy -----

  predicate HasKill(rounds: seq<Round>) { exists k :: 0 <= k < |rounds| && rounds[k].KillRound? }

  /** Every KILL round comes a full timeout after every round before it and is the only
      one, and the pending timer is a full timeout after the last round. */
  ghost predicate RoundsOk(rounds: seq<Round>, timeout: Option<nat>) {
    && (timeout.Some? <==> rounds != [])
    && (forall k :: 0 <= k < |rounds| ==> rounds[k].at + TIMEOUT <= timeout.value)
    && (forall j, k :: 0 <= j < k < |rounds| && rounds[k].KillRound? ==>
                         rounds[j].at + TIMEOUT <= rounds[k].at && rounds[j].TermRound?)
    && (rounds != [] ==> rounds[0].TermRound?)
  }

  ghost predicate Inv(s: State) {
    && RoundsOk(s.rounds, s.timeout)
    && (s.timeout.Some? ==> s.timeout.value <= s.now + TIMEOUT)
    && (s.killSent <==> HasKill(s.rounds))
    && match s.ending
       case Going => true
       case AllGone(at) => s.processes == {} && at == s.now
       case HardExit(at) => at == s.now && s.killSent && s.timeout.Some? && s.timeout.value <= at
  }

  lemma AddRound(rounds: seq<Round>, timeout: Option<nat>, r: Round)
    requires RoundsOk(rounds, timeout)
    requires timeout.Some? ==> timeout.value <= r.at + TIMEOUT
    requires r.KillRound? ==> timeout.Some? && timeout.value <= r.at && !HasKill(rounds)
    ensures RoundsOk(rounds + [r], Some(r.at + TIMEOUT))
    ensures HasKill(rounds + [r]) <==> HasKill(rounds) || r.KillRound?
  {
    var all := rounds + [r];
    if HasKill(rounds) {
      var k :| 0 <= k < |rounds| && rounds[k].KillRound?;
      assert all[k].KillRound?;
    }
    if r.KillRound? { assert all[|rounds|].KillRound?; }
  }

  lemma ReapDone(processes: set<int>, pids: seq<int>, terminating: bool)
    ensures var (left, done) := Reap(processes, pids, terminating);
            left <= processes && (done ==> left == {} && terminating)
    decreases |pids|
  {
    if pids != [] { ReapDone(processes - {pids[0]}, pids[1..], terminating); }
  }

  lemma StepKeepsInv(s: State, i: Input)
    requires Inv(s)
    ensures Inv(Apply(s, i))
  {
    if Enabled(s, i) {
      match i {
        case Term(at) => AddRound(s.rounds, s.timeout, TermRound(at, s.processes));
        case Child(at, reaped) => ReapDone(s.processes, reaped, s.timeout.Some?);
        case Timeout(at) => if !s.killSent { AddRound(s.rounds, s.timeout, KillRound(at, s.processes)); }
        case Launched(_, _) =>
      }
    }
  }

  lemma {:induction false} RunKeepsInv(s: State, inputs: seq<Input>)
    requires Inv(s)
    ensures Inv(Run(s, inputs))
    decreases |inputs|
  {
    if inputs != [] {
      StepKeepsInv(s, inputs[0]);
      RunKeepsInv(Apply(s, inputs[0]), inputs[1..]);
    }
  }

  /** Nothing is killed before a full timeout has passed since the latest TERM round, there
      is one KILL round at most, and the daemon exits only with no managed process left or
      a full timeout after the KILL round and after every TERM round. */
  lemma ExitsAreEarned(processes: set<int>, inputs: seq<Input>)
    ensures var s := Run(Initial(processes), inputs);
            && (forall j, k :: 0 <= j < k < |s.rounds| && s.rounds[k].KillRound? ==>
                                 s.rounds[j].at + TIMEOUT <= s.rounds[k].at)
            && (forall j, k :: 0 <= j < k < |s.rounds| ==> !(s.rounds[j].KillRound? && s.rounds[k].KillRound?))
            && (s.ending.AllGone? ==> s.processes == {})
            && (s.ending.HardExit? ==>
                  && HasKill(s.rounds)
                  && forall k :: 0 <= k < |s.rounds| ==> s.rounds[k].at + TIMEOUT <= s.ending.at)
  {
    RunKeepsInv(Initial(processes), inputs);
  }

  // ----- what one input does -----

  function Pids(reaped: seq<int>): set<int> { set i | 0 <= i < |reaped| :: reaped[i] }

  lemma PidsCons(reaped: seq<int>)
    requires reaped != []
    ensures Pids(reaped) == {reaped[0]} + Pids(reaped[1..])
  {
    forall pid | pid in Pids(reaped) ensures pid in {reaped[0]} + Pids(reaped[1..]) {
      var i :| 0 <= i < |reaped| && reaped[i] == pid;
      assert i > 0 ==> reaped[1..][i - 1] == pid;
    }
    forall pid | pid in Pids(reaped[1..]) ensures pid in Pids(reaped) {
      var i :| 0 <= i < |reaped[1..]| && reaped[1..][i] == pid;
      assert reaped[i + 1] == pid;
    }
  }

  /** The loop reports that all are gone exactly when termination has been signalled, a child
      was reaped, and no process is left; and whatever was reaped is gone. */
  lemma {:induction false} ReapIff(processes: set<int>, reaped: seq<int>, terminating: bool)
    ensures var (left, done) := Reap(processes, reaped, terminating);
            && left == processes - Pids(reaped)
            && (done <==> terminating && reaped != [] && processes <= Pids(reaped))
    decreases |reaped|
  {
    if reaped != [] {
      PidsCons(reaped);
      ReapIff(processes - {reaped[0]}, reaped[1..], terminating);
      if reaped[1..] == [] { assert Pids(reaped[1..]) == {}; }
    } else {
      assert Pids(reaped) == {};
    }
  }

  lemma {:induction false} RunSnoc(s: State, inputs: seq<Input>, i: Input)
    ensures Run(s, inputs + [i]) == Apply(Run(s, inputs), i)
    decreases |inputs|
  {
    if inputs == [] {
      assert [] + [i] == [i] && [i][1..] == [];
      assert Run(Apply(s, i), []) == Apply(s, i);
    } else {
      assert (inputs + [i])[0] == inputs[0] && (inputs + [i])[1..] == inputs[1..] + [i];
      RunSnoc(Apply(s, inputs[0]), inputs[1..], i);
    }
  }

  /** After any run: reaped children are gone, and the daemon exits at that moment exactly when
      termination has been signalled, a child was reaped, and no managed process is left. */
  lemma ExitsWithTheLastChild(processes: set<int>, inputs: seq<Input>, at: nat, reaped: seq<int>)
    requires Enabled(Run(Initial(processes), inputs), Child(at, reaped))
    ensures var s := Run(Initial(processes), inputs);
            var t := Run(Initial(processes), inputs + [Child(at, reaped)]);
            && t.processes == s.processes - Pids(reaped) && t.rounds == s.rounds && t.timeout == s.timeout
            && t.ending == (if s.rounds != [] && reaped != [] && s.processes <= Pids(reaped) then AllGone(at)
                            else Going)
  {
    var s := Run(Initial(processes), inputs);
    RunKeepsInv(Initial(processes), inputs);
    RunSnoc(Initial(processes), inputs, Child(at, reaped));
    ReapIff(s.processes, reaped, s.timeout.Some?);
  }

  /** A termination signal ends the daemon exactly when there is no managed process, and
      else sends SIGTERM to exactly the processes there are and restarts the timer. */
  lemma TermSignalsAll(processes: set<int>, inputs: seq<Input>, at: nat)
    requires Enabled(Run(Initial(processes), inputs), Term(at))
    ensures var s := Run(Initial(processes), inputs);
            var t := Run(Initial(processes), inputs + [Term(at)]);
            && t.processes == s.processes
            && (if s.processes == {} then t.ending == AllGone(at) && t.rounds == s.rounds
                else && t.ending == Going && t.rounds == s.rounds + [TermRound(at, s.processes)]
                     && t.timeout == Some(at + TIMEOUT) && t.killSent == s.killSent)
  {
    RunSnoc(Initial(processes), inputs, Term(at));
  }

  /** A process that is launched meanwhile is managed from then on. */
  lemma LaunchIsManaged(processes: set<int>, inputs: seq<Input>, at: nat, pid: int)
    requires Enabled(Run(Initial(processes), inputs), Launched(at, pid))
    ensures var s := Run(Initial(processes), inputs);
            Run(Initial(processes), inputs + [Launched(at, pid)]) == s.(processes := s.processes + {pid}, now := at)
  {
    RunSnoc(Initial(processes), inputs, Launched(at, pid));
  }

  /** An expired timer sends SIGKILL to exactly the processes there are, unless that was done
      before: then the daemon exits. */
  lemma TimeoutKillsAll(processes: set<int>, inputs: seq<Input>, at: nat)
    requires Enabled(Run(Initial(processes), inputs), Timeout(at))
    ensures var s := Run(Initial(processes), inputs);
            var t := Run(Initial(processes), inputs + [Timeout(at)]);
            && t.processes == s.processes
            && (if HasKill(s.rounds) then t.ending == HardExit(at) && t.rounds == s.rounds
                else && t.ending == Going && t.rounds == s.rounds + [KillRound(at, s.processes)]
                     && t.timeout == Some(at + TIMEOUT))
  {
    RunKeepsInv(Initial(processes), inputs);
    RunSnoc(Initial(processes), inputs, Timeout(at));
  }

  // ----- how long it takes -----

  /** The loop attends to an expired timer within `slack`. */
  predicate Prompt(s: State, inputs: seq<Input>, slack: nat)
    decreases |inputs|
  {
    inputs == []
    || ((Enabled(s, inputs[0]) && s.timeout.Some? ==> inputs[0].at <= s.timeout.value + slack)
        && Prompt(Apply(s, inputs[0]), inputs[1..], slack))
  }

  predicate NoTerm(inputs: seq<Input>) { forall k :: 0 <= k < |inputs| ==> !inputs[k].Term? }

  /** The timer that is running, as counted from the last termination signal. */
  predicate Within(s: State, last: nat, slack: nat) {
    && s.timeout.Some?
    && s.timeout.value <= last + TIMEOUT + (if s.killSent then TIMEOUT + slack else 0)
    && s.now <= last + 2 * (TIMEOUT + slack)
  }

  lemma {:induction false} StaysWithin(s: State, inputs: seq<Input>, last: nat, slack: nat)
    requires Within(s, last, slack) && NoTerm(inputs) && Prompt(s, inputs, slack)
    ensures Within(Run(s, inputs), last, slack)
    ensures Run(s, inputs).ending.Going? ==>
              forall k :: 0 <= k < |inputs| ==> inputs[k].at <= last + 2 * (TIMEOUT + slack)
    decreases |inputs|
  {
    if inputs != [] {
      assert NoTerm(inputs[1..]);
      StaysWithin(Apply(s, inputs[0]), inputs[1..], last, slack);
      if Run(s, inputs).ending.Going? {
        if !s.ending.Going? { EndedStays(s, inputs); }
        forall k | 0 <= k < |inputs| ensures inputs[k].at <= last + 2 * (TIMEOUT + slack) {
          if k > 0 { assert inputs[k] == inputs[1..][k - 1]; }
        }
      }
    }
  }

  /** From the last termination signal on, the loop takes no step later than two timeouts
      (and the slack of two timers); if anything happens later than that, it has exited. */
  lemma ExitsWithinTwoTimeouts(processes: set<int>, before: seq<Input>, last: nat, after: seq<Input>, slack: nat)
    requires var s := Run(Initial(processes), before);
             Enabled(s, Term(last)) && s.processes != {}
             && NoTerm(after) && Prompt(Apply(s, Term(last)), after, slack)
    ensures var t := Run(Apply(Run(Initial(processes), before), Term(last)), after);
            && t.now <= last + 2 * (TIMEOUT + slack)
            && ((exists k :: 0 <= k < |after| && after[k].at > last + 2 * (TIMEOUT + slack)) ==> !t.ending.Going?)
  {
    StaysWithin(Apply(Run(Initial(processes), before), Term(last)), after, last, slack);
  }

  function TimeoutsLeft(s: State): nat {
    if !s.ending.Going? then 0 else if s.killSent then 1 else 2
  }

  function Fired(s: State, inputs: seq<Input>): nat
    decreases |inputs|
  {
    if inputs == [] then 0
    else (if inputs[0].Timeout? && Enabled(s, inputs[0]) then 1 else 0) + Fired(Apply(s, inputs[0]), inputs[1..])
  }

  /** Whatever else happens, the second expiry ends the loop. */
  lemma {:induction false} AtMostTwoTimeouts(s: State, inputs: seq<Input>)
    ensures Fired(s, inputs) + TimeoutsLeft(Run(s, inputs)) <= TimeoutsLeft(s)
    ensures Fired(s, inputs) == 2 ==> Run(s, inputs).ending.HardExit?
    decreases |inputs|
  {
    if inputs != [] {
      AtMostTwoTimeouts(Apply(s, inputs[0]), inputs[1..]);
      SecondTimeoutEnds(s, inputs);
    }
  }

  lemma {:induction false} SecondTimeoutEnds(s: State, inputs: seq<Input>)
    ensures s.killSent && s.ending.Going? && Fired(s, inputs) == 1 ==> Run(s, inputs).ending.HardExit?
    ensures !s.killSent && s.ending.Going? && Fired(s, inputs) == 2 ==> Run(s, inputs).ending.HardExit?
    ensures !s.ending.Going? ==> Fired(s, inputs) == 0
    ensures s.killSent ==> Fired(s, inputs) <= 1
    decreases |inputs|
  {
    if inputs != [] {
      SecondTimeoutEnds(Apply(s, inputs[0]), inputs[1..]);
      if !Apply(s, inputs[0]).ending.Going? { EndedStays(Apply(s, inputs[0]), inputs[1..]); }
    }
  }
}

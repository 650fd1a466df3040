/** Reclaiming instances when concurrency has grown and shrunk again.

    RuntimeAPI.next keeps a timestamp of the last moment at which every instance was
    busy.  When that is too long ago it stamps the present and posts to the one-slot
    shutdown channel, so that some idle instance ends.  Times are nanoseconds. */
module IdlePacing {
  import opened Common

  const NANOS: nat := 1_000_000_000
  const MAX_DURATION: nat := 9_223_372_036_854_775_807

  /** stamp: None is the zero time.  queued: the shutdown channel holds an item. */
  datatype Pacer = Pacer(stamp: Option<nat>, queued: bool)

  /** Whole seconds since the stamp; a Duration saturates, as it does for the zero time. */
  function Elapsed(stamp: Option<nat>, now: nat): nat
    requires stamp.Some? ==> stamp.value <= now
  {
    if stamp.None? || now - stamp.value > MAX_DURATION then MAX_DURATION / NANOS else (now - stamp.value) / NANOS
  }

  /** RegisterLambdaRuntime stamps the present. */
  function AtLaunch(p: Pacer, t: nat): Pacer { p.(stamp := Some(t)) }

  /** The pacing part of `next`, which reads the clock up to three times.
      full: as many requests pending as there are instances. */
  function AtStore(p: Pacer, idleTimeout: nat, full: bool, t1: nat, t2: nat, t3: nat): (Pacer, bool)
    requires t1 <= t2 <= t3 && (p.stamp.Some? ==> p.stamp.value <= t1)
  {
    var stamp := if full then Some(t1) else p.stamp;
    if Elapsed(stamp, t2) > idleTimeout
    then (Pacer(Some(t3), true), true)  // a full channel drops the signal
    else (p.(stamp := stamp), false)
  }

  // ----- runs -----

  /** A signal is decided on at one reading of the clock, and stamped at the next. */
  datatype Mark = Launched(at: nat) | FullAt(at: nat) | Signalled(at: nat, stamped: nat)

  datatype State = State(pacer: Pacer, now: nat, log: seq<Mark>, shutdowns: nat)

  datatype Event =
    | Launch(t: nat)
    | Store(full: bool, t1: nat, t2: nat, t3: nat)
    | Shutdown  // a waiting `next` handler takes the item and ends its instance

  const INITIAL: State := State(Pacer(None, false), 0, [], 0)

  predicate Enabled(s: State, e: Event) {
    match e
    case Launch(t) => s.now <= t
    case Store(_, t1, t2, t3) => s.now <= t1 <= t2 <= t3
    case Shutdown => s.pacer.queued
  }

  function Apply(s: State, e: Event, idleTimeout: nat): (t: State)
    requires s.pacer.stamp.Some? ==> s.pacer.stamp.value <= s.now
    ensures t.pacer.stamp.Some? ==> t.pacer.stamp.value <= t.now
  {
    if !Enabled(s, e) then s
    else
      match e
      case Launch(t) => s.(pacer := AtLaunch(s.pacer, t), now := t, log := s.log + [Launched(t)])
      case Store(full, t1, t2, t3) =>
        var (p, signal) := AtStore(s.pacer, idleTimeout, full, t1, t2, t3);
        s.(pacer := p, now := t3,
           log := s.log + (if full then [FullAt(t1)] else []) + (if signal then [Signalled(t2, t3)] else []))
      case Shutdown => s.(pacer := s.pacer.(queued := false), shutdowns := s.shutdowns + 1)
  }

  /** The least distance between a signal and anything marked before it. */
  function Pause(idleTimeout: nat): (p: nat)
    ensures p > 0
  {
    (idleTimeout + 1) * NANOS
  }

  function Signals(log: seq<Mark>): nat {
    if log == [] then 0 else Signals(log[..|log| - 1]) + (if log[|log| - 1].Signalled? then 1 else 0)
  }

  /** Every signal comes at least a pause after every earlier launch, recorded
      full-occupancy moment, and signal. */
  ghost predicate Spaced(log: seq<Mark>, idleTimeout: nat) {
    forall i, j :: 0 <= i < j < |log| && log[j].Signalled? ==> log[i].at + Pause(idleTimeout) <= log[j].at
  }

  ghost predicate LogInv(log: seq<Mark>, stamp: Option<nat>, idleTimeout: nat) {
    && (log != [] <==> stamp.Some?)
    && (forall i :: 0 <= i < |log| ==> log[i].at <= stamp.value)
    && Spaced(log, idleTimeout)
    && (log != [] ==> log[0].at + Signals(log[1..]) * Pause(idleTimeout) <= stamp.value)
  }

  ghost predicate Inv(s: State, idleTimeout: nat) {
    && LogInv(s.log, s.pacer.stamp, idleTimeout)
    && (s.pacer.stamp.Some? ==> s.pacer.stamp.value <= s.now)
    && s.shutdowns + (if s.pacer.queued then 1 else 0) <= Signals(s.log)
  }

  lemma ElapsedLongEnough(stamp: nat, now: nat, idleTimeout: nat)
    requires stamp <= now && Elapsed(Some(stamp), now) > idleTimeout
    ensures stamp + Pause(idleTimeout) <= now
  {
    var d := now - stamp;
    assert (idleTimeout + 1) * NANOS <= (d / NANOS) * NANOS <= d;
  }

  /** Marking a moment that is no earlier than the stamp, and for a signal a pause later. */
  lemma MarkKeepsInv(log: seq<Mark>, stamp: Option<nat>, m: Mark, at: nat, idleTimeout: nat)
    requires LogInv(log, stamp, idleTimeout)
    requires m.at <= at && (stamp.Some? ==> stamp.value <= m.at)
    requires m.Signalled? && stamp.Some? ==> stamp.value + Pause(idleTimeout) <= m.at
    ensures LogInv(log + [m], Some(at), idleTimeout)
    ensures Signals(log + [m]) == Signals(log) + (if m.Signalled? then 1 else 0)
  {
    hide Pause;
    var log' := log + [m];
    assert log'[..|log'| - 1] == log;
    if log == [] {
      assert log'[1..] == [];
    } else {
      assert log'[1..][..|log'[1..]| - 1] == log[1..];
      assert Signals(log'[1..]) == Signals(log[1..]) + (if m.Signalled? then 1 else 0);
      OneMorePause(Signals(log[1..]), Pause(idleTimeout));
    }
  }

  lemma OneMorePause(k: nat, p: nat)
    ensures (k + 1) * p == k * p + p
  {
  }

  lemma StoreKeepsLogInv(s: State, e: Event, idleTimeout: nat)
    requires LogInv(s.log, s.pacer.stamp, idleTimeout) && e.Store? && Enabled(s, e)
    requires s.pacer.stamp.Some? ==> s.pacer.stamp.value <= s.now
    ensures var (p, signal) := AtStore(s.pacer, idleTimeout, e.full, e.t1, e.t2, e.t3);
            var log := s.log + (if e.full then [FullAt(e.t1)] else [])
                       + (if signal then [Signalled(e.t2, e.t3)] else []);
            && LogInv(log, p.stamp, idleTimeout)
            && Signals(log) == Signals(s.log) + (if signal then 1 else 0)
  {
    var log, stamp := s.log, s.pacer.stamp;
    if e.full {
      MarkKeepsInv(log, stamp, FullAt(e.t1), e.t1, idleTimeout);
      log, stamp := log + [FullAt(e.t1)], Some(e.t1);
    }
    assert log == s.log + (if e.full then [FullAt(e.t1)] else []);
    if Elapsed(stamp, e.t2) > idleTimeout {
      if stamp.Some? { ElapsedLongEnough(stamp.value, e.t2, idleTimeout); }
      MarkKeepsInv(log, stamp, Signalled(e.t2, e.t3), e.t3, idleTimeout);
    } else {
      assert log + [] == log;
    }
  }

  lemma StepKeepsInv(s: State, e: Event, idleTimeout: nat)
    requires Inv(s, idleTimeout)
    ensures Inv(Apply(s, e, idleTimeout), idleTimeout)
  {
    hide LogInv, Elapsed, Pause;
    if Enabled(s, e) {
      match e {
        case Launch(t) => MarkKeepsInv(s.log, s.pacer.stamp, Launched(t), t, idleTimeout);
        case Store(full, t1, t2, t3) => StoreKeepsLogInv(s, e, idleTimeout);
        case Shutdown =>
      }
    }
  }

  function Run(s: State, es: seq<Event>, idleTimeout: nat): (t: State)
    requires s.pacer.stamp.Some? ==> s.pacer.stamp.value <= s.now
    ensures t.pacer.stamp.Some? ==> t.pacer.stamp.value <= t.now
    decreases |es|
  {
    if es == [] then s else Run(Apply(s, es[0], idleTimeout), es[1..], idleTimeout)
  }

  lemma {:induction false} RunKeepsInv(s: State, es: seq<Event>, idleTimeout: nat)
    requires Inv(s, idleTimeout)
    ensures Inv(Run(s, es, idleTimeout), idleTimeout)
    decreases |es|
  {
    if es != [] {
      StepKeepsInv(s, es[0], idleTimeout);
      RunKeepsInv(Apply(s, es[0], idleTimeout), es[1..], idleTimeout);
    }
  }

  /** In a run that lasts T after its first mark, at most T / (idleTimeout + 1) seconds'
      worth of signals follow that mark; each is a full pause after everything before it;
      and no more instances are ended than signals were given. */
  lemma SignalsArePaced(es: seq<Event>, idleTimeout: nat)
    ensures var s := Run(INITIAL, es, idleTimeout);
            && Spaced(s.log, idleTimeout)
            && s.shutdowns <= Signals(s.log)
            && (s.log != [] ==>
                  && s.log[0].at <= s.now
                  && Signals(s.log[1..]) <= (s.now - s.log[0].at) / Pause(idleTimeout)
                  && Signals(s.log) <= Signals(s.log[1..]) + 1
                  && (s.log[0].Launched? ==> Signals(s.log) == Signals(s.log[1..])))
  {
    RunKeepsInv(INITIAL, es, idleTimeout);
    hide Run, Pause, Spaced;
    var s := Run(INITIAL, es, idleTimeout);
    if s.log != [] {
      var k, p := Signals(s.log[1..]), Pause(idleTimeout);
      var d := s.now - s.log[0].at;
      assert k * p <= d;
      QuotientBound(k, p, d);
      SignalsSplit(s.log);
    }
  }

  lemma MulLess(a: nat, b: nat, p: nat)
    requires a * p < b * p
    ensures a < b
  {
  }

  lemma QuotientBound(k: nat, p: nat, d: nat)
    requires k * p <= d && p > 0
    ensures k <= d / p
  {
    assert d < (d / p + 1) * p;
    MulLess(k, d / p + 1, p);
  }

  lemma {:induction false} SignalsSplit(log: seq<Mark>)
    requires log != []
    ensures Signals(log) == Signals(log[1..]) + (if log[0].Signalled? then 1 else 0)
  {
    var n := |log|;
    if n == 1 {
      assert log[..0] == [] && log[1..] == [];
    } else {
      SignalsSplit(log[..n - 1]);
      assert log[..n - 1][1..] == log[1..][..n - 2];
    }
  }

  // ----- when a signal is given -----

  function Moment(m: Mark): nat { if m.Signalled? then m.stamped else m.at }

  /** The last launch, recorded full-occupancy moment, or signal. */
  function LastMoment(log: seq<Mark>): Option<nat> {
    if log == [] then None else Some(Moment(log[|log| - 1]))
  }

  /** The timestamp is that moment, and nothing else refreshes it. */
  ghost predicate Stamped(s: State) { s.pacer.stamp == LastMoment(s.log) }

  lemma StampedStep(s: State, e: Event, idleTimeout: nat)
    requires Inv(s, idleTimeout) && Stamped(s)
    ensures Stamped(Apply(s, e, idleTimeout))
  {
  }

  lemma {:induction false} StampedRun(s: State, es: seq<Event>, idleTimeout: nat)
    requires Inv(s, idleTimeout) && Stamped(s)
    ensures Stamped(Run(s, es, idleTimeout))
    decreases |es|
  {
    if es != [] {
      StampedStep(s, es[0], idleTimeout);
      StepKeepsInv(s, es[0], idleTimeout);
      StampedRun(Apply(s, es[0], idleTimeout), es[1..], idleTimeout);
    }
  }

  /** The time from a moment to now, as a Duration: it saturates, and from no moment it is the
      longest there is. */
  function Since(moment: Option<nat>, now: nat): nat
    requires moment.Some? ==> moment.value <= now
  {
    var d := if moment.Some? then now - moment.value else MAX_DURATION;
    if d > MAX_DURATION then MAX_DURATION else d
  }

  /** One pass gives a signal exactly when, by the clock of `next`, more than idleTimeout whole
      seconds have passed since the stamp, which full occupancy has just renewed. */
  lemma SignalIff(p: Pacer, idleTimeout: nat, full: bool, t1: nat, t2: nat, t3: nat)
    requires t1 <= t2 <= t3 && (p.stamp.Some? ==> p.stamp.value <= t1)
    ensures AtStore(p, idleTimeout, full, t1, t2, t3).1
       <==> Pause(idleTimeout) <= Since(if full then Some(t1) else p.stamp, t2)
  {
    var stamp := if full then Some(t1) else p.stamp;
    var d := Since(stamp, t2);
    assert Elapsed(stamp, t2) == d / NANOS;
    if d / NANOS > idleTimeout {
      assert (idleTimeout + 1) * NANOS <= (d / NANOS) * NANOS <= d;
    }
  }

  lemma StoreSignals(s: State, idleTimeout: nat, full: bool, t1: nat, t2: nat, t3: nat)
    requires Inv(s, idleTimeout) && Stamped(s) && s.now <= t1 <= t2 <= t3
    ensures var t := Apply(s, Store(full, t1, t2, t3), idleTimeout);
            var moment := if full then Some(t1) else LastMoment(s.log);
            && (moment.Some? ==> moment.value <= t2)
            && Signals(t.log) == Signals(s.log) + (if Pause(idleTimeout) <= Since(moment, t2) then 1 else 0)
            && (t.pacer.queued <==> s.pacer.queued || Signals(t.log) > Signals(s.log))
  {
    StoreKeepsLogInv(s, Store(full, t1, t2, t3), idleTimeout);
    SignalIff(s.pacer, idleTimeout, full, t1, t2, t3);
    hide LogInv, Pause, Since, Elapsed, Signals;
  }

  /** Over any run: a store gives a signal exactly when a full pause has passed since the last
      launch, recorded full moment or signal in the history, or since this very full moment;
      a signal given is queued, and nothing but a signal is. */
  lemma StoreSignalsIff(es: seq<Event>, idleTimeout: nat, full: bool, t1: nat, t2: nat, t3: nat)
    requires Run(INITIAL, es, idleTimeout).now <= t1 <= t2 <= t3
    ensures var s := Run(INITIAL, es, idleTimeout);
            var t := Apply(s, Store(full, t1, t2, t3), idleTimeout);
            var moment := if full then Some(t1) else LastMoment(s.log);
            && (moment.Some? ==> moment.value <= t2)
            && Signals(t.log) == Signals(s.log) + (if Pause(idleTimeout) <= Since(moment, t2) then 1 else 0)
            && (t.pacer.queued <==> s.pacer.queued || Signals(t.log) > Signals(s.log))
  {
    RunKeepsInv(INITIAL, es, idleTimeout);
    StampedRun(INITIAL, es, idleTimeout);
    hide Run, Apply, LogInv, Pause, Since, Signals;
    StoreSignals(Run(INITIAL, es, idleTimeout), idleTimeout, full, t1, t2, t3);
  }

  /** Traffic that never fills all instances, and ends none either. */
  predicate Quiet(es: seq<Event>) { forall i :: 0 <= i < |es| ==> es[i].Store? && !es[i].full }

  lemma {:induction false} QuietRun(s: State, es: seq<Event>, idleTimeout: nat)
    requires Inv(s, idleTimeout) && Stamped(s) && Quiet(es)
    ensures var t := Run(s, es, idleTimeout);
            && Inv(t, idleTimeout) && Stamped(t) && Signals(s.log) <= Signals(t.log)
            && (Signals(t.log) == Signals(s.log) ==> t.pacer == s.pacer)
            && (t.pacer.queued <==> s.pacer.queued || Signals(t.log) > Signals(s.log))
    decreases |es|
  {
    if es != [] {
      QuietStep(s, es[0], idleTimeout);
      hide Apply, Inv, LogInv, Stamped, Signals;
      QuietRun(Apply(s, es[0], idleTimeout), es[1..], idleTimeout);
    }
  }

  lemma QuietStep(s: State, e: Event, idleTimeout: nat)
    requires Inv(s, idleTimeout) && Stamped(s) && e.Store? && !e.full
    ensures var t := Apply(s, e, idleTimeout);
            && Inv(t, idleTimeout) && Stamped(t) && Signals(s.log) <= Signals(t.log)
            && (Signals(t.log) == Signals(s.log) ==> t.pacer == s.pacer)
            && (t.pacer.queued <==> s.pacer.queued || Signals(t.log) > Signals(s.log))
  {
    StepKeepsInv(s, e, idleTimeout);
    StampedStep(s, e, idleTimeout);
    hide LogInv, Elapsed, Pause;
    if Enabled(s, e) { StoreKeepsLogInv(s, e, idleTimeout); }
  }

  /** However steady such traffic is, once a full pause is over a signal has been given and is
      queued: surplus instances are reclaimed. */
  lemma SteadyTrafficSignals(es: seq<Event>, more: seq<Event>, idleTimeout: nat, t1: nat, t2: nat, t3: nat)
    requires Quiet(more) && Pause(idleTimeout) <= MAX_DURATION
    requires var s := Run(INITIAL, es, idleTimeout);
             && Run(s, more, idleTimeout).now <= t1 <= t2 <= t3
             && (LastMoment(s.log).Some? ==> LastMoment(s.log).value + Pause(idleTimeout) <= t2)
    ensures var s := Run(INITIAL, es, idleTimeout);
            var t := Apply(Run(s, more, idleTimeout), Store(false, t1, t2, t3), idleTimeout);
            Signals(t.log) > Signals(s.log) && t.pacer.queued
  {
    RunKeepsInv(INITIAL, es, idleTimeout);
    StampedRun(INITIAL, es, idleTimeout);
    var s := Run(INITIAL, es, idleTimeout);
    QuietRun(s, more, idleTimeout);
    hide Run, Apply, LogInv, Pause, Signals;
    StoreSignals(Run(s, more, idleTimeout), idleTimeout, false, t1, t2, t3);
  }

  predicate NobodyEnds(es: seq<Event>) { forall i :: 0 <= i < |es| ==> !es[i].Shutdown? }

  /** A queued signal waits for the handler that takes it, and ends one instance. */
  lemma {:induction false} QueuedUntilTaken(s: State, es: seq<Event>, idleTimeout: nat)
    requires Inv(s, idleTimeout) && s.pacer.queued && NobodyEnds(es)
    ensures var t := Run(s, es, idleTimeout);
            && t.pacer.queued && t.shutdowns == s.shutdowns && Inv(t, idleTimeout)
            && Apply(t, Shutdown, idleTimeout)
               == t.(pacer := t.pacer.(queued := false), shutdowns := t.shutdowns + 1)
    decreases |es|
  {
    if es != [] {
      StepKeepsInv(s, es[0], idleTimeout);
      QueuedUntilTaken(Apply(s, es[0], idleTimeout), es[1..], idleTimeout);
    }
  }
}

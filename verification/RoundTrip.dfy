/** Whole journeys of one invocation: from a cold start to its answer, and out again when its
    context ends. */
module RoundTrip {
  import opened Common
  import opened Rendezvous

  // ----- giving up -----

  /** The steps that are left to a caller whose context has ended. */
  function WayOut(v: nat, phase: Phase): seq<Event> {
    match phase
    case Trying => [GiveUp(v), Expire(v), Delete(v)]
    case Initialising => [InitReturns(v), GiveUp(v), Expire(v), Delete(v)]
    case Offering => [GiveUp(v), Expire(v), Delete(v)]
    case Forwarding(_) => [Forward(v), Expire(v), Delete(v)]
    case Awaiting => [Expire(v), Delete(v)]
    case Deleting => [Delete(v)]
    case Finished(_) => []
  }

  function OutcomeOf(ctx: Ctx): Outcome { if ctx.DeadlineExceeded? then TimedOut else Abandoned }

  lemma FromDeleting(s: State, v: nat)
    requires InPhase(s, v, Deleting)
    ensures InPhase(Run(s, [Delete(v)]), v, Finished(OutcomeOf(s.invs[v].ctx)))
    ensures s.invs[v].cid !in Run(s, [Delete(v)]).pending
  {
    assert Apply(s, Delete(v)) == DoDelete(s, v);
    RunOne(s, Delete(v));
  }

  lemma RunOne(s: State, e: Event)
    ensures Run(s, [e]) == Apply(s, e)
  {
    hide Apply;
    assert [e][1..] == [];
    assert Run(Apply(s, e), []) == Apply(s, e);
  }

  lemma RunStep(s: State, e: Event, es: seq<Event>)
    ensures Run(s, [e] + es) == Run(Apply(s, e), es)
  {
    hide Apply;
    assert ([e] + es)[0] == e && ([e] + es)[1..] == es;
  }

  lemma FromAwaiting(s: State, v: nat)
    requires InPhase(s, v, Awaiting) && !s.invs[v].ctx.Live?
    ensures InPhase(Run(s, [Expire(v), Delete(v)]), v, Finished(OutcomeOf(s.invs[v].ctx)))
    ensures s.invs[v].cid !in Run(s, [Expire(v), Delete(v)]).pending
  {
    var t := Put(s, v, s.invs[v].(phase := Deleting));
    assert Apply(s, Expire(v)) == t;
    assert [Expire(v), Delete(v)] == [Expire(v)] + [Delete(v)];
    RunStep(s, Expire(v), [Delete(v)]);
    FromDeleting(t, v);
  }

  lemma FromOffer(s: State, v: nat)
    requires Offered(s, v) && !s.invs[v].ctx.Live?
    ensures var t := Run(s, [GiveUp(v), Expire(v), Delete(v)]);
            InPhase(t, v, Finished(OutcomeOf(s.invs[v].ctx))) && s.invs[v].cid !in t.pending
  {
    var t := Put(s, v, s.invs[v].(phase := Awaiting));
    assert Apply(s, GiveUp(v)) == t;
    assert [GiveUp(v), Expire(v), Delete(v)] == [GiveUp(v)] + [Expire(v), Delete(v)];
    RunStep(s, GiveUp(v), [Expire(v), Delete(v)]);
    FromAwaiting(t, v);
  }

  lemma FromInit(s: State, v: nat)
    requires InPhase(s, v, Initialising) && !s.invs[v].ctx.Live?
    ensures var t := Run(s, [InitReturns(v), GiveUp(v), Expire(v), Delete(v)]);
            InPhase(t, v, Finished(OutcomeOf(s.invs[v].ctx))) && s.invs[v].cid !in t.pending
  {
    var t := Put(s, v, s.invs[v].(phase := Offering));
    assert Apply(s, InitReturns(v)) == t;
    var rest := [GiveUp(v), Expire(v), Delete(v)];
    assert [InitReturns(v), GiveUp(v), Expire(v), Delete(v)] == [InitReturns(v)] + rest;
    RunStep(s, InitReturns(v), rest);
    FromOffer(t, v);
  }

  lemma FromForwarding(s: State, v: nat)
    requires Inv(s) && v in s.invs && s.invs[v].phase.Forwarding? && !s.invs[v].ctx.Live?
    ensures var t := Run(s, [Forward(v), Expire(v), Delete(v)]);
            InPhase(t, v, Finished(OutcomeOf(s.invs[v].ctx))) && s.invs[v].cid !in t.pending
  {
    assert InvocationOk(s.invs[v], v, s.log);
    var t := Apply(s, Forward(v));
    assert InPhase(t, v, Awaiting) && t.invs[v].ctx == s.invs[v].ctx && t.invs[v].cid == s.invs[v].cid;
    assert [Forward(v), Expire(v), Delete(v)] == [Forward(v)] + [Expire(v), Delete(v)];
    RunStep(s, Forward(v), [Expire(v), Delete(v)]);
    FromAwaiting(t, v);
  }

  /** From wherever it is, a caller whose context has ended can return by steps of its own:
      with the time-out after a deadline, with nothing after a cancellation, and with no
      entry under its ID. */
  lemma CallerCanReturn(s: State, v: nat)
    requires Inv(s) && v in s.invs && !s.invs[v].phase.Finished? && !s.invs[v].ctx.Live?
    ensures var t := Run(s, WayOut(v, s.invs[v].phase));
            InPhase(t, v, Finished(OutcomeOf(s.invs[v].ctx))) && s.invs[v].cid !in t.pending
  {
    hide Inv, Apply, Run;
    match s.invs[v].phase {
      case Trying => FromOffer(s, v);
      case Initialising => FromInit(s, v);
      case Offering => FromOffer(s, v);
      case Forwarding(_) => FromForwarding(s, v);
      case Awaiting => FromAwaiting(s, v);
      case Deleting => FromDeleting(s, v);
    }
  }

  // ----- Runtimes that stop waiting, and come back -----

  predicate NeverAsks(es: seq<Event>, r: nat) { forall i :: 0 <= i < |es| ==> es[i] != NextCall(r) }

  /** Runtime r has no `next` call open. */
  predicate Away(s: State, r: nat) { r in s.runtimes && !s.runtimes[r].Waiting? }

  lemma AwayLookup(s: State, p: nat, cid: Cid, body: Option<Bytes>, from: Option<nat>, r: nat)
    requires Away(s, r) && Enabled(s, Lookup(p, cid, body, from))
    ensures Away(Step(s, Lookup(p, cid, body, from)), r)
  {
    assert DoLookup(RecordPost(s, cid, body), p, cid, body).runtimes == s.runtimes;
  }

  lemma AwayStep(s: State, e: Event, r: nat)
    requires Away(s, r) && e != NextCall(r)
    ensures Away(Apply(s, e), r)
  {
    if Enabled(s, e) {
      match e {
        case Lookup(p, cid, body, from) => AwayLookup(s, p, cid, body, from, r);
        case HandOver(v, q) => assert Away(DoHandOver(s, v, q), r);
        case Store(q) => assert Away(DoStore(s, q, s.runtimes[q].inv), r);
        case Exit(q) => assert Away(DoExit(s, q), r);
        case Send(p) => assert Away(DoSend(s, p), r);
        case Delete(v) => assert Away(DoDelete(s, v), r);
        case _ =>
      }
    }
  }

  lemma {:induction false} AwayRun(s: State, es: seq<Event>, r: nat)
    requires Away(s, r) && NeverAsks(es, r)
    ensures Away(Run(s, es), r)
    decreases |es|
  {
    if es != [] {
      AwayStep(s, es[0], r);
      AwayRun(Apply(s, es[0]), es[1..], r);
    }
  }

  /** Once a `next` call has ended, by its idle time-out or a shutdown signal, nothing is handed
      to that Runtime until it asks again. */
  lemma EndedCallTakesNothing(s: State, r: nat, es: seq<Event>, v: nat)
    requires RuntimeIs(s, r, Waiting) && NeverAsks(es, r)
    ensures Enabled(s, NextEnds(r)) && !Enabled(Run(Apply(s, NextEnds(r)), es), HandOver(v, r))
  {
    AwayRun(Apply(s, NextEnds(r)), es, r);
  }

  /** A Runtime that drops its invocation, or has answered it, can ask for the next one. */
  lemma AsksAgain(s: State, r: nat, p: nat, body: Option<Bytes>)
    requires r in s.runtimes && s.runtimes[r].Busy?
    ensures RuntimeIs(Apply(Apply(s, Abandon(r)), NextCall(r)), r, Waiting)
    ensures p !in s.posters && s.runtimes[r].inv in s.invs ==>
              var t := Apply(s, Lookup(p, s.invs[s.runtimes[r].inv].cid, body, Some(r)));
              RuntimeIs(Apply(t, NextCall(r)), r, Waiting)
  {
    if p !in s.posters && s.runtimes[r].inv in s.invs {
      var e := Lookup(p, s.invs[s.runtimes[r].inv].cid, body, Some(r));
      assert Enabled(s, e);
      assert RuntimeIs(Apply(s, e), r, Idle);
    }
  }

  // ----- a cold start -----

  /** A new invocation finds no Runtime waiting, and starts one. */
  function Launches(v: nat, cid: Cid, r: nat): seq<Event> {
    [Spawn(v, cid), Default(v), InitReturns(v)] + [Register(r), NextCall(r)]
  }

  function Launched(s: State, v: nat, cid: Cid, r: nat): State {
    s.(invs := s.invs[v := Invocation(cid, Offering, Live, None, Unoffered, 0)],
       processes := s.processes + {r}, runtimes := s.runtimes[r := Waiting])
  }

  lemma Offers(s: State, v: nat, cid: Cid)
    requires v !in s.invs && forall r :: r in s.runtimes ==> !s.runtimes[r].Waiting?
    ensures Run(s, [Spawn(v, cid), Default(v), InitReturns(v)])
         == Put(s, v, Invocation(cid, Offering, Live, None, Unoffered, 0))
  {
    var s1 := Put(s, v, Invocation(cid, Trying, Live, None, Unoffered, 0));
    assert Apply(s, Spawn(v, cid)) == s1;
    var s2 := Put(s, v, Invocation(cid, Initialising, Live, None, Unoffered, 0));
    assert Apply(s1, Default(v)) == s2;
    var s3 := Put(s, v, Invocation(cid, Offering, Live, None, Unoffered, 0));
    assert Apply(s2, InitReturns(v)) == s3;
    hide Apply, Run;
    RunThree(s, Spawn(v, cid), Default(v), InitReturns(v));
  }

  lemma ComesUp(s: State, r: nat)
    requires r !in s.runtimes
    ensures Run(s, [Register(r), NextCall(r)])
         == s.(processes := s.processes + {r}, runtimes := s.runtimes[r := Waiting])
  {
    var t := s.(processes := s.processes + {r});
    assert Apply(s, Register(r)) == t;
    assert Apply(t, NextCall(r)) == SetRuntime(t, r, Waiting);
    hide Apply, Run;
    RunTwo(s, Register(r), NextCall(r));
  }

  lemma Launching(s: State, v: nat, cid: Cid, r: nat)
    requires v !in s.invs && r !in s.runtimes && forall q :: q in s.runtimes ==> !s.runtimes[q].Waiting?
    ensures Run(s, Launches(v, cid, r)) == Launched(s, v, cid, r)
  {
    hide Run;
    Offers(s, v, cid);
    ComesUp(Put(s, v, Invocation(cid, Offering, Live, None, Unoffered, 0)), r);
    RunConcat(s, [Spawn(v, cid), Default(v), InitReturns(v)], [Register(r), NextCall(r)]);
  }

  /** The Runtime takes it and posts a body for it, and the caller receives that. */
  function Answers(v: nat, cid: Cid, r: nat, p: nat, body: Bytes): seq<Event> {
    [HandOver(v, r), Store(r)] + [Lookup(p, cid, Some(body), Some(r)), Send(p), Receive(v)]
  }

  lemma TakesAndStores(s: State, v: nat, r: nat)
    requires InPhase(s, v, Offering) && s.invs[v].buffer.None? && RuntimeIs(s, r, Waiting)
    ensures var t := Run(s, [HandOver(v, r), Store(r)]);
            && t.invs == s.invs[v := s.invs[v].(phase := Awaiting, token := Stored(r))]
            && t.pending == s.pending[s.invs[v].cid := v] && t.posters == s.posters
            && t.runtimes == s.runtimes[r := Busy(v)] && t.processes == s.processes
  {
    var t := DoHandOver(s, v, r);
    assert Apply(s, HandOver(v, r)) == t;
    assert Apply(t, Store(r)) == DoStore(t, r, v);
    hide Apply, Run;
    RunTwo(s, HandOver(v, r), Store(r));
  }

  lemma LooksUp(s: State, v: nat, r: nat, p: nat, body: Bytes)
    requires InPhase(s, v, Awaiting) && s.invs[v].buffer.None? && RuntimeIs(s, r, Busy(v)) && p !in s.posters
    requires s.invs[v].cid in s.pending && s.pending[s.invs[v].cid] == v
    ensures var x := s.invs[v].cid;
            var t := Apply(s, Lookup(p, x, Some(body), Some(r)));
            && t.invs == s.invs[v := s.invs[v].(token := Posting(p))] && t.pending == s.pending - {x}
            && t.posters == s.posters[p := Poster(v, Posted(x, body))]
            && t.runtimes == s.runtimes[r := Idle] && t.processes == s.processes
  {
    var x := s.invs[v].cid;
    var u := RecordPost(s, x, Some(body));
    var t := DoLookup(u, p, x, Some(body));
    assert Enabled(s, Lookup(p, x, Some(body), Some(r)));
    assert t.invs == s.invs[v := s.invs[v].(token := Discarded)][v := s.invs[v].(token := Posting(p))];
  }

  lemma SendsAndReceives(s: State, v: nat, p: nat, a: Answer)
    requires InPhase(s, v, Awaiting) && s.invs[v].buffer.None? && p in s.posters && s.posters[p] == Poster(v, a)
    ensures var t := Apply(Apply(s, Send(p)), Receive(v));
            && InPhase(t, v, Finished(Answered(a))) && t.pending == s.pending
            && t.runtimes == s.runtimes && t.processes == s.processes
  {
    assert Apply(s, Send(p)) == DoSend(s, p);
  }

  /** A cold start, whatever else is going on: an invocation that finds nobody waiting starts an
      instance, which takes it and answers it; the caller returns exactly the posted bytes,
      its entry is gone, and the instance is idle and ready for more. */
  lemma ColdStart(s: State, v: nat, cid: Cid, r: nat, p: nat, body: Bytes)
    requires v !in s.invs && r !in s.runtimes && p !in s.posters
    requires forall q :: q in s.runtimes ==> !s.runtimes[q].Waiting?
    ensures var t := Run(s, Launches(v, cid, r) + Answers(v, cid, r, p, body));
            && InPhase(t, v, Finished(Answered(Posted(cid, body))))
            && t.pending == s.pending - {cid}
            && t.processes == s.processes + {r} && RuntimeIs(t, r, Idle) && Enabled(t, NextCall(r))
  {
    hide Run, Apply;
    var s1 := Launched(s, v, cid, r);
    Launching(s, v, cid, r);
    TakesAndStores(s1, v, r);
    var s2 := Run(s1, [HandOver(v, r), Store(r)]);
    LooksUp(s2, v, r, p, body);
    var s3 := Apply(s2, Lookup(p, cid, Some(body), Some(r)));
    SendsAndReceives(s3, v, p, Posted(cid, body));
    assert s.pending[cid := v] - {cid} == s.pending - {cid};
    RunThree(s2, Lookup(p, cid, Some(body), Some(r)), Send(p), Receive(v));
    RunConcat(s1, [HandOver(v, r), Store(r)], [Lookup(p, cid, Some(body), Some(r)), Send(p), Receive(v)]);
    RunConcat(s, Launches(v, cid, r), Answers(v, cid, r, p, body));
  }
}

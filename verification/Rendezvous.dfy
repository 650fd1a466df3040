/** The invocation rendezvous of the daemon.

    A call of RAPIInvoker.invoke offers its request on an unbuffered channel, a
    Runtime's `next` handler takes it and parks its private response channel in
    pendingRequests, and a `response` handler takes the channel back out and sends
    to it.  Timeouts, client cancellations, init errors, duplicate request IDs,
    stray responses, Runtimes that crash, and lost handlers may strike between any
    two steps.

    One event is one critical section under the RuntimeAPI lock, or one channel
    operation. */
module Rendezvous {
  import opened Common

  type Cid = string
  type Bytes = seq<bv8>

  /** What is sent on a response channel, tagged with where it came from. */
  datatype Answer = Posted(id: Cid, body: Bytes) | InitError(serial: nat, body: Bytes)

  datatype Outcome = Answered(answer: Answer) | TimedOut | Abandoned | Panicked

  datatype Ctx = Live | DeadlineExceeded | ClientCancelled

  /** Where the code of invoke stands. */
  datatype Phase =
    | Trying                     // the select with a default branch
    | Initialising               // inside RuntimeAPI.Init
    | Offering                   // the blocking select
    | Forwarding(error: Answer)  // has taken an init error, sends it to its own channel next
    | Awaiting                   // the select on the response
    | Deleting                   // chose ctx.Done, calls DeleteRequest next
    | Finished(outcome: Outcome)

  /** Who holds the sending end of the response channel. */
  datatype Token =
    Unoffered | Forfeit | Held(runtime: nat) | Stored(runtime: nat) | Posting(poster: nat) | Sent | Discarded

  datatype Invocation = Invocation(
    cid: Cid,
    phase: Phase,
    ctx: Ctx,
    buffer: Option<Answer>,  // the one-slot response channel
    token: Token,
    sends: nat               // how often the channel was sent to
  )

  /** A Runtime instance, as its `next` and `response` calls show it.  Waiting and Holding are
      states of its `next` handler, which is the daemon's own and outlives the process. */
  datatype Runtime = Idle | Waiting | Holding(inv: nat) | Busy(inv: nat) | Gone

  /** A `response` handler that has removed the table entry and is about to send. */
  datatype Poster = Poster(inv: nat, answer: Answer)

  /** What has happened so far; the program keeps none of it. */
  datatype Log = Log(
    taken: set<nat>,        // invocations handed to a Runtime
    answered: set<nat>,     // invocations whose Runtime has posted for them
    posts: set<Answer>,     // everything posted to the response API
    reports: seq<Bytes>,    // the init errors that were posted, in order
    errorTo: map<nat, nat>, // which invocation took which init error
    unstarted: set<nat>     // invocations whose launch failed to start
  )

  datatype State = State(
    invs: map<nat, Invocation>,
    pending: map<Cid, nat>,     // pendingRequests: request ID to response channel
    runtimes: map<nat, Runtime>,
    processes: set<nat>,        // the Runtimes registered with the ProcessManager
    posters: map<nat, Poster>,
    initError: Option<Answer>,  // the one-slot InitError channel
    log: Log
  )

  function LambdaCount(s: State): nat { |s.processes| }

  datatype Event =
    | Spawn(v: nat, cid: Cid)
    | CtxEnds(v: nat, why: Ctx)
    | HandOver(v: nat, r: nat)
    | GiveUp(v: nat)
    | Default(v: nat)
    | InitReturns(v: nat)
    | StartFails(v: nat)
    | TakeInitError(v: nat)
    | Forward(v: nat)
    | Receive(v: nat)
    | Expire(v: nat)
    | Delete(v: nat)
    | Register(r: nat)
    | NextCall(r: nat)
    | NextEnds(r: nat)
    | Store(r: nat)
    | Lookup(p: nat, cid: Cid, body: Option<Bytes>, from: Option<nat>)
    | Send(p: nat)
    | PostInitError(report: Bytes)
    | Abandon(r: nat)
    | Exit(r: nat)

  predicate InPhase(s: State, v: nat, phase: Phase) { v in s.invs && s.invs[v].phase == phase }

  predicate Offered(s: State, v: nat) { InPhase(s, v, Trying) || InPhase(s, v, Offering) }

  predicate RuntimeIs(s: State, r: nat, state: Runtime) { r in s.runtimes && s.runtimes[r] == state }

  predicate RuntimeServes(s: State, r: nat, cid: Cid) {
    r in s.runtimes && s.runtimes[r].Busy? && s.runtimes[r].inv in s.invs && s.invs[s.runtimes[r].inv].cid == cid
  }

  predicate Enabled(s: State, e: Event) {
    match e
    case Spawn(v, _) => v !in s.invs
    case CtxEnds(v, why) => v in s.invs && s.invs[v].ctx.Live? && !why.Live?
    case HandOver(v, r) => Offered(s, v) && RuntimeIs(s, r, Waiting)
    case GiveUp(v) => Offered(s, v) && !s.invs[v].ctx.Live?
    case Default(v) =>
      InPhase(s, v, Trying) && s.invs[v].ctx.Live? && forall r :: r in s.runtimes ==> !s.runtimes[r].Waiting?
    case InitReturns(v) => InPhase(s, v, Initialising)
    case StartFails(v) => InPhase(s, v, Initialising)
    case TakeInitError(v) => InPhase(s, v, Offering) && s.initError.Some? && s.initError.value.InitError?
    case Forward(v) => v in s.invs && s.invs[v].phase.Forwarding? && s.invs[v].buffer.None?
    case Receive(v) => InPhase(s, v, Awaiting) && s.invs[v].buffer.Some?
    case Expire(v) => InPhase(s, v, Awaiting) && !s.invs[v].ctx.Live?
    case Delete(v) => InPhase(s, v, Deleting)
    case Register(_) => true
    case NextCall(r) => r !in s.runtimes || s.runtimes[r].Idle? || s.runtimes[r].Gone?
    case NextEnds(r) => RuntimeIs(s, r, Waiting)
    case Store(r) => r in s.runtimes && s.runtimes[r].Holding? && s.runtimes[r].inv in s.invs
    case Lookup(p, cid, _, from) =>
      && p !in s.posters
      && (from.Some? ==> RuntimeServes(s, from.value, cid))
    case Send(p) => p in s.posters && s.posters[p].inv in s.invs && s.invs[s.posters[p].inv].buffer.None?
    case PostInitError(_) => true
    case Abandon(r) => r in s.runtimes && s.runtimes[r].Busy?
    case Exit(r) => true
  }

  function Put(s: State, v: nat, i: Invocation): State { s.(invs := s.invs[v := i]) }

  function SetRuntime(s: State, r: nat, state: Runtime): State { s.(runtimes := s.runtimes[r := state]) }

  /** The rendezvous on the unbuffered Invocations channel. */
  function DoHandOver(s: State, v: nat, r: nat): State
    requires v in s.invs
  {
    var t := Put(s, v, s.invs[v].(phase := Awaiting, token := Held(r)));
    SetRuntime(t.(log := t.log.(taken := t.log.taken + {v})), r, Holding(v))
  }

  function DoTakeInitError(s: State, v: nat): State
    requires v in s.invs && s.initError.Some? && s.initError.value.InitError?
  {
    var t := Put(s, v, s.invs[v].(phase := Forwarding(s.initError.value), token := Forfeit));
    t.(initError := None, log := t.log.(errorTo := t.log.errorTo[s.initError.value.serial := v]))
  }

  /** DeleteRequest, and then the choice of what to return. */
  function DoDelete(s: State, v: nat): State
    requires v in s.invs
  {
    var i := s.invs[v];
    var t := Put(s, v, i.(phase := Finished(if i.ctx.DeadlineExceeded? then TimedOut else Abandoned)));
    t.(pending := t.pending - {i.cid})
  }

  /** The critical section of `next`: park the response channel under the request ID. */
  function DoStore(s: State, r: nat, v: nat): State
    requires v in s.invs
  {
    var t := Put(s, v, s.invs[v].(token := Stored(r)));
    SetRuntime(t.(pending := t.pending[s.invs[v].cid := v]), r, Busy(v))
  }

  /** The critical section of `response`: look up, and delete when present. */
  function DoTakeEntry(s: State, cid: Cid): State
    requires cid in s.pending && s.pending[cid] in s.invs
  {
    var v := s.pending[cid];
    Put(s, v, s.invs[v].(token := Discarded)).(pending := s.pending - {cid})
  }

  /** After the lock: the handler holds the channel, unless the request had no body. */
  function DoPost(s: State, p: nat, v: nat, a: Answer): State
    requires v in s.invs
  {
    Put(s, v, s.invs[v].(token := Posting(p))).(posters := s.posters[p := Poster(v, a)])
  }

  function DoLookup(s: State, p: nat, cid: Cid, body: Option<Bytes>): State {
    if cid !in s.pending || s.pending[cid] !in s.invs then s
    else
      var t := DoTakeEntry(s, cid);
      if body.None? then t else DoPost(t, p, s.pending[cid], Posted(cid, body.value))
  }

  function RecordPost(s: State, cid: Cid, body: Option<Bytes>): State {
    if body.Some? then s.(log := s.log.(posts := s.log.posts + {Posted(cid, body.value)})) else s
  }

  function RecordAnswer(s: State, r: nat, v: nat): State {
    SetRuntime(s.(log := s.log.(answered := s.log.answered + {v})), r, Idle)
  }

  function DoSend(s: State, p: nat): State
    requires p in s.posters && s.posters[p].inv in s.invs
  {
    var v := s.posters[p].inv;
    var i := s.invs[v];
    var t := Put(s, v, i.(buffer := Some(s.posters[p].answer), token := Sent, sends := i.sends + 1));
    t.(posters := t.posters - {p})
  }

  /** The child is reaped and unregistered.  A `next` handler that it left open stays until
      its context ends: it may still be handed an invocation, and still stores one. */
  function DoExit(s: State, r: nat): State {
    var t := s.(processes := s.processes - {r});
    if r in t.runtimes && (t.runtimes[r].Idle? || t.runtimes[r].Busy?) then SetRuntime(t, r, Gone) else t
  }

  /** The launch of this invocation failed to start: reading the pid of the missing process
      panics inside Once.Do. */
  function DoStartFails(s: State, v: nat): State
    requires v in s.invs
  {
    var t := Put(s, v, s.invs[v].(phase := Finished(Panicked)));
    t.(log := t.log.(unstarted := t.log.unstarted + {v}))
  }

  function Step(s: State, e: Event): State
    requires Enabled(s, e)
  {
    match e
    case Spawn(v, cid) => Put(s, v, Invocation(cid, Trying, Live, None, Unoffered, 0))
    case CtxEnds(v, why) => Put(s, v, s.invs[v].(ctx := why))
    case HandOver(v, r) => DoHandOver(s, v, r)
    case GiveUp(v) => Put(s, v, s.invs[v].(phase := Awaiting))
    case Default(v) => Put(s, v, s.invs[v].(phase := Initialising))
    case InitReturns(v) => Put(s, v, s.invs[v].(phase := Offering))
    case StartFails(v) => DoStartFails(s, v)
    case TakeInitError(v) => DoTakeInitError(s, v)
    case Forward(v) =>
      var i := s.invs[v];
      Put(s, v, i.(phase := Awaiting, buffer := Some(i.phase.error), token := Sent, sends := i.sends + 1))
    case Receive(v) => Put(s, v, s.invs[v].(phase := Finished(Answered(s.invs[v].buffer.value)), buffer := None))
    case Expire(v) => Put(s, v, s.invs[v].(phase := Deleting))
    case Delete(v) => DoDelete(s, v)
    case Register(r) => s.(processes := s.processes + {r})
    case NextCall(r) => SetRuntime(s, r, Waiting)
    case NextEnds(r) => SetRuntime(s, r, Gone)
    case Store(r) => DoStore(s, r, s.runtimes[r].inv)
    case Lookup(p, cid, body, from) =>
      var t := DoLookup(RecordPost(s, cid, body), p, cid, body);
      if from.None? then t else RecordAnswer(t, from.value, s.runtimes[from.value].inv)
    case Send(p) => DoSend(s, p)
    case PostInitError(report) =>
      s.(log := s.log.(reports := s.log.reports + [report]),
         initError := if s.initError.None? then Some(InitError(|s.log.reports|, report)) else s.initError)
    case Abandon(r) => SetRuntime(s, r, Idle)
    case Exit(r) => DoExit(s, r)
  }

  /** Events that are not enabled do not happen. */
  function Apply(s: State, e: Event): State {
    if Enabled(s, e) then Step(s, e) else s
  }

  function Run(s: State, es: seq<Event>): State
    decreases |es|
  {
    if es == [] then s else Run(Apply(s, es[0]), es[1..])
  }

  const INITIAL: State := State(map[], map[], map[], {}, map[], None, Log({}, {}, {}, [], map[], {}))

  // ----- the invariant: one holder of the sending end at a time -----

  predicate BeforeHandOver(phase: Phase) {
    phase.Trying? || phase.Initialising? || phase.Offering?
  }

  /** An answer that invocation v may have got: a body posted under its own ID after
      a Runtime took it, or an init error, as it was posted, that went to it alone and
      kept it from every Runtime. */
  predicate Proper(log: Log, v: nat, cid: Cid, a: Answer) {
    match a
    case Posted(id, _) => id == cid && a in log.posts && v in log.taken
    case InitError(k, report) =>
      && k in log.errorTo && log.errorTo[k] == v && v !in log.taken
      && k < |log.reports| && log.reports[k] == report
  }

  predicate InvocationOk(i: Invocation, v: nat, log: Log) {
    && i.sends == (if i.token.Sent? then 1 else 0)
    && (i.buffer.Some? ==> i.token.Sent? && Proper(log, v, i.cid, i.buffer.value))
    && (BeforeHandOver(i.phase) ==> i.token.Unoffered? && v !in log.taken)
    && (v in log.taken ==> !i.token.Unoffered? && !i.token.Forfeit?)
    && (i.token.Stored? ==> v in log.taken)
    && (v in log.answered ==> v in log.taken && !i.token.Held?)
    && (i.phase.Forwarding? ==> i.token.Forfeit? && i.phase.error.InitError? && Proper(log, v, i.cid, i.phase.error))
    && (i.phase.Deleting? ==> !i.ctx.Live?)
    && (i.phase.Finished? ==>
          match i.phase.outcome
          case Answered(a) => Proper(log, v, i.cid, a) && i.token.Sent?
          case TimedOut => i.ctx.DeadlineExceeded?
          case Abandoned => i.ctx.ClientCancelled?
          case Panicked => v in log.unstarted && v !in log.taken && i.token.Unoffered?)
    && (v in log.unstarted ==> i.phase == Finished(Panicked))
  }

  predicate RuntimeOk(state: Runtime, r: nat, invs: map<nat, Invocation>, log: Log) {
    match state
    case Holding(v) => v in invs && v in log.taken && invs[v].token == Held(r)
    case Busy(v) => v in invs && v in log.taken && !invs[v].token.Held? && !invs[v].token.Unoffered?
    case _ => true
  }

  predicate EntryOk(v: nat, x: Cid, invs: map<nat, Invocation>, log: Log) {
    v in invs && v in log.taken && invs[v].cid == x && invs[v].token.Stored? && v !in log.answered
  }

  predicate PosterOk(q: Poster, p: nat, invs: map<nat, Invocation>, log: Log) {
    && q.inv in invs && q.answer.Posted?
    && invs[q.inv].token == Posting(p) && Proper(log, q.inv, invs[q.inv].cid, q.answer)
  }

  predicate ErrorSlotOk(e: Option<Answer>, log: Log) {
    e.Some? ==>
      && e.value.InitError? && e.value.serial < |log.reports| && e.value.serial !in log.errorTo
      && log.reports[e.value.serial] == e.value.body
  }

  ghost predicate InvocationsOk(invs: map<nat, Invocation>, log: Log) {
    forall v :: v in invs ==> InvocationOk(invs[v], v, log)
  }

  ghost predicate RuntimesOk(runtimes: map<nat, Runtime>, invs: map<nat, Invocation>, log: Log) {
    forall r :: r in runtimes ==> RuntimeOk(runtimes[r], r, invs, log)
  }

  ghost predicate TableOk(pending: map<Cid, nat>, invs: map<nat, Invocation>, log: Log) {
    forall x :: x in pending ==> EntryOk(pending[x], x, invs, log)
  }

  ghost predicate PostersOk(posters: map<nat, Poster>, invs: map<nat, Invocation>, log: Log) {
    forall p :: p in posters ==> PosterOk(posters[p], p, invs, log)
  }

  /** An invocation that took an init error: no Runtime has it, nor ever will. */
  predicate Refused(v: nat, invs: map<nat, Invocation>, log: Log) {
    v in invs && v !in log.taken && (invs[v].token.Forfeit? || invs[v].token.Sent?)
  }

  ghost predicate LogOk(invs: map<nat, Invocation>, log: Log) {
    && (forall k :: k in log.errorTo ==> k < |log.reports| && Refused(log.errorTo[k], invs, log))
    && log.answered <= log.taken <= invs.Keys
    && log.unstarted <= invs.Keys
  }

  ghost predicate Inv(s: State) {
    && InvocationsOk(s.invs, s.log)
    && RuntimesOk(s.runtimes, s.invs, s.log)
    && TableOk(s.pending, s.invs, s.log)
    && PostersOk(s.posters, s.invs, s.log)
    && ErrorSlotOk(s.initError, s.log)
    && LogOk(s.invs, s.log)
  }

  /** What no step undoes: an outcome, an ID, and the invocation an init error went to. */
  ghost predicate Extends(s: State, t: State) {
    && (forall v :: v in s.invs ==> v in t.invs && t.invs[v].cid == s.invs[v].cid)
    && (forall v :: v in s.invs && s.invs[v].phase.Finished? ==> t.invs[v].phase == s.invs[v].phase)
    && (forall k :: k in s.log.errorTo ==> k in t.log.errorTo && t.log.errorTo[k] == s.log.errorTo[k])
    && s.log.taken <= t.log.taken
    && s.log.posts <= t.log.posts
    && s.log.reports <= t.log.reports
  }

  lemma ExtendsTransitive(s: State, t: State, u: State)
    requires Extends(s, t) && Extends(t, u)
    ensures Extends(s, u)
  {
  }

  /** A step of one invocation that leaves its ID and the holder of its channel alone. */
  lemma PutKeepsInv(s: State, v: nat, i: Invocation)
    requires Inv(s)
    requires v in s.invs ==>
               i.cid == s.invs[v].cid && (i.token == s.invs[v].token || (s.invs[v].token.Forfeit? && i.token.Sent?))
    requires InvocationOk(i, v, s.log)
    requires v in s.invs && s.invs[v].phase.Finished? ==> i.phase == s.invs[v].phase
    ensures Inv(Put(s, v, i))
    ensures Extends(s, Put(s, v, i))
  {
  }

  lemma HandOverKeepsInv(s: State, v: nat, r: nat)
    requires Inv(s) && Offered(s, v) && RuntimeIs(s, r, Waiting)
    ensures Inv(DoHandOver(s, v, r))
    ensures Extends(s, DoHandOver(s, v, r))
  {
  }

  lemma TakeInitErrorKeepsInv(s: State, v: nat)
    requires Inv(s) && InPhase(s, v, Offering) && s.initError.Some? && s.initError.value.InitError?
    ensures Inv(DoTakeInitError(s, v))
    ensures Extends(s, DoTakeInitError(s, v))
  {
  }

  lemma StartFailsKeepsInv(s: State, v: nat)
    requires Inv(s) && InPhase(s, v, Initialising)
    ensures Inv(DoStartFails(s, v))
    ensures Extends(s, DoStartFails(s, v))
  {
  }

  lemma DeleteKeepsInv(s: State, v: nat)
    requires Inv(s) && InPhase(s, v, Deleting)
    ensures Inv(DoDelete(s, v))
    ensures Extends(s, DoDelete(s, v))
  {
  }

  lemma StoreKeepsInv(s: State, r: nat, v: nat)
    requires Inv(s) && v in s.invs && RuntimeIs(s, r, Holding(v))
    ensures Inv(DoStore(s, r, v))
    ensures Extends(s, DoStore(s, r, v))
  {
  }

  lemma RecordPostKeepsInv(s: State, cid: Cid, body: Option<Bytes>)
    requires Inv(s)
    ensures Inv(RecordPost(s, cid, body))
    ensures Extends(s, RecordPost(s, cid, body))
  {
  }

  lemma TakeEntryKeepsInv(s: State, cid: Cid)
    requires Inv(s) && cid in s.pending
    ensures s.pending[cid] in s.invs && Inv(DoTakeEntry(s, cid))
    ensures Extends(s, DoTakeEntry(s, cid))
  {
  }

  lemma PostKeepsInv(s: State, p: nat, v: nat, a: Answer)
    requires Inv(s) && p !in s.posters && v in s.invs && v in s.log.taken && s.invs[v].token.Discarded?
    requires a.Posted? && a in s.log.posts && a.id == s.invs[v].cid
    ensures Inv(DoPost(s, p, v, a))
    ensures Extends(s, DoPost(s, p, v, a))
  {
  }

  lemma LookupKeepsInv(s: State, p: nat, cid: Cid, body: Option<Bytes>)
    requires Inv(s) && p !in s.posters
    requires body.Some? ==> Posted(cid, body.value) in s.log.posts
    ensures Inv(DoLookup(s, p, cid, body))
    ensures cid !in DoLookup(s, p, cid, body).pending
    ensures DoLookup(s, p, cid, body).runtimes == s.runtimes
    ensures forall v :: v in s.invs ==>
                          v in DoLookup(s, p, cid, body).invs
                          && DoLookup(s, p, cid, body).invs[v].cid == s.invs[v].cid
    ensures Extends(s, DoLookup(s, p, cid, body))
  {
    if cid in s.pending {
      TakeEntryKeepsInv(s, cid);
      if body.Some? {
        PostKeepsInv(DoTakeEntry(s, cid), p, s.pending[cid], Posted(cid, body.value));
        ExtendsTransitive(s, DoTakeEntry(s, cid), DoLookup(s, p, cid, body));
      }
    }
  }

  lemma RecordAnswerKeepsInv(s: State, r: nat, v: nat)
    requires Inv(s) && RuntimeIs(s, r, Busy(v)) && v in s.invs && s.invs[v].cid !in s.pending
    ensures Inv(RecordAnswer(s, r, v))
    ensures Extends(s, RecordAnswer(s, r, v))
  {
  }

  lemma SendKeepsInv(s: State, p: nat)
    requires Inv(s) && p in s.posters
    ensures s.posters[p].inv in s.invs && Inv(DoSend(s, p))
    ensures Extends(s, DoSend(s, p))
  {
  }

  lemma ExitKeepsInv(s: State, r: nat)
    requires Inv(s)
    ensures Inv(DoExit(s, r))
    ensures Extends(s, DoExit(s, r))
  {
  }

  /** The steps that touch one invocation and nothing else. */
  predicate Local(e: Event) {
    e.Spawn? || e.CtxEnds? || e.GiveUp? || e.Default? || e.InitReturns? || e.Forward? || e.Receive? || e.Expire?
  }

  lemma LocalStepKeepsInv(s: State, e: Event)
    requires Inv(s) && Local(e) && Enabled(s, e)
    ensures Inv(Step(s, e))
    ensures Extends(s, Step(s, e))
  {
    var t := Step(s, e);
    assert InvocationOk(t.invs[e.v], e.v, s.log);
    PutKeepsInv(s, e.v, t.invs[e.v]);
  }

  lemma LookupStepKeepsInv(s: State, p: nat, cid: Cid, body: Option<Bytes>, from: Option<nat>)
    requires Inv(s) && Enabled(s, Lookup(p, cid, body, from))
    ensures Inv(Step(s, Lookup(p, cid, body, from)))
    ensures Extends(s, Step(s, Lookup(p, cid, body, from)))
  {
    var u := RecordPost(s, cid, body);
    RecordPostKeepsInv(s, cid, body);
    LookupKeepsInv(u, p, cid, body);
    var t := DoLookup(u, p, cid, body);
    ExtendsTransitive(s, u, t);
    if from.Some? {
      RecordAnswerKeepsInv(t, from.value, s.runtimes[from.value].inv);
      ExtendsTransitive(s, t, RecordAnswer(t, from.value, s.runtimes[from.value].inv));
    }
  }

  /** The steps of a Runtime's own, and the init errors that are posted. */
  predicate Outside(e: Event) { e.Register? || e.NextCall? || e.NextEnds? || e.Abandon? || e.PostInitError? }

  lemma PostErrorKeepsInv(s: State, report: Bytes)
    requires Inv(s)
    ensures Inv(Step(s, PostInitError(report)))
    ensures Extends(s, Step(s, PostInitError(report)))
  {
  }

  lemma OutsideStepKeepsInv(s: State, e: Event)
    requires Inv(s) && Outside(e) && Enabled(s, e)
    ensures Inv(Step(s, e))
    ensures Extends(s, Step(s, e))
  {
    if e.PostInitError? { PostErrorKeepsInv(s, e.report); }
  }

  lemma StepKeepsInv(s: State, e: Event)
    requires Inv(s)
    ensures Inv(Apply(s, e))
    ensures Extends(s, Apply(s, e))
  {
    if Enabled(s, e) {
      if Local(e) {
        LocalStepKeepsInv(s, e);
      } else if Outside(e) {
        OutsideStepKeepsInv(s, e);
      } else {
        hide Inv, Extends;
        match e {
          case HandOver(v, r) => HandOverKeepsInv(s, v, r);
          case StartFails(v) => StartFailsKeepsInv(s, v);
          case TakeInitError(v) => TakeInitErrorKeepsInv(s, v);
          case Delete(v) => DeleteKeepsInv(s, v);
          case Store(r) => StoreKeepsInv(s, r, s.runtimes[r].inv);
          case Lookup(p, cid, body, from) => LookupStepKeepsInv(s, p, cid, body, from);
          case Send(p) => SendKeepsInv(s, p);
          case Exit(r) => ExitKeepsInv(s, r);
        }
      }
    } else {
      assert Extends(s, s);
    }
  }

  lemma {:induction false} RunKeepsInv(s: State, es: seq<Event>)
    requires Inv(s)
    ensures Inv(Run(s, es))
    decreases |es|
  {
    if es != [] {
      StepKeepsInv(s, es[0]);
      RunKeepsInv(Apply(s, es[0]), es[1..]);
    }
  }

  lemma {:induction false} RunConcat(s: State, before: seq<Event>, after: seq<Event>)
    ensures Run(s, before + after) == Run(Run(s, before), after)
    decreases |before|
  {
    if before == [] {
      assert before + after == after;
    } else {
      assert (before + after)[1..] == before[1..] + after;
      RunConcat(Apply(s, before[0]), before[1..], after);
    }
  }

  lemma {:induction false} RunTwo(s: State, d: Event, e: Event)
    ensures Run(s, [d, e]) == Apply(Apply(s, d), e)
  {
    assert [d, e][1..] == [e] && [e][1..] == [];
    assert Run(Apply(Apply(s, d), e), []) == Apply(Apply(s, d), e);
  }

  lemma {:induction false} RunThree(s: State, d: Event, e: Event, f: Event)
    ensures Run(s, [d, e, f]) == Apply(Apply(Apply(s, d), e), f)
  {
    assert [d, e, f][1..] == [e, f];
    RunTwo(Apply(s, d), e, f);
  }

  // ----- what every run keeps -----

  /** Whatever the interleaving, a response channel is sent to at most once, so its
      one slot is free at every send: neither `response` nor the forwarding of an
      init error can block. */
  lemma SendsNeverBlock(es: seq<Event>)
    ensures var s := Run(INITIAL, es);
            && (forall v :: v in s.invs ==> s.invs[v].sends <= 1)
            && (forall p :: p in s.posters ==> Enabled(s, Send(p)) && s.invs[s.posters[p].inv].sends == 0)
            && (forall v :: v in s.invs && s.invs[v].phase.Forwarding? ==>
                              Enabled(s, Forward(v)) && s.invs[v].sends == 0)
  {
    RunKeepsInv(INITIAL, es);
    var s := Run(INITIAL, es);
    forall p | p in s.posters
      ensures Enabled(s, Send(p)) && s.invs[s.posters[p].inv].sends == 0
    {
      assert PosterOk(s.posters[p], p, s.invs, s.log);
      assert InvocationOk(s.invs[s.posters[p].inv], s.posters[p].inv, s.log);
    }
  }

  /** What a finished invocation may have returned. */
  lemma OutcomeIsProper(es: seq<Event>, v: nat)
    ensures var s := Run(INITIAL, es);
            v in s.invs && s.invs[v].phase.Finished? ==>
              match s.invs[v].phase.outcome
              case Answered(Posted(id, body)) =>
                id == s.invs[v].cid && Posted(id, body) in s.log.posts && v in s.log.taken
              case Answered(InitError(k, report)) =>
                && k in s.log.errorTo && s.log.errorTo[k] == v && v !in s.log.taken
                && k < |s.log.reports| && s.log.reports[k] == report
              case TimedOut => s.invs[v].ctx.DeadlineExceeded?
              case Abandoned => s.invs[v].ctx.ClientCancelled?
              case Panicked => v in s.log.unstarted
    // an invocation panics exactly when its launch failed to start, and no Runtime takes it
    ensures var s := Run(INITIAL, es);
            && (v in s.log.unstarted <==> InPhase(s, v, Finished(Panicked)))
            && (v in s.log.unstarted ==> v !in s.log.taken && s.invs[v].sends == 0)
  {
    RunKeepsInv(INITIAL, es);
    var s := Run(INITIAL, es);
    if v in s.log.unstarted { assert InvocationOk(s.invs[v], v, s.log); }
  }

  lemma {:induction false} RunExtends(s: State, es: seq<Event>)
    requires Inv(s)
    ensures Extends(s, Run(s, es))
    decreases |es|
  {
    if es != [] {
      StepKeepsInv(s, es[0]);
      RunExtends(Apply(s, es[0]), es[1..]);
      ExtendsTransitive(s, Apply(s, es[0]), Run(s, es));
    }
  }

  /** An invocation ends once.  An init error goes to one invocation for good, and that
      invocation never reaches a Runtime. */
  lemma OutcomesAreFinal(es: seq<Event>, more: seq<Event>)
    ensures var s := Run(INITIAL, es);
            var t := Run(s, more);
            && (forall v :: v in s.invs && s.invs[v].phase.Finished? ==>
                              v in t.invs && t.invs[v].phase == s.invs[v].phase)
            && (forall k :: k in s.log.errorTo ==>
                              && k in t.log.errorTo && t.log.errorTo[k] == s.log.errorTo[k]
                              && s.log.errorTo[k] !in t.log.taken)
  {
    RunKeepsInv(INITIAL, es);
    var s := Run(INITIAL, es);
    RunExtends(s, more);
    RunKeepsInv(s, more);
  }

  /** An init error in the slot is not displaced by later ones: it stays until an invocation
      takes it. */
  lemma {:induction false} InitErrorWaits(s: State, es: seq<Event>)
    requires Inv(s) && s.initError.Some?
    ensures s.initError.value.InitError?
    ensures var t := Run(s, es);
            t.initError == s.initError || s.initError.value.serial in t.log.errorTo
    decreases |es|
  {
    if es != [] {
      var t := Apply(s, es[0]);
      StepKeepsInv(s, es[0]);
      InitErrorStep(s, es[0]);
      if t.initError == s.initError { InitErrorWaits(t, es[1..]); } else { RunExtends(t, es[1..]); }
    }
  }

  lemma InitErrorStep(s: State, e: Event)
    requires s.initError.Some? && s.initError.value.InitError?
    ensures Apply(s, e).initError == s.initError || s.initError.value.serial in Apply(s, e).log.errorTo
  {
    if Enabled(s, e) && e.Lookup? {
      assert DoLookup(RecordPost(s, e.cid, e.body), e.p, e.cid, e.body).initError == s.initError;
    }
  }

  /** The steps by which invocation v itself goes on once it has an init error. */
  predicate GoesOn(e: Event, v: nat) { (e.Forward? || e.Receive? || e.Expire?) && e.v == v }

  predicate StandsStill(es: seq<Event>, v: nat) { forall i :: 0 <= i < |es| ==> !GoesOn(es[i], v) }

  /** It has the error still to send, or has sent it to its own channel. */
  predicate HasError(s: State, v: nat, a: Answer) {
    && v in s.invs && a.InitError?
    && (s.invs[v].phase == Forwarding(a) || (s.invs[v].phase.Awaiting? && s.invs[v].buffer == Some(a)))
  }

  /** Its code and its channel are as they were. */
  predicate SameStand(s: State, t: State, v: nat)
    requires v in s.invs
  {
    v in t.invs && t.invs[v].phase == s.invs[v].phase && t.invs[v].buffer == s.invs[v].buffer
  }

  lemma StandsStillLocal(s: State, e: Event, v: nat, a: Answer)
    requires HasError(s, v, a) && !GoesOn(e, v) && (Local(e) || Outside(e)) && Enabled(s, e)
    ensures SameStand(s, Step(s, e), v)
  {
  }

  lemma StandsStillLookup(s: State, p: nat, cid: Cid, body: Option<Bytes>, v: nat)
    requires v in s.invs
    ensures SameStand(s, DoLookup(s, p, cid, body), v)
  {
  }

  lemma StandsStillSend(s: State, p: nat, v: nat, a: Answer)
    requires Inv(s) && HasError(s, v, a) && p in s.posters && s.posters[p].inv in s.invs
    ensures SameStand(s, DoSend(s, p), v)
  {
    assert PosterOk(s.posters[p], p, s.invs, s.log);
    assert InvocationOk(s.invs[v], v, s.log);
  }

  lemma StandsStillOffer(s: State, e: Event, v: nat, a: Answer)
    requires HasError(s, v, a) && (e.HandOver? || e.StartFails? || e.TakeInitError?) && Enabled(s, e)
    ensures SameStand(s, Step(s, e), v)
  {
  }

  lemma StandsStillTable(s: State, e: Event, v: nat, a: Answer)
    requires HasError(s, v, a) && (e.Store? || e.Delete? || e.Exit?) && Enabled(s, e)
    ensures SameStand(s, Step(s, e), v)
  {
  }

  lemma StandsStillStep(s: State, e: Event, v: nat, a: Answer)
    requires Inv(s) && HasError(s, v, a) && !GoesOn(e, v)
    ensures SameStand(s, Apply(s, e), v)
  {
    if Enabled(s, e) {
      if Local(e) || Outside(e) {
        StandsStillLocal(s, e, v, a);
      } else if e.HandOver? || e.StartFails? || e.TakeInitError? {
        StandsStillOffer(s, e, v, a);
      } else if e.Store? || e.Delete? || e.Exit? {
        StandsStillTable(s, e, v, a);
      } else {
        hide Inv;
        match e {
          case Lookup(p, cid, body, from) => StandsStillLookup(RecordPost(s, cid, body), p, cid, body, v);
          case Send(p) => StandsStillSend(s, p, v, a);
        }
      }
    }
  }

  lemma {:induction false} StandsStillRun(s: State, es: seq<Event>, v: nat, a: Answer)
    requires Inv(s) && HasError(s, v, a) && StandsStill(es, v)
    ensures Inv(Run(s, es)) && SameStand(s, Run(s, es), v)
    decreases |es|
  {
    if es != [] {
      StandsStillStep(s, es[0], v, a);
      StepKeepsInv(s, es[0]);
      StandsStillRun(Apply(s, es[0]), es[1..], v, a);
    }
  }

  lemma TakesAndForwards(s: State, v: nat)
    requires Inv(s) && Enabled(s, TakeInitError(v))
    ensures var a := s.initError.value;
            var t := Apply(s, TakeInitError(v));
            InPhase(t, v, Forwarding(a)) && HasError(t, v, a) && t.initError.None?
  {
    assert Apply(s, TakeInitError(v)) == DoTakeInitError(s, v);
  }

  lemma ForwardSends(s: State, v: nat, a: Answer)
    requires Inv(s) && InPhase(s, v, Forwarding(a)) && a.InitError?
    ensures var t := Apply(s, Forward(v));
            InPhase(t, v, Awaiting) && t.invs[v].buffer == Some(a) && HasError(t, v, a)
  {
    assert InvocationOk(s.invs[v], v, s.log);
  }

  /** An invocation that takes the queued init error returns exactly that report, whatever
      else happens before it forwards the error and before it receives it. */
  lemma {:induction false} InitErrorReachesCaller(s: State, v: nat, before: seq<Event>, after: seq<Event>)
    requires Inv(s) && Enabled(s, TakeInitError(v)) && StandsStill(before, v) && StandsStill(after, v)
    ensures var t := Run(Apply(s, TakeInitError(v)), before);
            var u := Run(Apply(t, Forward(v)), after);
            InPhase(Apply(u, Receive(v)), v, Finished(Answered(s.initError.value)))
  {
    TakesAndForwards(s, v);
    hide Apply, Inv, Enabled, Run;
    var a, s1 := s.initError.value, Apply(s, TakeInitError(v));
    StepKeepsInv(s, TakeInitError(v));
    StandsStillRun(s1, before, v, a);
    var t := Run(s1, before);
    ForwardSends(t, v, a);
    StepKeepsInv(t, Forward(v));
    StandsStillRun(Apply(t, Forward(v)), after, v, a);
    Receives(Run(Apply(t, Forward(v)), after), v, a);
  }

  lemma Receives(s: State, v: nat, a: Answer)
    requires InPhase(s, v, Awaiting) && s.invs[v].buffer == Some(a)
    ensures InPhase(Apply(s, Receive(v)), v, Finished(Answered(a)))
  {
  }

  /** Every ID in the table belongs to an invocation that a Runtime took and has not
      answered, so answering everything taken empties it. */
  lemma TableHoldsUnanswered(es: seq<Event>)
    ensures var s := Run(INITIAL, es);
            && (forall x :: x in s.pending ==>
                              && s.pending[x] in s.log.taken && s.pending[x] !in s.log.answered
                              && s.pending[x] in s.invs && s.invs[s.pending[x]].cid == x)
            && (s.log.taken <= s.log.answered ==> s.pending == map[])
  {
    RunKeepsInv(INITIAL, es);
    var s := Run(INITIAL, es);
    forall x | x in s.pending ensures EntryOk(s.pending[x], x, s.invs, s.log) {}
    if s.log.taken <= s.log.answered {
      forall x ensures x !in s.pending {}
      assert s.pending == map[];
    }
  }

  // ----- delivery -----

  /** The steps that read or write the table at this ID. */
  predicate Touches(s: State, e: Event, x: Cid) {
    Enabled(s, e) &&
    match e
    case Store(r) => s.invs[s.runtimes[r].inv].cid == x
    case Delete(v) => s.invs[v].cid == x
    case Lookup(_, cid, _, _) => cid == x
    case _ => false
  }

  predicate Untouched(s: State, es: seq<Event>, x: Cid)
    decreases |es|
  {
    es == [] || (!Touches(s, es[0], x) && Untouched(Apply(s, es[0]), es[1..], x))
  }

  lemma EntryStays(s: State, e: Event, x: Cid)
    requires !Touches(s, e, x)
    ensures x in Apply(s, e).pending <==> x in s.pending
    ensures x in s.pending ==> Apply(s, e).pending[x] == s.pending[x]
  {
    if Enabled(s, e) && !Local(e) {
      match e {
        case Store(r) => assert Step(s, e).pending == s.pending[s.invs[s.runtimes[r].inv].cid := s.runtimes[r].inv];
        case Delete(v) => assert Step(s, e).pending == s.pending - {s.invs[v].cid};
        case Lookup(p, cid, body, from) =>
          assert Step(s, e).pending == s.pending || Step(s, e).pending == s.pending - {cid};
        case _ =>
      }
    }
  }

  lemma {:induction false} EntryPersists(s: State, es: seq<Event>, x: Cid)
    requires Untouched(s, es, x)
    ensures x in Run(s, es).pending <==> x in s.pending
    ensures x in s.pending ==> Run(s, es).pending[x] == s.pending[x]
    decreases |es|
  {
    if es != [] {
      EntryStays(s, es[0], x);
      EntryPersists(Apply(s, es[0]), es[1..], x);
    }
  }

  lemma LookupTakesChannel(t: State, v: nat, p: nat, body: Bytes, from: Option<nat>)
    requires Inv(t) && InPhase(t, v, Awaiting) && t.invs[v].cid in t.pending && t.pending[t.invs[v].cid] == v
    requires Enabled(t, Lookup(p, t.invs[v].cid, Some(body), from))
    ensures var u := Apply(t, Lookup(p, t.invs[v].cid, Some(body), from));
            && p in u.posters && u.posters[p] == Poster(v, Posted(t.invs[v].cid, body))
            && InPhase(u, v, Awaiting) && u.invs[v].buffer.None? && u.pending == t.pending - {t.invs[v].cid}
  {
    assert InvocationOk(t.invs[v], v, t.log);
    assert EntryOk(t.pending[t.invs[v].cid], t.invs[v].cid, t.invs, t.log);
  }

  lemma SendThenReceive(u: State, p: nat, v: nat)
    requires p in u.posters && u.posters[p].inv == v && InPhase(u, v, Awaiting) && u.invs[v].buffer.None?
    ensures var w := Apply(Apply(u, Send(p)), Receive(v));
            InPhase(w, v, Finished(Answered(u.posters[p].answer))) && w.pending == u.pending
  {
    var w := Apply(u, Send(p));
    assert w == DoSend(u, p);
    assert w.invs[v].phase.Awaiting? && w.invs[v].buffer == Some(u.posters[p].answer);
  }

  /** A stored channel, after any steps that leave its ID alone, receives the next body
      posted under that ID, and the caller returns exactly that body. */
  lemma ResponseReachesCaller(s: State, es: seq<Event>, v: nat, p: nat, body: Bytes, from: Option<nat>)
    requires Inv(s) && v in s.invs && s.invs[v].cid in s.pending && s.pending[s.invs[v].cid] == v
    requires Untouched(s, es, s.invs[v].cid)
    requires var t := Run(s, es);
             Enabled(t, Lookup(p, s.invs[v].cid, Some(body), from)) && InPhase(t, v, Awaiting)
    ensures var t := Run(s, es);
            var x := s.invs[v].cid;
            var u := Apply(Apply(Apply(t, Lookup(p, x, Some(body), from)), Send(p)), Receive(v));
            && InPhase(u, v, Finished(Answered(Posted(x, body))))
            && u.pending == t.pending - {x}
  {
    var t := Run(s, es);
    EntryPersists(s, es, s.invs[v].cid);
    LookupTakesChannel(t, v, p, body, from) by {
      RunKeepsInv(s, es);
      RunExtends(s, es);
    }
    SendThenReceive(Apply(t, Lookup(p, s.invs[v].cid, Some(body), from)), p, v) by {
      RunExtends(s, es);
    }
    assert t.invs[v].cid == s.invs[v].cid by { RunExtends(s, es); }
  }

  /** Stored, but the table no longer leads to it: overwritten by an invocation with the
      same ID, or deleted by the time-out of one. */
  predicate Orphan(s: State, v: nat) {
    && v in s.invs && s.invs[v].token.Stored? && v in s.log.taken && s.invs[v].buffer.None?
    && (s.invs[v].cid in s.pending ==> s.pending[s.invs[v].cid] != v)
    && (s.invs[v].phase.Awaiting? || s.invs[v].phase.Deleting? || s.invs[v].phase.Finished?)
    && (s.invs[v].phase.Finished? ==> !s.invs[v].phase.outcome.Answered?)
  }

  /** Nothing else leads to the channel of a stored invocation. */
  ghost predicate Unreachable(s: State, v: nat) {
    && (forall x :: x in s.pending ==> s.pending[x] != v)
    && (forall p :: p in s.posters ==> s.posters[p].inv != v)
    && (forall r :: r in s.runtimes ==> s.runtimes[r] != Holding(v))
  }

  lemma OrphanIsUnreachable(s: State, v: nat)
    requires Inv(s) && Orphan(s, v)
    ensures Unreachable(s, v)
  {
    forall x | x in s.pending ensures s.pending[x] != v { assert EntryOk(s.pending[x], x, s.invs, s.log); }
    forall p | p in s.posters ensures s.posters[p].inv != v { assert PosterOk(s.posters[p], p, s.invs, s.log); }
  }

  lemma OrphanLocalStep(s: State, e: Event, v: nat)
    requires Orphan(s, v) && Local(e)
    ensures Orphan(Apply(s, e), v)
  {
  }

  lemma OrphanLookup(s: State, p: nat, cid: Cid, body: Option<Bytes>, v: nat)
    requires Unreachable(s, v) && Orphan(s, v)
    ensures Orphan(DoLookup(RecordPost(s, cid, body), p, cid, body), v)
  {
  }

  lemma OrphanStep(s: State, e: Event, v: nat)
    requires Unreachable(s, v) && Orphan(s, v)
    ensures Orphan(Apply(s, e), v)
  {
    if Enabled(s, e) {
      if Local(e) {
        OrphanLocalStep(s, e, v);
      } else {
        match e {
          case Store(r) => assert Orphan(DoStore(s, r, s.runtimes[r].inv), v);
          case Delete(w) => assert Orphan(DoDelete(s, w), v);
          case Send(p) => assert Orphan(DoSend(s, p), v);
          case Lookup(p, cid, body, from) => OrphanLookup(s, p, cid, body, v);
          case _ =>
        }
      }
    }
  }

  /** An orphan is never answered, by anyone: it can only time out or be abandoned. */
  lemma {:induction false} OrphanIsNeverAnswered(s: State, es: seq<Event>, v: nat)
    requires Inv(s) && Orphan(s, v)
    ensures Orphan(Run(s, es), v)
    decreases |es|
  {
    if es != [] {
      OrphanIsUnreachable(s, v);
      OrphanStep(s, es[0], v);
      StepKeepsInv(s, es[0]);
      OrphanIsNeverAnswered(Apply(s, es[0]), es[1..], v);
    }
  }

  /** Invocation v is parked: the table leads to it under its own ID. */
  predicate Parked(s: State, v: nat) {
    v in s.invs && s.invs[v].cid in s.pending && s.pending[s.invs[v].cid] == v
  }

  /** The steps that take the entry of v away without taking its channel out: the store of
      an invocation with the same ID, and the DeleteRequest of one. */
  predicate Displaces(s: State, e: Event, v: nat)
    requires v in s.invs
  {
    Enabled(s, e) &&
    match e
    case Store(r) => s.invs[s.runtimes[r].inv].cid == s.invs[v].cid
    case Delete(w) => s.invs[w].cid == s.invs[v].cid
    case _ => false
  }

  /** A duplicate ID makes an orphan, and so does giving up; and nothing else does. */
  lemma {:induction false} OrphanedIff(s: State, e: Event, v: nat)
    requires Inv(s) && Parked(s, v)
    ensures Orphan(Apply(s, e), v) <==> Displaces(s, e, v)
  {
    var x := s.invs[v].cid;
    assert EntryOk(s.pending[x], x, s.invs, s.log);
    assert InvocationOk(s.invs[v], v, s.log);
    if !Touches(s, e, x) {
      EntryStays(s, e, x);
      assert v in Apply(s, e).invs && Apply(s, e).invs[v].cid == x by { StepKeepsInv(s, e); }
    } else {
      match e {
        case Store(r) => StoreOrphans(s, r, v);
        case Delete(w) => assert Orphan(DoDelete(s, w), v);
        case Lookup(p, cid, body, from) => LookupTakesToken(s, p, cid, body, from);
      }
    }
  }

  lemma StoreOrphans(s: State, r: nat, v: nat)
    requires Inv(s) && Parked(s, v) && Enabled(s, Store(r)) && s.invs[s.runtimes[r].inv].cid == s.invs[v].cid
    ensures Orphan(Apply(s, Store(r)), v)
  {
    assert EntryOk(s.pending[s.invs[v].cid], s.invs[v].cid, s.invs, s.log);
    assert RuntimeOk(s.runtimes[r], r, s.invs, s.log);
    assert InvocationOk(s.invs[v], v, s.log);
    assert Apply(s, Store(r)) == DoStore(s, r, s.runtimes[r].inv);
  }

  lemma LookupTakesToken(s: State, p: nat, cid: Cid, body: Option<Bytes>, from: Option<nat>)
    requires Inv(s) && cid in s.pending && Enabled(s, Lookup(p, cid, body, from))
    ensures var t := Apply(s, Lookup(p, cid, body, from));
            s.pending[cid] in t.invs && !t.invs[s.pending[cid]].token.Stored?
  {
    assert EntryOk(s.pending[cid], cid, s.invs, s.log);
  }

  /** So an invocation displaced under a duplicate ID is answered in no later run. */
  lemma DisplacedIsNeverAnswered(s: State, e: Event, v: nat, es: seq<Event>)
    requires Inv(s) && Parked(s, v) && Displaces(s, e, v)
    ensures var t := Run(Apply(s, e), es);
            Orphan(t, v) && (t.invs[v].phase.Finished? ==> !t.invs[v].phase.outcome.Answered?)
  {
    OrphanedIff(s, e, v);
    StepKeepsInv(s, e);
    OrphanIsNeverAnswered(Apply(s, e), es, v);
  }

  // ----- callers that give up -----

  /** Some entry leads to invocation v. */
  ghost predicate Led(s: State, v: nat) { exists x :: x in s.pending && s.pending[x] == v }

  /** The handler that v was handed to has still to store it, whether its Runtime lives or not. */
  predicate StillHeld(s: State, v: nat) {
    v in s.invs && s.invs[v].token.Held? && RuntimeIs(s, s.invs[v].token.runtime, Holding(v))
  }

  /** No entry leads to v, and nobody is left who could store one. */
  ghost predicate NeverLed(s: State, v: nat) {
    && v in s.invs && !BeforeHandOver(s.invs[v].phase)
    && (forall x :: x in s.pending ==> s.pending[x] != v)
    && (forall r :: r in s.runtimes ==> s.runtimes[r] != Holding(v))
  }

  lemma {:induction false} NeverLedLookup(s: State, p: nat, cid: Cid, body: Option<Bytes>, v: nat)
    requires NeverLed(s, v)
    ensures NeverLed(DoLookup(s, p, cid, body), v)
  {
  }

  lemma {:induction false} NeverLedStep(s: State, e: Event, v: nat)
    requires NeverLed(s, v)
    ensures NeverLed(Apply(s, e), v)
  {
    if Enabled(s, e) {
      if Local(e) || Outside(e) {
        NeverLedLocalStep(s, e, v);
      } else {
        match e {
          case HandOver(w, r) => assert NeverLed(DoHandOver(s, w, r), v);
          case StartFails(w) => assert NeverLed(DoStartFails(s, w), v);
          case TakeInitError(w) => assert NeverLed(DoTakeInitError(s, w), v);
          case Store(r) => assert NeverLed(DoStore(s, r, s.runtimes[r].inv), v);
          case Delete(w) => assert NeverLed(DoDelete(s, w), v);
          case Send(p) => assert NeverLed(DoSend(s, p), v);
          case Lookup(p, cid, body, from) => NeverLedLookup(RecordPost(s, cid, body), p, cid, body, v);
          case Exit(r) => assert NeverLed(DoExit(s, r), v);
        }
      }
    }
  }

  lemma {:induction false} NeverLedLocalStep(s: State, e: Event, v: nat)
    requires NeverLed(s, v) && (Local(e) || Outside(e))
    ensures NeverLed(Apply(s, e), v)
  {
  }

  lemma {:induction false} NeverLedRun(s: State, es: seq<Event>, v: nat)
    requires NeverLed(s, v)
    ensures NeverLed(Run(s, es), v)
    decreases |es|
  {
    if es != [] {
      NeverLedStep(s, es[0], v);
      NeverLedRun(Apply(s, es[0]), es[1..], v);
    }
  }

  lemma DeleteLeavesNeverLed(s: State, v: nat)
    requires Inv(s) && InPhase(s, v, Deleting) && !StillHeld(s, v)
    ensures NeverLed(Apply(s, Delete(v)), v)
  {
    var t := DoDelete(s, v);
    assert Apply(s, Delete(v)) == t;
    forall r | r in s.runtimes ensures s.runtimes[r] != Holding(v) {
      assert RuntimeOk(s.runtimes[r], r, s.invs, s.log);
    }
    forall x | x in t.pending ensures t.pending[x] != v { assert EntryOk(s.pending[x], x, s.invs, s.log); }
  }

  lemma {:induction false} StoreAfterDeleteLeads(s: State, v: nat)
    requires InPhase(s, v, Deleting) && StillHeld(s, v)
    ensures exists es :: Led(Run(Apply(s, Delete(v)), es), v)
  {
    var r, t := s.invs[v].token.runtime, DoDelete(s, v);
    assert Apply(s, Delete(v)) == t;
    var u := DoStore(t, r, v);
    assert Apply(t, Store(r)) == u;
    assert u.pending[t.invs[v].cid] == v;
    var es := [Store(r)];
    assert Run(t, es) == u by { assert es[1..] == []; }
    assert Led(Run(Apply(s, Delete(v)), es), v);
  }

  /** A caller that gives up can leave an entry behind exactly when the handler it was
      handed to has still to store it.  In every other case the table never leads to its
      channel again, whatever follows. */
  lemma {:induction false} GivenUpLeavesAnEntryIff(s: State, v: nat)
    requires Inv(s) && InPhase(s, v, Deleting)
    ensures (exists es :: Led(Run(Apply(s, Delete(v)), es), v)) <==> StillHeld(s, v)
  {
    if StillHeld(s, v) {
      StoreAfterDeleteLeads(s, v);
    } else {
      DeleteLeavesNeverLed(s, v);
      forall es ensures !Led(Run(Apply(s, Delete(v)), es), v) { NeverLedRun(Apply(s, Delete(v)), es, v); }
    }
  }

  /** In that case the entry outlives its caller until something is posted, or some other
      caller gives up, under its ID. */
  lemma {:induction false} GivenUpWhileHeldIsParked(s: State, v: nat, r: nat, es: seq<Event>)
    requires Inv(s) && InPhase(s, v, Deleting) && RuntimeIs(s, r, Holding(v))
    requires Untouched(Apply(Apply(s, Delete(v)), Store(r)), es, s.invs[v].cid)
    ensures var x := s.invs[v].cid;
            var t := Run(Apply(Apply(s, Delete(v)), Store(r)), es);
            v in t.invs && t.invs[v].phase.Finished? && x in t.pending && t.pending[x] == v
  {
    var t := Apply(s, Delete(v));
    assert t == DoDelete(s, v);
    var u := Apply(t, Store(r));
    assert u == DoStore(t, r, v);
    StepKeepsInv(s, Delete(v));
    StepKeepsInv(t, Store(r));
    EntryPersists(u, es, s.invs[v].cid);
    RunExtends(u, es);
  }
}

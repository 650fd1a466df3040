/** The AMQP-RPC hop, composed with the rendezvous inside the daemon.

    RPCInvoker publishes a request, then stores an unbuffered response channel under the
    correlation ID; response handlers match replies and broker returns against that
    table.  On the far side rpcHandler runs the daemon's own invoke, publishes what it
    returned to the ReplyTo, and only then acknowledges.  The broker may deliver any
    request and any reply any number of times. */
module RpcHop {
  import opened Common
  import Engine = Rendezvous

  type Cid = Engine.Cid

  datatype Body = Payload | Result(outcome: Engine.Outcome) | ContextError | Unreachable(name: string)

  datatype Message = Message(subject: string, replyTo: string, correlationId: Cid, body: Body)

  /** rpcHandler reuses the request as the reply. */
  function MakeReply(m: Message, body: Body): Message {
    m.(body := body, subject := m.replyTo, replyTo := "")
  }

  /** What a response handler was started for. */
  datatype Source = Reply(tag: nat) | Returned(request: Message)

  datatype ClientPhase =
    | Starting
    | Published
    | Waiting
    | Expiring                  // chose ctx.Done, deletes its entry next
    | Consumed(source: Source, body: Body)  // received from its channel, and returned
    | TimedOut
    | Abandoned

  /** Who holds the sending end of the response channel. */
  datatype Token = Unstored | InTable | WithHandler(h: nat) | Spent

  datatype Client = Client(cid: Cid, phase: ClientPhase, ctx: Engine.Ctx, token: Token, receives: nat)

  /** A goroutine that removed the table entry and blocks on the client's channel. */
  datatype Handler = Handler(client: nat, source: Source, body: Body)

  datatype DeliveryPhase = Received | Invoking(inv: nat) | Replying(body: Body) | Attempted | Acknowledged

  datatype Delivery = Delivery(request: Message, phase: DeliveryPhase, inv: Option<nat>)

  datatype State = State(
    queue: string,                 // the invoker's own reply queue
    clients: map<nat, Client>,
    table: map<Cid, nat>,          // pendingRequests: correlation ID to response channel
    handlers: map<nat, Handler>,
    requests: set<Message>,        // everything published for the function
    deliveries: map<nat, Delivery>,
    replies: map<nat, Message>,    // what was published for each delivery
    unsent: set<nat>,              // history: the deliveries whose reply failed to be published
    engine: Engine.State
  )

  datatype Event =
    | Call(k: nat, cid: Cid)
    | CtxEnds(k: nat, why: Engine.Ctx)
    | Publish(k: nat, name: string)
    | PublishFails(k: nat)                    // here too
    | Store(k: nat)
    | Lookup(h: nat, source: Source)
    | Receive(h: nat)
    | Expire(k: nat)
    | Delete(k: nat)
    | ForeignRequest(m: Message)              // from another invoker
    | Deliver(tag: nat, m: Message)
    | BadContext(tag: nat)
    | Begin(tag: nat, inv: nat, generated: Cid)
    | Inside(e: Engine.Event)                 // a step of the daemon
    | End(tag: nat)
    | SendReply(tag: nat)
    | ReplyFails(tag: nat)                    // the error of the publish is dropped
    | Acknowledge(tag: nat)

  predicate ClientIn(s: State, k: nat, phase: ClientPhase) { k in s.clients && s.clients[k].phase == phase }

  predicate Arrives(s: State, source: Source) {
    match source
    case Reply(tag) => tag in s.replies && s.replies[tag].subject == s.queue
    case Returned(m) => m in s.requests && m.replyTo == s.queue
  }

  function SourceCid(s: State, source: Source): Cid
    requires Arrives(s, source)
  {
    match source
    case Reply(tag) => s.replies[tag].correlationId
    case Returned(m) => m.correlationId
  }

  /** The body that a response handler is started with: a return's is replaced. */
  function SourceBody(s: State, source: Source): Body
    requires Arrives(s, source)
  {
    match source
    case Reply(tag) => s.replies[tag].body
    case Returned(m) => Unreachable(m.subject)
  }

  predicate Enabled(s: State, e: Event) {
    match e
    case Call(k, cid) => k !in s.clients && cid != ""
    case CtxEnds(k, why) => k in s.clients && s.clients[k].ctx.Live? && !why.Live?
    case Publish(k, _) => ClientIn(s, k, Starting)
    case PublishFails(k) => ClientIn(s, k, Starting)
    case Store(k) => ClientIn(s, k, Published)
    case Lookup(h, source) => h !in s.handlers && Arrives(s, source)
    case Receive(h) => h in s.handlers && ClientIn(s, s.handlers[h].client, Waiting)
    case Expire(k) => ClientIn(s, k, Waiting) && !s.clients[k].ctx.Live?
    case Delete(k) => ClientIn(s, k, Expiring)
    case ForeignRequest(m) => m.replyTo != s.queue
    case Deliver(tag, m) => tag !in s.deliveries && m in s.requests
    case BadContext(tag) => tag in s.deliveries && s.deliveries[tag].phase.Received?
    case Begin(tag, v, generated) =>
      tag in s.deliveries && s.deliveries[tag].phase.Received? && v !in s.engine.invs && generated != ""
    case Inside(_) => true
    case End(tag) =>
      && tag in s.deliveries && s.deliveries[tag].phase.Invoking?
      && s.deliveries[tag].phase.inv in s.engine.invs && s.engine.invs[s.deliveries[tag].phase.inv].phase.Finished?
      && !s.engine.invs[s.deliveries[tag].phase.inv].phase.outcome.Panicked?  // ends the daemon
    case SendReply(tag) => tag in s.deliveries && s.deliveries[tag].phase.Replying?
    case ReplyFails(tag) => tag in s.deliveries && s.deliveries[tag].phase.Replying?
    case Acknowledge(tag) => tag in s.deliveries && s.deliveries[tag].phase.Attempted?
  }

  function PutClient(s: State, k: nat, c: Client): State { s.(clients := s.clients[k := c]) }

  function PutDelivery(s: State, tag: nat, d: Delivery): State { s.(deliveries := s.deliveries[tag := d]) }

  function DoStore(s: State, k: nat): State
    requires k in s.clients
  {
    PutClient(s, k, s.clients[k].(phase := Waiting, token := InTable)).(table := s.table[s.clients[k].cid := k])
  }

  function DoLookup(s: State, h: nat, source: Source): State
    requires Arrives(s, source)
  {
    var x := SourceCid(s, source);
    if x !in s.table || s.table[x] !in s.clients then s
    else
      var k := s.table[x];
      PutClient(s, k, s.clients[k].(token := WithHandler(h)))
      .(table := s.table - {x}, handlers := s.handlers[h := Handler(k, source, SourceBody(s, source))])
  }

  function DoReceive(s: State, h: nat): State
    requires h in s.handlers && s.handlers[h].client in s.clients
  {
    var k := s.handlers[h].client;
    var c := s.clients[k];
    PutClient(s, k, c.(phase := Consumed(s.handlers[h].source, s.handlers[h].body),
                       token := Spent, receives := c.receives + 1))
    .(handlers := s.handlers - {h})
  }

  function DoDelete(s: State, k: nat): State
    requires k in s.clients
  {
    var c := s.clients[k];
    PutClient(s, k, c.(phase := if c.ctx.DeadlineExceeded? then TimedOut else Abandoned)).(table := s.table - {c.cid})
  }

  /** The ID under which the daemon runs a request: its own, or a generated one. */
  function InvocationCid(m: Message, generated: Cid): Cid {
    if m.correlationId == "" then generated else m.correlationId
  }

  function DoBegin(s: State, tag: nat, v: nat, generated: Cid): State
    requires tag in s.deliveries
  {
    var d := s.deliveries[tag];
    PutDelivery(s, tag, d.(phase := Invoking(v), inv := Some(v)))
    .(engine := Engine.Apply(s.engine, Engine.Spawn(v, InvocationCid(d.request, generated))))
  }

  function DoSendReply(s: State, tag: nat): State
    requires tag in s.deliveries && s.deliveries[tag].phase.Replying?
  {
    var d := s.deliveries[tag];
    PutDelivery(s, tag, d.(phase := Attempted)).(replies := s.replies[tag := MakeReply(d.request, d.phase.body)])
  }

  function DoReplyFails(s: State, tag: nat): State
    requires tag in s.deliveries
  {
    PutDelivery(s, tag, s.deliveries[tag].(phase := Attempted)).(unsent := s.unsent + {tag})
  }

  function Step(s: State, e: Event): State
    requires Enabled(s, e)
  {
    match e
    case Call(k, cid) => PutClient(s, k, Client(cid, Starting, Engine.Live, Unstored, 0))
    case CtxEnds(k, why) => PutClient(s, k, s.clients[k].(ctx := why))
    case Publish(k, name) =>
      PutClient(s, k, s.clients[k].(phase := Published))
      .(requests := s.requests + {Message(name, s.queue, s.clients[k].cid, Payload)})
    case PublishFails(k) => PutClient(s, k, s.clients[k].(phase := Published))
    case Store(k) => DoStore(s, k)
    case Lookup(h, source) => DoLookup(s, h, source)
    case Receive(h) => DoReceive(s, h)
    case Expire(k) => PutClient(s, k, s.clients[k].(phase := Expiring))
    case Delete(k) => DoDelete(s, k)
    case ForeignRequest(m) => s.(requests := s.requests + {m})
    case Deliver(tag, m) => PutDelivery(s, tag, Delivery(m, Received, None))
    case BadContext(tag) => PutDelivery(s, tag, s.deliveries[tag].(phase := Replying(ContextError)))
    case Begin(tag, v, generated) => DoBegin(s, tag, v, generated)
    case Inside(e) => s.(engine := Engine.Apply(s.engine, e))
    case End(tag) =>
      var d := s.deliveries[tag];
      PutDelivery(s, tag, d.(phase := Replying(Result(s.engine.invs[d.phase.inv].phase.outcome))))
    case SendReply(tag) => DoSendReply(s, tag)
    case ReplyFails(tag) => DoReplyFails(s, tag)
    case Acknowledge(tag) => PutDelivery(s, tag, s.deliveries[tag].(phase := Acknowledged))
  }

  function Apply(s: State, e: Event): State { if Enabled(s, e) then Step(s, e) else s }

  function Run(s: State, es: seq<Event>): State
    decreases |es|
  {
    if es == [] then s else Run(Apply(s, es[0]), es[1..])
  }

  function Initial(queue: string): State {
    State(queue, map[], map[], map[], {}, map[], map[], {}, Engine.INITIAL)
  }

  // ----- the client side -----

  predicate Matches(s: State, source: Source, cid: Cid) { Arrives(s, source) && SourceCid(s, source) == cid }

  /** The body is that of the reply, or says that the function asked for is unreachable. */
  predicate Carries(s: State, source: Source, body: Body) {
    match source
    case Reply(tag) => tag in s.replies && body == s.replies[tag].body
    case Returned(m) => m in s.requests && body == Unreachable(m.subject)
  }

  predicate ClientOk(c: Client, s: State) {
    && c.cid != ""
    && c.receives == (if c.token.Spent? then 1 else 0)
    && (c.token.Unstored? <==> c.phase.Starting? || c.phase.Published?)
    && (c.token.Spent? <==> c.phase.Consumed?)
    && (c.phase.Consumed? ==> Matches(s, c.phase.source, c.cid) && Carries(s, c.phase.source, c.phase.body))
    && (c.phase.Expiring? ==> !c.ctx.Live?)
    && (c.phase.TimedOut? ==> c.ctx.DeadlineExceeded?)
    && (c.phase.Abandoned? ==> c.ctx.ClientCancelled?)
  }

  predicate HandlerOk(q: Handler, h: nat, s: State) {
    && q.client in s.clients
    && s.clients[q.client].token == WithHandler(h) && Matches(s, q.source, s.clients[q.client].cid)
    && Carries(s, q.source, q.body)
  }

  predicate EntryOk(k: nat, x: Cid, s: State) {
    && k in s.clients && s.clients[k].cid == x && s.clients[k].token.InTable?
    && (s.clients[k].phase.Waiting? || s.clients[k].phase.Expiring?)
  }

  ghost predicate ClientsOk(s: State) {
    && (forall k :: k in s.clients ==> ClientOk(s.clients[k], s))
    && (forall h :: h in s.handlers ==> HandlerOk(s.handlers[h], h, s))
    && (forall x :: x in s.table ==> EntryOk(s.table[x], x, s))
  }

  // ----- the server side -----

  /** The daemon's invocation for a delivery: under the request's own ID when it has one. */
  predicate InvokedFor(d: Delivery, v: nat, engine: Engine.State) {
    && d.inv == Some(v) && v in engine.invs
    && (d.request.correlationId != "" ==> engine.invs[v].cid == d.request.correlationId)
  }

  /** A body that the delivery's own invocation returned. */
  predicate BodyOk(d: Delivery, body: Body, engine: Engine.State) {
    body.ContextError?
    || (body.Result? && !body.outcome.Panicked? && d.inv.Some? && InvokedFor(d, d.inv.value, engine)
        && engine.invs[d.inv.value].phase == Engine.Finished(body.outcome))
  }

  predicate DeliveryOk(d: Delivery, tag: nat, s: State) {
    match d.phase
    case Received => tag !in s.replies && tag !in s.unsent
    case Invoking(v) => InvokedFor(d, v, s.engine) && tag !in s.replies && tag !in s.unsent
    case Replying(body) => BodyOk(d, body, s.engine) && tag !in s.replies && tag !in s.unsent
    case Attempted => tag in s.replies <==> tag !in s.unsent
    case Acknowledged => tag in s.replies <==> tag !in s.unsent
  }

  predicate ReplyOk(m: Message, tag: nat, s: State) {
    && tag in s.deliveries
    && m == MakeReply(s.deliveries[tag].request, m.body) && BodyOk(s.deliveries[tag], m.body, s.engine)
  }

  ghost predicate ServerOk(s: State) {
    && Engine.Inv(s.engine)
    && (forall tag :: tag in s.deliveries ==> DeliveryOk(s.deliveries[tag], tag, s))
    && (forall tag :: tag in s.replies ==> ReplyOk(s.replies[tag], tag, s))
    && (forall tag :: tag in s.unsent ==> tag in s.deliveries)
  }

  ghost predicate Inv(s: State) { ClientsOk(s) && ServerOk(s) }

  /** What the table of replies and the requests keep under any later step. */
  ghost predicate Grows(s: State, t: State) {
    && t.queue == s.queue && s.requests <= t.requests
    && (forall tag :: tag in s.replies ==> tag in t.replies && t.replies[tag] == s.replies[tag])
  }

  // ----- every step keeps both sides -----

  /** Steps elsewhere: the clients are as they were, and replies and requests only grow. */
  lemma ClientsUntouched(s: State, t: State)
    requires ClientsOk(s) && Grows(s, t)
    requires t.clients == s.clients && t.handlers == s.handlers && t.table == s.table
    ensures ClientsOk(t)
  {
    forall k | k in t.clients ensures ClientOk(t.clients[k], t) {
      assert ClientOk(s.clients[k], s);
    }
    forall h | h in t.handlers ensures HandlerOk(t.handlers[h], h, t) {
      assert HandlerOk(s.handlers[h], h, s);
    }
    forall x | x in t.table ensures EntryOk(t.table[x], x, t) {
      assert EntryOk(s.table[x], x, s);
    }
  }

  /** A step of one client that leaves its ID and its channel alone. */
  lemma LocalClientStep(s: State, k: nat, c: Client)
    requires ClientsOk(s) && ClientOk(c, s)
    requires k in s.clients ==> c.cid == s.clients[k].cid && c.token == s.clients[k].token
                                && (c.phase == s.clients[k].phase || c.phase.Published? || c.phase.Expiring?)
    ensures ClientsOk(PutClient(s, k, c))
  {
    var t := PutClient(s, k, c);
    forall j | j in t.clients ensures ClientOk(t.clients[j], t) {
      if j != k { assert ClientOk(s.clients[j], s); }
    }
    forall h | h in t.handlers ensures HandlerOk(t.handlers[h], h, t) {
      assert HandlerOk(s.handlers[h], h, s);
    }
    forall x | x in t.table ensures EntryOk(t.table[x], x, t) {
      assert EntryOk(s.table[x], x, s);
    }
  }

  lemma StoreKeepsClients(s: State, k: nat)
    requires ClientsOk(s) && ClientIn(s, k, Published)
    ensures ClientsOk(DoStore(s, k))
  {
    var t := DoStore(s, k);
    assert ClientOk(s.clients[k], s);
    forall j | j in t.clients ensures ClientOk(t.clients[j], t) {
      if j != k { assert ClientOk(s.clients[j], s); }
    }
    forall h | h in t.handlers ensures HandlerOk(t.handlers[h], h, t) {
      assert HandlerOk(s.handlers[h], h, s);
    }
    forall x | x in t.table ensures EntryOk(t.table[x], x, t) {
      if x != s.clients[k].cid { assert EntryOk(s.table[x], x, s); }
    }
  }

  lemma LookupKeepsClients(s: State, h: nat, source: Source)
    requires ClientsOk(s) && h !in s.handlers && Arrives(s, source)
    ensures ClientsOk(DoLookup(s, h, source))
  {
    var t := DoLookup(s, h, source);
    var y := SourceCid(s, source);
    if y in s.table {
      assert EntryOk(s.table[y], y, s);
      forall j | j in t.clients ensures ClientOk(t.clients[j], t) { assert ClientOk(s.clients[j], s); }
      forall g | g in t.handlers ensures HandlerOk(t.handlers[g], g, t) {
        if g != h { assert HandlerOk(s.handlers[g], g, s); }
      }
      forall x | x in t.table ensures EntryOk(t.table[x], x, t) { assert EntryOk(s.table[x], x, s); }
    }
  }

  lemma ReceiveKeepsClients(s: State, h: nat)
    requires ClientsOk(s) && h in s.handlers && ClientIn(s, s.handlers[h].client, Waiting)
    ensures ClientsOk(DoReceive(s, h))
  {
    var t := DoReceive(s, h);
    assert HandlerOk(s.handlers[h], h, s);
    forall j | j in t.clients ensures ClientOk(t.clients[j], t) { assert ClientOk(s.clients[j], s); }
    forall g | g in t.handlers ensures HandlerOk(t.handlers[g], g, t) { assert HandlerOk(s.handlers[g], g, s); }
    forall x | x in t.table ensures EntryOk(t.table[x], x, t) { assert EntryOk(s.table[x], x, s); }
  }

  lemma DeleteKeepsClients(s: State, k: nat)
    requires ClientsOk(s) && ClientIn(s, k, Expiring)
    ensures ClientsOk(DoDelete(s, k))
  {
    var t := DoDelete(s, k);
    forall j | j in t.clients ensures ClientOk(t.clients[j], t) { assert ClientOk(s.clients[j], s); }
    forall h | h in t.handlers ensures HandlerOk(t.handlers[h], h, t) { assert HandlerOk(s.handlers[h], h, s); }
    forall x | x in t.table ensures EntryOk(t.table[x], x, t) { assert EntryOk(s.table[x], x, s); }
  }

  /** A step of the daemon: what has finished stays finished. */
  lemma EngineKeepsServer(s: State, e: Engine.Event)
    requires ServerOk(s)
    ensures ServerOk(s.(engine := Engine.Apply(s.engine, e)))
  {
    Engine.StepKeepsInv(s.engine, e);
    var t := s.(engine := Engine.Apply(s.engine, e));
    assert Engine.Extends(s.engine, t.engine);
    forall tag | tag in t.deliveries ensures DeliveryOk(t.deliveries[tag], tag, t) {
      assert DeliveryOk(s.deliveries[tag], tag, s);
    }
    forall tag | tag in t.replies ensures ReplyOk(t.replies[tag], tag, t) {
      assert ReplyOk(s.replies[tag], tag, s);
    }
  }

  /** A step of one delivery that keeps its request and its invocation. */
  lemma DeliveryStep(s: State, tag: nat, d: Delivery)
    requires ServerOk(s) && DeliveryOk(d, tag, s)
    requires if tag in s.deliveries then
               d.request == s.deliveries[tag].request && (tag in s.replies ==> d.inv == s.deliveries[tag].inv)
             else tag !in s.replies
    ensures ServerOk(PutDelivery(s, tag, d))
  {
    var t := PutDelivery(s, tag, d);
    forall g | g in t.deliveries ensures DeliveryOk(t.deliveries[g], g, t) {
      if g != tag { assert DeliveryOk(s.deliveries[g], g, s); }
    }
    forall g | g in t.replies ensures ReplyOk(t.replies[g], g, t) { assert ReplyOk(s.replies[g], g, s); }
  }

  lemma BeginKeepsServer(s: State, tag: nat, v: nat, generated: Cid)
    requires ServerOk(s) && Enabled(s, Begin(tag, v, generated))
    ensures ServerOk(DoBegin(s, tag, v, generated))
  {
    var d := s.deliveries[tag];
    var spawn := Engine.Spawn(v, InvocationCid(d.request, generated));
    EngineKeepsServer(s, spawn);
    var t := s.(engine := Engine.Apply(s.engine, spawn));
    assert DeliveryOk(d, tag, s);
    assert v in t.engine.invs && t.engine.invs[v].cid == InvocationCid(d.request, generated);
    DeliveryStep(t, tag, d.(phase := Invoking(v), inv := Some(v)));
  }

  lemma EndKeepsServer(s: State, tag: nat)
    requires ServerOk(s) && Enabled(s, End(tag))
    ensures ServerOk(Step(s, End(tag)))
  {
    var d := s.deliveries[tag];
    assert DeliveryOk(d, tag, s);
    DeliveryStep(s, tag, d.(phase := Replying(Result(s.engine.invs[d.phase.inv].phase.outcome))));
  }

  lemma SendReplyKeepsServer(s: State, tag: nat)
    requires ServerOk(s) && Enabled(s, SendReply(tag))
    ensures ServerOk(DoSendReply(s, tag)) && Grows(s, DoSendReply(s, tag))
  {
    var t := DoSendReply(s, tag);
    assert DeliveryOk(s.deliveries[tag], tag, s);
    forall g | g in t.deliveries ensures DeliveryOk(t.deliveries[g], g, t) { assert DeliveryOk(s.deliveries[g], g, s); }
    forall g | g in t.replies ensures ReplyOk(t.replies[g], g, t) {
      if g != tag { assert ReplyOk(s.replies[g], g, s); }
    }
  }

  lemma ReplyFailsKeepsServer(s: State, tag: nat)
    requires ServerOk(s) && Enabled(s, ReplyFails(tag))
    ensures ServerOk(DoReplyFails(s, tag)) && Grows(s, DoReplyFails(s, tag))
  {
    var t := DoReplyFails(s, tag);
    assert DeliveryOk(s.deliveries[tag], tag, s);
    forall g | g in t.deliveries ensures DeliveryOk(t.deliveries[g], g, t) { assert DeliveryOk(s.deliveries[g], g, s); }
    forall g | g in t.replies ensures ReplyOk(t.replies[g], g, t) { assert ReplyOk(s.replies[g], g, s); }
  }

  /** The steps of the daemon's side. */
  predicate ServerEvent(e: Event) {
    e.Deliver? || e.BadContext? || e.Begin? || e.Inside? || e.End? || e.SendReply? || e.ReplyFails?
    || e.Acknowledge?
  }

  lemma ServerGrows(s: State, e: Event)
    requires ServerOk(s) && ServerEvent(e) && Enabled(s, e)
    ensures Grows(s, Step(s, e))
  {
    if e.SendReply? { assert DeliveryOk(s.deliveries[e.tag], e.tag, s); }
  }

  lemma DeliverKeepsServer(s: State, tag: nat, m: Message)
    requires ServerOk(s) && Enabled(s, Deliver(tag, m))
    ensures ServerOk(PutDelivery(s, tag, Delivery(m, Received, None)))
  {
    assert tag in s.replies ==> ReplyOk(s.replies[tag], tag, s);
    DeliveryStep(s, tag, Delivery(m, Received, None));
  }

  lemma BadContextKeepsServer(s: State, tag: nat)
    requires ServerOk(s) && Enabled(s, BadContext(tag))
    ensures ServerOk(PutDelivery(s, tag, s.deliveries[tag].(phase := Replying(ContextError))))
  {
    assert DeliveryOk(s.deliveries[tag], tag, s);
    DeliveryStep(s, tag, s.deliveries[tag].(phase := Replying(ContextError)));
  }

  lemma AcknowledgeKeepsServer(s: State, tag: nat)
    requires ServerOk(s) && Enabled(s, Acknowledge(tag))
    ensures ServerOk(PutDelivery(s, tag, s.deliveries[tag].(phase := Acknowledged)))
  {
    assert DeliveryOk(s.deliveries[tag], tag, s);
    DeliveryStep(s, tag, s.deliveries[tag].(phase := Acknowledged));
  }

  lemma ServerStep(s: State, e: Event)
    requires Inv(s) && ServerEvent(e) && Enabled(s, e)
    ensures ServerOk(Step(s, e)) && Grows(s, Step(s, e))
  {
    ServerGrows(s, e);
    hide ClientsOk, ServerOk, Grows;
    match e {
      case Deliver(tag, m) => DeliverKeepsServer(s, tag, m);
      case BadContext(tag) => BadContextKeepsServer(s, tag);
      case Begin(tag, v, generated) => BeginKeepsServer(s, tag, v, generated);
      case Inside(e) => EngineKeepsServer(s, e);
      case End(tag) => EndKeepsServer(s, tag);
      case SendReply(tag) => SendReplyKeepsServer(s, tag);
      case ReplyFails(tag) => ReplyFailsKeepsServer(s, tag);
      case Acknowledge(tag) => AcknowledgeKeepsServer(s, tag);
    }
  }

  predicate SameServer(s: State, t: State) {
    t.engine == s.engine && t.deliveries == s.deliveries && t.replies == s.replies && t.unsent == s.unsent
  }

  lemma ServerOnly(s: State, t: State)
    requires ServerOk(s) && SameServer(s, t)
    ensures ServerOk(t)
  {
    forall tag | tag in t.deliveries ensures DeliveryOk(t.deliveries[tag], tag, t) {
      assert DeliveryOk(s.deliveries[tag], tag, s);
    }
    forall tag | tag in t.replies ensures ReplyOk(t.replies[tag], tag, t) { assert ReplyOk(s.replies[tag], tag, s); }
  }

  lemma ClientStep(s: State, e: Event)
    requires Inv(s) && !ServerEvent(e) && Enabled(s, e)
    ensures ClientsOk(Step(s, e)) && Grows(s, Step(s, e))
  {
    match e {
      case Call(k, cid) => LocalClientStep(s, k, Step(s, e).clients[k]);
      case CtxEnds(k, why) =>
        assert ClientOk(s.clients[k], s);
        LocalClientStep(s, k, s.clients[k].(ctx := why));
      case Publish(k, name) =>
        assert ClientOk(s.clients[k], s);
        var t := PutClient(s, k, s.clients[k].(phase := Published));
        LocalClientStep(s, k, s.clients[k].(phase := Published));
        ClientsUntouched(t, Step(s, e));
      case PublishFails(k) =>
        assert ClientOk(s.clients[k], s);
        LocalClientStep(s, k, s.clients[k].(phase := Published));
      case Store(k) => StoreKeepsClients(s, k);
      case Lookup(h, source) => LookupKeepsClients(s, h, source);
      case Receive(h) => ReceiveKeepsClients(s, h);
      case Expire(k) =>
        assert ClientOk(s.clients[k], s);
        LocalClientStep(s, k, s.clients[k].(phase := Expiring));
      case Delete(k) => DeleteKeepsClients(s, k);
      case ForeignRequest(m) => ClientsUntouched(s, Step(s, e));
    }
  }

  lemma ServerFrame(s: State, e: Event)
    requires ServerEvent(e) && Enabled(s, e)
    ensures var t := Step(s, e); t.clients == s.clients && t.handlers == s.handlers && t.table == s.table
  {
  }

  lemma ClientFrame(s: State, e: Event)
    requires !ServerEvent(e) && Enabled(s, e)
    ensures SameServer(s, Step(s, e))
  {
  }

  lemma StepKeepsInv(s: State, e: Event)
    requires Inv(s)
    ensures Inv(Apply(s, e)) && Grows(s, Apply(s, e))
  {
    if Enabled(s, e) {
      var t := Step(s, e);
      if ServerEvent(e) {
        ServerStep(s, e);
        ClientsUntouched(s, t) by { ServerFrame(s, e); ServerStep(s, e); }
      } else {
        ClientStep(s, e);
        ServerOnly(s, t) by { ClientFrame(s, e); }
      }
    }
  }

  lemma {:induction false} RunKeepsInv(s: State, es: seq<Event>)
    requires Inv(s)
    ensures Inv(Run(s, es))
    decreases |es|
  {
    if es != [] {
      StepKeepsInv(s, es[0]);
      RunKeepsInv(Apply(s, es[0]), es[1..]);
    }
  }

  // ----- what every run keeps -----

  /** A call consumes at most one reply or broker return, and only one that carries its
      own correlation ID; no two handlers ever hold its channel. */
  lemma ConsumesAtMostOne(queue: string, es: seq<Event>, k: nat)
    ensures var s := Run(Initial(queue), es);
            k in s.clients ==>
              && s.clients[k].receives <= 1
              && (s.clients[k].receives == 1 <==> s.clients[k].phase.Consumed?)
              && (s.clients[k].phase.Consumed? ==>
                    && Matches(s, s.clients[k].phase.source, s.clients[k].cid)
                    && Carries(s, s.clients[k].phase.source, s.clients[k].phase.body))
              && forall g, h ::
                   g in s.handlers && h in s.handlers && s.handlers[g].client == k && s.handlers[h].client == k ==>
                     g == h
  {
    RunKeepsInv(Initial(queue), es);
    var s := Run(Initial(queue), es);
    if k in s.clients {
      assert ClientOk(s.clients[k], s);
      forall g, h | g in s.handlers && h in s.handlers && s.handlers[g].client == k && s.handlers[h].client == k
        ensures g == h
      {
        assert HandlerOk(s.handlers[g], g, s) && HandlerOk(s.handlers[h], h, s);
      }
    }
  }

  /** No entry outlives its call: whatever is in the table waits there still, under its own ID. */
  lemma TableHoldsTheWaiting(queue: string, es: seq<Event>)
    ensures var s := Run(Initial(queue), es);
            forall x :: x in s.table ==>
                          && s.table[x] in s.clients && s.clients[s.table[x]].cid == x
                          && (s.clients[s.table[x]].phase.Waiting? || s.clients[s.table[x]].phase.Expiring?)
  {
    RunKeepsInv(Initial(queue), es);
    var s := Run(Initial(queue), es);
    forall x | x in s.table ensures EntryOk(s.table[x], x, s) {}
  }

  /** What is published for a delivery goes to its ReplyTo under its own correlation ID, and
      an acknowledged delivery was replied to unless, and only unless, its publish failed:
      rpcHandler acknowledges all the same. */
  lemma AcknowledgedAfterReply(queue: string, es: seq<Event>, tag: nat)
    ensures var s := Run(Initial(queue), es);
            && (tag in s.replies ==>
                  && tag in s.deliveries
                  && s.replies[tag].subject == s.deliveries[tag].request.replyTo
                  && s.replies[tag].correlationId == s.deliveries[tag].request.correlationId
                  && s.replies[tag].replyTo == ""
                  && (s.deliveries[tag].phase.Attempted? || s.deliveries[tag].phase.Acknowledged?))
            && (tag in s.deliveries && s.deliveries[tag].phase.Acknowledged? ==>
                  (tag in s.replies <==> tag !in s.unsent))
  {
    RunKeepsInv(Initial(queue), es);
    var s := Run(Initial(queue), es);
    if tag in s.deliveries {
      assert DeliveryOk(s.deliveries[tag], tag, s);
    }
    if tag in s.replies {
      assert ReplyOk(s.replies[tag], tag, s);
      assert DeliveryOk(s.deliveries[tag], tag, s);
    }
  }

  /** Across both hops: bytes that a call got from a Runtime were posted to the daemon under
      the call's own ID, by way of an invocation a Runtime took; an init error came from an
      invocation that no Runtime took; and a time-out text from one whose deadline passed. */
  lemma EndToEnd(queue: string, es: seq<Event>, k: nat)
    ensures var s := Run(Initial(queue), es);
            k in s.clients && s.clients[k].phase.Consumed? && s.clients[k].phase.source.Reply? ==>
              var tag := s.clients[k].phase.source.tag;
              && tag in s.replies && tag in s.deliveries
              && s.deliveries[tag].request.correlationId == s.clients[k].cid
              && s.clients[k].phase.body == s.replies[tag].body
              && (s.replies[tag].body.Result? ==>
                    && s.deliveries[tag].inv.Some?
                    && var v := s.deliveries[tag].inv.value;
                       && v in s.engine.invs && s.engine.invs[v].cid == s.clients[k].cid
                       && match s.replies[tag].body.outcome
                          case Answered(Posted(id, body)) =>
                            && id == s.clients[k].cid
                            && Engine.Posted(id, body) in s.engine.log.posts && v in s.engine.log.taken
                          case Answered(InitError(n, report)) =>
                            && n in s.engine.log.errorTo && s.engine.log.errorTo[n] == v && v !in s.engine.log.taken
                            && n < |s.engine.log.reports| && s.engine.log.reports[n] == report
                          case TimedOut => s.engine.invs[v].ctx.DeadlineExceeded?
                          case Abandoned => s.engine.invs[v].ctx.ClientCancelled?
                          case Panicked => false)
  {
    RunKeepsInv(Initial(queue), es);
    var s := Run(Initial(queue), es);
    if k in s.clients && s.clients[k].phase.Consumed? && s.clients[k].phase.source.Reply? {
      assert ClientOk(s.clients[k], s);
      var tag := s.clients[k].phase.source.tag;
      assert ReplyOk(s.replies[tag], tag, s);
      if s.replies[tag].body.Result? {
        var v := s.deliveries[tag].inv.value;
        assert Engine.InvocationOk(s.engine.invs[v], v, s.engine.log);
      }
    }
  }

  /** Call k has consumed this reply or return, and what it carries. */
  predicate Consumes(s: State, k: nat, source: Source) {
    && k in s.clients && s.clients[k].phase.Consumed? && s.clients[k].phase.source == source
    && Carries(s, source, s.clients[k].phase.body)
  }

  /** A reply or return that arrives while the call waits in the table is what it consumes. */
  lemma ReplyReachesCaller(s: State, k: nat, h: nat, source: Source)
    requires Inv(s) && ClientIn(s, k, Waiting) && Enabled(s, Lookup(h, source))
    requires SourceCid(s, source) == s.clients[k].cid && s.clients[k].cid in s.table && s.table[s.clients[k].cid] == k
    ensures var t := Apply(Apply(s, Lookup(h, source)), Receive(h));
            && Consumes(t, k, source) && Carries(s, source, t.clients[k].phase.body)
            && t.table == s.table - {s.clients[k].cid}
  {
    var u := DoLookup(s, h, source);
    assert Apply(s, Lookup(h, source)) == u;
    assert u.handlers[h] == Handler(k, source, SourceBody(s, source)) && ClientIn(u, k, Waiting);
    assert Apply(u, Receive(h)) == DoReceive(u, h);
  }

  // ----- replies that overtake the store -----

  /** A lookup for a reply or return under this ID. */
  predicate LooksUp(s: State, e: Event, x: Cid) { Enabled(s, e) && e.Lookup? && SourceCid(s, e.source) == x }

  predicate NeverLooksUp(s: State, es: seq<Event>, x: Cid)
    decreases |es|
  {
    es == [] || (!LooksUp(s, es[0], x) && NeverLooksUp(Apply(s, es[0]), es[1..], x))
  }

  /** Call k has stored its channel, and nobody has taken it out. */
  ghost predicate Unreached(s: State, k: nat) {
    && k in s.clients && s.clients[k].token.InTable? && !s.clients[k].phase.Consumed?
    && !s.clients[k].phase.Starting? && !s.clients[k].phase.Published?
    && (forall h :: h in s.handlers ==> s.handlers[h].client != k)
    && (forall x :: x in s.table && s.table[x] == k ==> x == s.clients[k].cid)
  }

  lemma UnreachedLookup(s: State, h: nat, source: Source, k: nat)
    requires Unreached(s, k) && Arrives(s, source) && SourceCid(s, source) != s.clients[k].cid
    ensures Unreached(DoLookup(s, h, source), k) && DoLookup(s, h, source).clients[k] == s.clients[k]
  {
  }

  lemma UnreachedStep(s: State, e: Event, k: nat)
    requires Unreached(s, k) && !LooksUp(s, e, s.clients[k].cid)
    ensures Unreached(Apply(s, e), k) && Apply(s, e).clients[k].cid == s.clients[k].cid
  {
    if Enabled(s, e) {
      if ServerEvent(e) {
        ServerFrame(s, e);
      } else {
        match e {
          case Store(j) => assert Unreached(DoStore(s, j), k);
          case Lookup(h, source) => UnreachedLookup(s, h, source, k);
          case Receive(h) => assert Unreached(DoReceive(s, h), k);
          case Delete(j) => assert Unreached(DoDelete(s, j), k);
          case _ =>
        }
      }
    }
  }

  lemma {:induction false} UnreachedRun(s: State, es: seq<Event>, k: nat)
    requires Unreached(s, k) && NeverLooksUp(s, es, s.clients[k].cid)
    ensures Unreached(Run(s, es), k)
    decreases |es|
  {
    if es != [] {
      UnreachedStep(s, es[0], k);
      UnreachedRun(Apply(s, es[0]), es[1..], k);
    }
  }

  /** A reply or return is dropped exactly when nothing is stored under its ID. */
  lemma DroppedIff(s: State, h: nat, source: Source)
    requires Inv(s) && Enabled(s, Lookup(h, source))
    ensures Apply(s, Lookup(h, source)) == s <==> SourceCid(s, source) !in s.table
  {
    var x := SourceCid(s, source);
    if x in s.table {
      assert EntryOk(s.table[x], x, s);
      assert h in Apply(s, Lookup(h, source)).handlers;
    }
  }

  lemma StoreIsUnreached(s: State, k: nat)
    requires Inv(s) && ClientIn(s, k, Published)
    ensures Unreached(Apply(s, Store(k)), k) && Apply(s, Store(k)).clients[k].cid == s.clients[k].cid
    ensures ClientIn(Apply(s, Store(k)), k, Waiting)
    ensures s.clients[k].cid in Apply(s, Store(k)).table && Apply(s, Store(k)).table[s.clients[k].cid] == k
  {
    var t := DoStore(s, k);
    assert Apply(s, Store(k)) == t;
    assert ClientOk(s.clients[k], s);
    forall h | h in t.handlers ensures t.handlers[h].client != k { assert HandlerOk(s.handlers[h], h, s); }
    forall x | x in t.table && t.table[x] == k ensures x == t.clients[k].cid {
      if x in s.table { assert EntryOk(s.table[x], x, s); }
    }
  }

  /** A call that has published and not yet stored does not get the reply that arrives now:
      with nothing else stored under its ID the reply is dropped.  Whatever follows the
      store, the call consumes nothing unless another reply or return is looked up under
      its ID, so it can only time out or be abandoned; and if the same reply is delivered
      once more while it waits, that is what it consumes. */
  lemma OvertakingReplyIsLost(s: State, k: nat, h: nat, source: Source, es: seq<Event>)
    requires Inv(s) && ClientIn(s, k, Published) && Enabled(s, Lookup(h, source))
    requires SourceCid(s, source) == s.clients[k].cid && s.clients[k].cid !in s.table
    requires NeverLooksUp(Apply(s, Store(k)), es, s.clients[k].cid)
    ensures Apply(s, Lookup(h, source)) == s
    ensures var t := Run(Apply(s, Store(k)), es);
            && k in t.clients && t.clients[k].receives == 0
            && (t.clients[k].phase.Waiting? || t.clients[k].phase.Expiring?
                || t.clients[k].phase.TimedOut? || t.clients[k].phase.Abandoned?)
    ensures var t := Apply(s, Store(k));
            Enabled(t, Lookup(h, source)) && Consumes(Apply(Apply(t, Lookup(h, source)), Receive(h)), k, source)
  {
    hide Apply, Step;
    RedeliveredReplyIsConsumed(s, k, h, source);
    DroppedIff(s, h, source);
    var t := Apply(s, Store(k));
    StoreIsUnreached(s, k);
    StepKeepsInv(s, Store(k));
    UnreachedRun(t, es, k);
    RunKeepsInv(t, es);
    assert ClientOk(Run(t, es).clients[k], Run(t, es));
  }

  lemma RedeliveredReplyIsConsumed(s: State, k: nat, h: nat, source: Source)
    requires Inv(s) && ClientIn(s, k, Published) && Enabled(s, Lookup(h, source))
    requires SourceCid(s, source) == s.clients[k].cid
    ensures var t := Apply(s, Store(k));
            Enabled(t, Lookup(h, source)) && Consumes(Apply(Apply(t, Lookup(h, source)), Receive(h)), k, source)
  {
    StoreFrame(s, k, h, source);
    StoreIsUnreached(s, k);
    StepKeepsInv(s, Store(k));
    hide Apply, Inv, Unreached, Consumes, Enabled, Arrives;
    ReplyReachesCaller(Apply(s, Store(k)), k, h, source);
  }

  lemma StoreFrame(s: State, k: nat, h: nat, source: Source)
    requires ClientIn(s, k, Published) && Enabled(s, Lookup(h, source))
    ensures var t := Apply(s, Store(k));
            Enabled(t, Lookup(h, source)) && SourceCid(t, source) == SourceCid(s, source)
  {
    assert Apply(s, Store(k)) == DoStore(s, k);
  }

  /** The request of call 0, and a daemon that answers it before the call has stored. */
  function Overtaking(queue: string, cid: Cid): seq<Event> {
    [Call(0, cid), Publish(0, "f"), Deliver(0, Message("f", queue, cid, Payload)), BadContext(0), SendReply(0)]
  }

  /** And replies do overtake: this run reaches such a state. */
  lemma RepliesOvertake(queue: string, cid: Cid)
    requires cid != ""
    ensures var s := Run(Initial(queue), Overtaking(queue, cid));
            && Inv(s) && ClientIn(s, 0, Published) && s.clients[0].cid == cid && cid !in s.table
            && Enabled(s, Lookup(0, Reply(0))) && SourceCid(s, Reply(0)) == cid
  {
    var m := Message("f", queue, cid, Payload);
    var s := Initial(queue).(clients := map[0 := Client(cid, Published, Engine.Live, Unstored, 0)], requests := {m});
    PublishesFirst(queue, cid);
    AnsweredAtOnce(s, m);
    RunKeepsInv(Initial(queue), Overtaking(queue, cid));
    hide Apply, Inv;
    RunFive(Initial(queue), Call(0, cid), Publish(0, "f"), Deliver(0, m), BadContext(0), SendReply(0));
  }

  lemma PublishesFirst(queue: string, cid: Cid)
    requires cid != ""
    ensures Apply(Apply(Initial(queue), Call(0, cid)), Publish(0, "f"))
         == Initial(queue).(clients := map[0 := Client(cid, Published, Engine.Live, Unstored, 0)],
                            requests := {Message("f", queue, cid, Payload)})
  {
    var s := Initial(queue).(clients := map[0 := Client(cid, Starting, Engine.Live, Unstored, 0)]);
    assert Apply(Initial(queue), Call(0, cid)) == s;
  }

  lemma AnsweredAtOnce(s: State, m: Message)
    requires s.deliveries == map[] && s.replies == map[] && m in s.requests
    ensures Apply(Apply(Apply(s, Deliver(0, m)), BadContext(0)), SendReply(0))
         == s.(deliveries := map[0 := Delivery(m, Attempted, None)], replies := map[0 := MakeReply(m, ContextError)])
  {
    var t := s.(deliveries := map[0 := Delivery(m, Received, None)]);
    assert Apply(s, Deliver(0, m)) == t;
    var u := s.(deliveries := map[0 := Delivery(m, Replying(ContextError), None)]);
    assert Apply(t, BadContext(0)) == u;
    RepliesWithError(u, m);
  }

  lemma RepliesWithError(u: State, m: Message)
    requires u.deliveries == map[0 := Delivery(m, Replying(ContextError), None)] && u.replies == map[]
    ensures Apply(u, SendReply(0))
         == u.(deliveries := map[0 := Delivery(m, Attempted, None)], replies := map[0 := MakeReply(m, ContextError)])
  {
    assert Apply(u, SendReply(0)) == DoSendReply(u, 0);
    assert u.deliveries[0 := Delivery(m, Attempted, None)] == map[0 := Delivery(m, Attempted, None)];
  }

  lemma RunFive(s: State, a: Event, b: Event, c: Event, d: Event, e: Event)
    ensures Run(s, [a, b, c, d, e]) == Apply(Apply(Apply(Apply(Apply(s, a), b), c), d), e)
  {
    hide Apply;
    var es := [a, b, c, d, e];
    assert es[1..] == [b, c, d, e] && es[1..][1..] == [c, d, e] && es[1..][1..][1..] == [d, e];
    assert [d, e][1..] == [e] && [e][1..] == [];
    var t := Apply(Apply(Apply(s, a), b), c);
    assert Run(t, [d, e]) == Run(Apply(t, d), [e]) == Run(Apply(Apply(t, d), e), []);
    assert Run(Apply(Apply(s, a), b), [c, d, e]) == Run(t, [d, e]);
    assert Run(Apply(s, a), [b, c, d, e]) == Run(Apply(Apply(s, a), b), [c, d, e]);
  }

  // ----- replies that fail -----

  /** A delivery of someone's request whose reply fails to be published. */
  function Unanswered(m: Message): seq<Event> {
    [ForeignRequest(m), Deliver(0, m), BadContext(0), ReplyFails(0), Acknowledge(0)]
  }

  /** It is acknowledged all the same, so nobody will ever reply to it. */
  lemma AcknowledgedWithoutReply(queue: string, m: Message)
    requires m.replyTo != queue
    ensures var s := Run(Initial(queue), Unanswered(m));
            && 0 in s.deliveries && s.deliveries[0].request == m && s.deliveries[0].phase.Acknowledged?
            && 0 in s.unsent && 0 !in s.replies
  {
    var s := Initial(queue).(requests := {m}, deliveries := map[0 := Delivery(m, Replying(ContextError), None)]);
    FailingRequest(queue, m);
    FailingReply(s, m);
    hide Apply;
    RunFive(Initial(queue), ForeignRequest(m), Deliver(0, m), BadContext(0), ReplyFails(0), Acknowledge(0));
  }

  lemma FailingRequest(queue: string, m: Message)
    requires m.replyTo != queue
    ensures Apply(Apply(Apply(Initial(queue), ForeignRequest(m)), Deliver(0, m)), BadContext(0))
         == Initial(queue).(requests := {m}, deliveries := map[0 := Delivery(m, Replying(ContextError), None)])
  {
    var s1 := Initial(queue).(requests := {m});
    assert Apply(Initial(queue), ForeignRequest(m)) == s1;
    var s2 := s1.(deliveries := map[0 := Delivery(m, Received, None)]);
    assert Apply(s1, Deliver(0, m)) == s2;
    var s3 := s2.(deliveries := map[0 := Delivery(m, Replying(ContextError), None)]);
    assert Apply(s2, BadContext(0)) == s3;
  }

  lemma FailingReply(s: State, m: Message)
    requires s.deliveries == map[0 := Delivery(m, Replying(ContextError), None)]
    ensures Apply(Apply(s, ReplyFails(0)), Acknowledge(0))
         == s.(deliveries := map[0 := Delivery(m, Acknowledged, None)], unsent := s.unsent + {0})
  {
    var t := s.(deliveries := map[0 := Delivery(m, Attempted, None)], unsent := s.unsent + {0});
    assert Apply(s, ReplyFails(0)) == t;
    FailingAcknowledgement(t, m);
  }

  lemma FailingAcknowledgement(t: State, m: Message)
    requires t.deliveries == map[0 := Delivery(m, Attempted, None)]
    ensures Apply(t, Acknowledge(0)) == t.(deliveries := map[0 := Delivery(m, Acknowledged, None)])
  {
    assert t.deliveries[0 := Delivery(m, Acknowledged, None)] == map[0 := Delivery(m, Acknowledged, None)];
  }

  // ----- response handlers that block -----

  /** The call that handler h sends to has given up. */
  predicate GivenUp(s: State, h: nat) {
    h in s.handlers && s.handlers[h].client in s.clients
    && (s.clients[s.handlers[h].client].phase.Expiring?
        || s.clients[s.handlers[h].client].phase.TimedOut? || s.clients[s.handlers[h].client].phase.Abandoned?)
  }

  /** Handler h is still there after this run. */
  predicate Blocks(s: State, h: nat, es: seq<Event>) { h in Run(s, es).handlers }

  lemma GivenUpStep(s: State, e: Event, h: nat)
    requires GivenUp(s, h)
    ensures GivenUp(Apply(s, e), h)
  {
    if Enabled(s, e) {
      if ServerEvent(e) {
        ServerFrame(s, e);
      } else {
        match e {
          case Store(j) => assert GivenUp(DoStore(s, j), h);
          case Lookup(g, source) => assert GivenUp(DoLookup(s, g, source), h);
          case Receive(g) => assert GivenUp(DoReceive(s, g), h);
          case Delete(j) => assert GivenUp(DoDelete(s, j), h);
          case _ =>
        }
      }
    }
  }

  lemma {:induction false} GivenUpRun(s: State, es: seq<Event>, h: nat)
    requires GivenUp(s, h)
    ensures GivenUp(Run(s, es), h)
    decreases |es|
  {
    if es != [] {
      GivenUpStep(s, es[0], h);
      GivenUpRun(Apply(s, es[0]), es[1..], h);
    }
  }

  /** The channel is unbuffered: a handler that took it out blocks for ever exactly when
      its call has given up meanwhile. */
  lemma BlocksForeverIff(s: State, h: nat)
    requires Inv(s) && h in s.handlers
    ensures (forall es :: Blocks(s, h, es)) <==> GivenUp(s, h)
  {
    assert HandlerOk(s.handlers[h], h, s);
    var k := s.handlers[h].client;
    assert ClientOk(s.clients[k], s);
    if GivenUp(s, h) {
      forall es ensures Blocks(s, h, es) { GivenUpRun(s, es, h); }
    } else {
      var es := [Receive(h)];
      assert Apply(s, Receive(h)) == DoReceive(s, h);
      assert Run(s, es) == DoReceive(s, h) by { assert es[1..] == []; }
      assert !Blocks(s, h, es);
    }
  }

  // ----- the objects -----

  lemma StoreTable(s: State, k: nat)
    requires ClientIn(s, k, Published)
    ensures Apply(s, Store(k)).table == s.table[s.clients[k].cid := k]
  {
  }

  lemma DeleteTable(s: State, k: nat)
    requires ClientIn(s, k, Expiring)
    ensures Apply(s, Delete(k)).table == s.table - {s.clients[k].cid}
  {
  }

  lemma LookupTable(s: State, h: nat, source: Source)
    requires Inv(s) && Enabled(s, Lookup(h, source))
    ensures var x := SourceCid(s, source);
            var t := Apply(s, Lookup(h, source));
            && t.table == s.table - {x}
            && (if x in s.table
                then h in t.handlers && t.handlers[h] == Handler(s.table[x], source, SourceBody(s, source))
                else t == s)
  {
    var x := SourceCid(s, source);
    assert Apply(s, Lookup(h, source)) == DoLookup(s, h, source);
    if x in s.table {
      assert EntryOk(s.table[x], x, s);
    } else {
      assert s.table - {x} == s.table;
    }
  }

  /** The table of RPCInvoker; each method is one section under its mutex, and the step of
      the machine whose table it represents. */
  class RPCInvoker {
    var pendingRequests: map<Cid, nat>  // the channel of call k is k

    ghost predicate Represents(s: State)
      reads this
    {
      pendingRequests == s.table
    }

    constructor ()
      ensures forall queue :: Represents(Initial(queue))
    {
      pendingRequests := map[];
    }

    method Store(cid: Cid, channel: nat)
      modifies this
      ensures pendingRequests == old(pendingRequests)[cid := channel]
      ensures forall s :: old(Represents(s)) && ClientIn(s, channel, Published) && s.clients[channel].cid == cid ==>
                            Represents(Apply(s, Event.Store(channel)))
    {
      pendingRequests := pendingRequests[cid := channel];
      forall s | old(Represents(s)) && ClientIn(s, channel, Published) && s.clients[channel].cid == cid
        ensures Represents(Apply(s, Event.Store(channel)))
      {
        StoreTable(s, channel);
      }
    }

    /** rpcResponseHandler up to its send, for a reply or a broker return: the channel is
        that of a call under the same ID, and from here on this handler alone holds it. */
    method TakeChannel(cid: Cid) returns (channel: Option<nat>)
      modifies this
      ensures channel == if cid in old(pendingRequests) then Some(old(pendingRequests)[cid]) else None
      ensures pendingRequests == old(pendingRequests) - {cid}
      ensures forall s, h, source ::
                old(Represents(s)) && Inv(s) && Enabled(s, Lookup(h, source)) && SourceCid(s, source) == cid ==>
                  var t := Apply(s, Lookup(h, source));
                  && Represents(t) && Inv(t)
                  && (channel.None? ==> t == s)
                  && (channel.Some? ==> h in t.handlers
                                        && t.handlers[h] == Handler(channel.value, source, SourceBody(s, source))
                                        && channel.value in t.clients && t.clients[channel.value].cid == cid
                                        && t.clients[channel.value].token == WithHandler(h))
    {
      channel := None;
      if cid in pendingRequests {
        channel := Some(pendingRequests[cid]);
        pendingRequests := pendingRequests - {cid};
      }
      forall s, h, source | old(Represents(s)) && Inv(s) && Enabled(s, Lookup(h, source)) && SourceCid(s, source) == cid
        ensures var t := Apply(s, Lookup(h, source));
                && Represents(t) && Inv(t)
                && (channel.None? ==> t == s)
                && (channel.Some? ==> h in t.handlers
                                      && t.handlers[h] == Handler(channel.value, source, SourceBody(s, source))
                                      && channel.value in t.clients && t.clients[channel.value].cid == cid
                                      && t.clients[channel.value].token == WithHandler(h))
      {
        hide Apply;
        LookupTable(s, h, source);
        StepKeepsInv(s, Lookup(h, source));
        var t := Apply(s, Lookup(h, source));
        assert channel.Some? ==> HandlerOk(t.handlers[h], h, t);
        assert channel.Some? ==> Matches(t, source, t.clients[channel.value].cid) && Grows(s, t);
      }
    }

    method Delete(cid: Cid)
      modifies this
      ensures pendingRequests == old(pendingRequests) - {cid}
      ensures forall s, k :: old(Represents(s)) && ClientIn(s, k, Expiring) && s.clients[k].cid == cid ==>
                               Represents(Apply(s, Event.Delete(k)))
    {
      pendingRequests := pendingRequests - {cid};
      forall s, k | old(Represents(s)) && ClientIn(s, k, Expiring) && s.clients[k].cid == cid
        ensures Represents(Apply(s, Event.Delete(k)))
      {
        DeleteTable(s, k);
      }
    }
  }

  /** A message on its way through rpcHandler. */
  class Delivered {
    var subject: string
    var replyTo: string
    const correlationId: Cid
    var body: Body
    var published: seq<Message>
    var attempted: bool
    var acknowledged: bool

    function View(): Message
      reads this
    {
      Message(subject, replyTo, correlationId, body)
    }

    constructor (m: Message)
      ensures View() == m && published == [] && !attempted && !acknowledged
    {
      subject, replyTo, correlationId, body := m.subject, m.replyTo, m.correlationId, m.body;
      published, attempted, acknowledged := [], false, false;
    }

    /** rpcHandler does not look at whether the publish went through. */
    method Acknowledge()
      requires attempted
      modifies this`acknowledged
      ensures acknowledged
    {
      acknowledged := true;
    }

    /** The end of rpcHandler, once invoke has returned: rewrite, publish, acknowledge.
        goesThrough: the publish does not fail. */
    method Answer(result: Body, goesThrough: bool)
      requires published == []
      modifies this
      ensures published == (if goesThrough then [MakeReply(old(View()), result)] else []) && acknowledged
    {
      body := result;
      subject := replyTo;
      replyTo := "";
      if goesThrough {
        published := published + [View()];
      }
      attempted := true;
      Acknowledge();
    }
  }
}

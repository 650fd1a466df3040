/** Whole journeys over the AMQP hop: a call that gives up, and a request from its delivery to
    its reply. */
module RpcRoundTrip {
  import opened Common
  import opened RpcHop
  import Engine = Rendezvous

  /** A waiting call whose context has ended can return: with the time-out after a deadline,
      with nothing after a cancellation, and with no entry under its ID. */
  lemma CallCanReturn(s: State, k: nat)
    requires ClientIn(s, k, Waiting) && !s.clients[k].ctx.Live?
    ensures var t := Apply(Apply(s, Expire(k)), Delete(k));
            && ClientIn(t, k, if s.clients[k].ctx.DeadlineExceeded? then TimedOut else Abandoned)
            && s.clients[k].cid !in t.table && t.clients[k].receives == s.clients[k].receives
  {
    var u := PutClient(s, k, s.clients[k].(phase := Expiring));
    assert Apply(s, Expire(k)) == u;
    assert Apply(u, Delete(k)) == DoDelete(u, k);
  }

  /** A delivered request starts a new invocation in the daemon, under its own ID if it has one
      and a generated one if not. */
  lemma RequestBegins(s: State, m: Message, tag: nat, v: nat, generated: Cid)
    requires m in s.requests && tag !in s.deliveries && v !in s.engine.invs && generated != ""
    ensures var t := Apply(Apply(s, Deliver(tag, m)), Begin(tag, v, generated));
            && tag in t.deliveries && t.deliveries[tag] == Delivery(m, Invoking(v), Some(v))
            && Engine.InPhase(t.engine, v, Engine.Trying)
            && t.engine.invs[v].cid == (if m.correlationId != "" then m.correlationId else generated)
            && t.engine.pending == s.engine.pending && t.engine.runtimes == s.engine.runtimes
  {
    var u := PutDelivery(s, tag, Delivery(m, Received, None));
    assert Apply(s, Deliver(tag, m)) == u;
    assert Apply(u, Begin(tag, v, generated)) == DoBegin(u, tag, v, generated);
  }

  /** What its invocation returned is published to its ReplyTo under its own ID, and then it
      is acknowledged. */
  lemma RequestIsAnswered(s: State, tag: nat, v: nat)
    requires tag in s.deliveries && s.deliveries[tag].phase == Invoking(v) && v in s.engine.invs
    requires s.engine.invs[v].phase.Finished? && !s.engine.invs[v].phase.outcome.Panicked?
    ensures var m := s.deliveries[tag].request;
            var t := Apply(Apply(Apply(s, End(tag)), SendReply(tag)), Acknowledge(tag));
            && tag in t.deliveries && t.deliveries[tag].phase.Acknowledged?
            && tag in t.replies && t.replies[tag]
               == Message(m.replyTo, "", m.correlationId, Result(s.engine.invs[v].phase.outcome))
  {
    var d, body := s.deliveries[tag], Result(s.engine.invs[v].phase.outcome);
    var t := PutDelivery(s, tag, d.(phase := Replying(body)));
    assert Apply(s, End(tag)) == t;
    var u := DoSendReply(t, tag);
    assert Apply(t, SendReply(tag)) == u;
    Acknowledges(u, tag);
  }

  lemma Acknowledges(u: State, tag: nat)
    requires tag in u.deliveries && u.deliveries[tag].phase.Attempted?
    ensures Apply(u, Acknowledge(tag)) == PutDelivery(u, tag, u.deliveries[tag].(phase := Acknowledged))
  {
  }
}

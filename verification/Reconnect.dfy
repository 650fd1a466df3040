/** connectionAMQP091.reconnect and CloseNotify: a bounded number of dials, a permanent
    error once they are used up, and one notification for every listener. */
module Reconnect {
  import opened Common

  type Error = string

  const CANCELLED: Error := "connection has been cancelled"

  /** What one pass of the dialling loop meets.  cancelled: the context was done during the
      sleep that follows a failed dial. */
  datatype Attempt = Connected | Refused(error: Error, cancelled: bool)

  datatype Outcome = Up | Cancelled | Exhausted(error: Error)

  /** The loop over at most n attempts, and how many of them dial. */
  function Dial(script: seq<Attempt>, n: nat): (r: (Outcome, nat))
    requires n <= |script|
    ensures r.1 <= n
    decreases n
  {
    if n == 0 then (Up, 0)  // no dial at all, and no error either
    else
      match script[0]
      case Connected => (Up, 1)
      case Refused(e, cancelled) =>
        if cancelled then (Cancelled, 1)
        else if n == 1 then (Exhausted(e), 1)
        else
          var (o, dials) := Dial(script[1..], n - 1);
          (o, dials + 1)
  }

  /** The attempts that a call uses: all but the last were refused and slept through. */
  lemma {:induction false} DialStopsAtTheFirst(script: seq<Attempt>, n: nat)
    requires 1 <= n <= |script|
    ensures var (o, dials) := Dial(script, n);
            && 1 <= dials <= n
            && (forall i :: 0 <= i < dials - 1 ==> script[i].Refused? && !script[i].cancelled)
            && (o.Up? <==> script[dials - 1].Connected?)
            && (o.Cancelled? <==> script[dials - 1].Refused? && script[dials - 1].cancelled)
            && (o.Exhausted? ==> dials == n && script[n - 1] == Refused(o.error, false))
    decreases n
  {
    if n > 1 && script[0].Refused? && !script[0].cancelled {
      DialStopsAtTheFirst(script[1..], n - 1);
    }
  }

  // ----- the whole life of a connection -----

  datatype Life = Life(err: Option<Error>, listeners: nat, notified: nat, dials: nat)

  datatype Call = Listen | Retry(isClosed: bool, script: seq<Attempt>)

  function Step(l: Life, c: Call, attempts: nat): Life {
    match c
    case Listen => l.(listeners := l.listeners + 1)
    case Retry(isClosed, script) =>
      if l.err.Some? || !isClosed || attempts > |script| then l
      else
        var (outcome, n) := Dial(script, attempts);
        match outcome
        case Up => l.(dials := l.dials + n)
        case Cancelled => l.(err := Some(CANCELLED), dials := l.dials + n)
        case Exhausted(e) => l.(err := Some(e), notified := l.listeners, dials := l.dials + n)
  }

  // ----- the object -----

  /** The buffered channel that CloseNotify returns. */
  class Listener {
    var received: seq<Error>
    var closed: bool

    constructor ()
      ensures received == [] && !closed
    {
      received, closed := [], false;
    }

    /** A send on a closed channel would panic, and on a full one block. */
    method Send(e: Error)
      requires !closed && received == []
      modifies this`received
      ensures received == [e]
    {
      received := [e];
    }

    method Close()
      requires !closed
      modifies this`closed
      ensures closed
    {
      closed := true;
    }
  }

  class Connection {
    const connectionAttempts: nat
    var err: Option<Error>
    var closeListeners: seq<Listener>
    ghost var notified: nat  // how many listeners there were when the attempts were exhausted
    ghost var dialled: nat   // every dial so far

    ghost function View(): Life
      reads this
    {
      Life(err, |closeListeners|, notified, dialled)
    }

    ghost predicate Valid()
      reads this, closeListeners
    {
      && (forall i, j :: 0 <= i < j < |closeListeners| ==> closeListeners[i] != closeListeners[j])
      && notified <= |closeListeners|
      && (err.None? ==> notified == 0)
      && (forall i :: 0 <= i < |closeListeners| ==>
                        if i < notified then
                          closeListeners[i].closed && err.Some? && closeListeners[i].received == [err.value]
                        else !closeListeners[i].closed && closeListeners[i].received == [])
    }

    constructor (connectionAttempts: nat)
      ensures Valid() && this.connectionAttempts == connectionAttempts && closeListeners == []
      ensures View() == Life(None, 0, 0, 0)
    {
      this.connectionAttempts := connectionAttempts;
      err := None;
      closeListeners := [];
      notified, dialled := 0, 0;
    }

    method CloseNotify() returns (listener: Listener)
      requires Valid()
      modifies this`closeListeners
      ensures Valid() && fresh(listener) && closeListeners == old(closeListeners) + [listener]
      ensures !listener.closed && listener.received == []
      ensures View() == Step(old(View()), Listen, connectionAttempts)
    {
      listener := new Listener();
      closeListeners := closeListeners + [listener];
    }

    /** The loop over the listeners. */
    method NotifyAll(e: Error)
      requires Valid() && err == Some(e) && notified == 0
      modifies this`notified, closeListeners
      ensures Valid() && notified == |closeListeners|
    {
      var k := 0;
      while k < |closeListeners|
        invariant 0 <= k <= |closeListeners| && notified == k
        invariant Valid()
        invariant closeListeners == old(closeListeners)
        modifies this`notified, closeListeners
      {
        closeListeners[k].Send(e);
        closeListeners[k].Close();
        k := k + 1;
        notified := k;
      }
    }

    /** The dialling loop. */
    method DialLoop(script: seq<Attempt>) returns (outcome: Outcome, dials: nat)
      requires connectionAttempts <= |script|
      ensures (outcome, dials) == Dial(script, connectionAttempts)
    {
      outcome, dials := Up, 0;
      while dials < connectionAttempts
        invariant 0 <= dials <= connectionAttempts
        invariant dials > 0 ==> script[dials - 1].Refused? && outcome == Exhausted(script[dials - 1].error)
        invariant dials == 0 ==> outcome == Up
        invariant dials < connectionAttempts ==>
                    var (o, n) := Dial(script[dials..], connectionAttempts - dials);
                    Dial(script, connectionAttempts) == (o, n + dials)
        invariant dials == connectionAttempts ==> Dial(script, connectionAttempts) == (outcome, dials)
      {
        var a := script[dials];
        assert script[dials..][1..] == script[dials + 1..];
        dials := dials + 1;
        match a {
          case Connected => return Up, dials;
          case Refused(e, cancelled) =>
            outcome := Exhausted(e);
            if cancelled { return Cancelled, dials; }
        }
      }
    }

    /** isClosed: whether the underlying connection is closed.  script: what the dials meet. */
    method Reconnect(isClosed: bool, script: seq<Attempt>) returns (result: Option<Error>, dials: nat)
      requires Valid() && connectionAttempts <= |script|
      modifies this`err, this`notified, this`dialled, closeListeners
      ensures Valid() && result == err
      ensures View() == Step(old(View()), Retry(isClosed, script), connectionAttempts)
      ensures dials == dialled - old(dialled) <= connectionAttempts
    {
      dials := 0;
      if isClosed && err.None? {
        var outcome;
        outcome, dials := DialLoop(script);
        dialled := dialled + dials;
        match outcome {
          case Up => err := None;
          case Cancelled => err := Some(CANCELLED);
          case Exhausted(e) =>
            err := Some(e);
            NotifyAll(e);
        }
      }
      result := err;
    }
  }

  // ----- over any sequence of calls -----

  function Run(l: Life, calls: seq<Call>, attempts: nat): Life
    decreases |calls|
  {
    if calls == [] then l else Run(Step(l, calls[0], attempts), calls[1..], attempts)
  }

  /** What a call amounts to, by the attempt that ends it: nothing but for a closed connection
      without an error; else a new connection, or the cancellation as the error, or the
      error of the last attempt and a notification of everyone who listens. */
  lemma RetryResult(l: Life, isClosed: bool, script: seq<Attempt>, attempts: nat)
    requires 1 <= attempts <= |script|
    ensures var m := Step(l, Retry(isClosed, script), attempts);
            && m.listeners == l.listeners
            && (l.err.Some? || !isClosed ==> m == l)
            && (l.err.None? && isClosed ==>
                  var d := m.dials - l.dials;
                  && 1 <= d <= attempts
                  && (forall i :: 0 <= i < d - 1 ==> script[i].Refused? && !script[i].cancelled)
                  && match script[d - 1]
                     case Connected => m.err == None && m.notified == l.notified
                     case Refused(e, cancelled) =>
                       if cancelled then m.err == Some("connection has been cancelled") && m.notified == l.notified
                       else m.err == Some(e) && d == attempts && m.notified == l.listeners)
  {
    DialStopsAtTheFirst(script, attempts);
  }

  /** Once there is an error it is permanent: no later call dials or notifies. */
  lemma {:induction false} ErrorIsPermanent(l: Life, calls: seq<Call>, attempts: nat)
    requires l.err.Some?
    ensures var m := Run(l, calls, attempts);
            m.err == l.err && m.dials == l.dials && m.notified == l.notified && m.listeners >= l.listeners
    decreases |calls|
  {
    if calls != [] { ErrorIsPermanent(Step(l, calls[0], attempts), calls[1..], attempts); }
  }

  lemma {:induction false} NothingNotifiedWhileUp(l: Life, calls: seq<Call>, attempts: nat)
    requires l.err.None? && l.notified == 0
    ensures var m := Run(l, calls, attempts);
            (m.err.None? ==> m.notified == 0) && m.notified <= m.listeners
    decreases |calls|
  {
    if calls != [] {
      var m := Step(l, calls[0], attempts);
      if m.err.Some? {
        ErrorIsPermanent(m, calls[1..], attempts);
      } else {
        NothingNotifiedWhileUp(m, calls[1..], attempts);
      }
    }
  }

  /** Listener i is notified over the connection's whole life exactly when it was registered
      before the call that exhausted the attempts. */
  lemma NotifiedIffRegisteredBefore(before: seq<Call>, isClosed: bool, script: seq<Attempt>, after: seq<Call>,
                                    attempts: nat, i: nat)
    requires 1 <= attempts <= |script|
    requires var l := Run(Life(None, 0, 0, 0), before, attempts);
             l.err.None? && isClosed && Dial(script, attempts).0.Exhausted?
    ensures var l := Run(Life(None, 0, 0, 0), before, attempts);
            var m := Run(Step(l, Retry(isClosed, script), attempts), after, attempts);
            && (i < m.notified <==> i < l.listeners)
            && m.dials == l.dials + attempts
  {
    var l := Run(Life(None, 0, 0, 0), before, attempts);
    NothingNotifiedWhileUp(Life(None, 0, 0, 0), before, attempts);
    DialStopsAtTheFirst(script, attempts);
    ErrorIsPermanent(Step(l, Retry(isClosed, script), attempts), after, attempts);
  }
}

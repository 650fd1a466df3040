/** What a group of Extensions sees of its Runtime's invocations.

    The Runtime's `next` handler takes an invocation, hands it to the Extensions of its
    group one after the other, and only then stores it.  Which handles it visits depends
    on the connection: with one instance the group as it is, otherwise the group as it
    was when the connection was opened.  An invocation taken before any Extension has
    registered is handed to none, and switches the mapping of new connections off. */
module FanOut {

  type Invocation = nat

  /** One handle.  base, start and stop are history: what it had received when it last began
      to be served, how many invocations had been taken then, and when it ceased to be. */
  datatype Ext = Ext(invoke: bool, received: seq<Invocation>, base: seq<Invocation>, start: nat, stop: nat)

  datatype Phase =
    | Ready
    | Sending(inv: Invocation, next: nat, end: nat)  // the range loop of SendInvokeEvent over `end` handles
    | Running(inv: Invocation)                       // stored, and written to the Runtime

  datatype State = State(
    single: bool,        // MaxConcurrency == 1
    group: seq<Ext>,
    visible: nat,        // how many handles of the group the Runtime's connection sees
    enabled: bool,       // new connections are mapped to their group
    anyRegistered: bool, // some Extension, of whatever group, has registered
    phase: Phase,
    taken: seq<Invocation>,    // history: invocations received from the Invocations channel
    stored: seq<Invocation>    // history: invocations stored and written to the Runtime
  )

  datatype Event =
    | Add               // a handle joins the group
    | Subscribe(j: nat) // a register call, which may yet fail, subscribes handle j to INVOKE
    | Register          // a register call of some Extension of some group succeeds
    | Connect(left: nat) // the Runtime opens a new connection, between two calls of `next`; left: how many
                         // handles an entry shows that was left under its address, once mapping is off
    | Take(inv: Invocation)
    | Deliver           // one iteration of the range loop
    | Store
    | Answer

  function View(s: State): nat { if s.single then |s.group| else s.visible }

  /** Handle j is served: it asked for INVOKE, the Runtime's connection sees it, and some
      Extension has registered. */
  predicate Served(s: State, j: nat) {
    j < |s.group| && s.group[j].invoke && j < View(s) && s.anyRegistered
  }

  predicate Enabled(s: State, e: Event) {
    match e
    case Add => true
    case Subscribe(j) => j < |s.group| && !s.group[j].invoke
    case Register => true
    case Connect(left) => !s.phase.Sending? && left <= |s.group|
    case Take(_) => s.phase.Ready?
    case Deliver => s.phase.Sending? && s.phase.next < s.phase.end && s.phase.next < |s.group|
    case Store => s.phase.Sending? && s.phase.next >= s.phase.end
    case Answer => s.phase.Running?
  }

  /** Whether the invocation in flight has still to come to handle j. */
  predicate Ahead(p: Phase, j: nat) { p.Sending? && p.next <= j < p.end }

  /** How many of the invocations taken have come to handle j, if it is served. */
  function Due(s: State, j: nat): nat {
    if Ahead(s.phase, j) && |s.taken| > 0 then |s.taken| - 1 else |s.taken|
  }

  /** After a step from s to t that may change who is served: note it in the history. */
  function Note(s: State, t: State): State {
    t.(group := seq(|t.group|, j requires 0 <= j < |t.group| =>
                  if Served(t, j) && !Served(s, j) then t.group[j].(base := t.group[j].received, start := Due(s, j))
                  else if Served(s, j) && !Served(t, j) then t.group[j].(stop := |s.taken|)
                  else t.group[j]))
  }

  function Step(s: State, e: Event): State
    requires Enabled(s, e)
  {
    match e
    case Add => s.(group := s.group + [Ext(false, [], [], 0, 0)])
    case Subscribe(j) => Note(s, s.(group := s.group[j := s.group[j].(invoke := true)]))
    case Register => Note(s, s.(anyRegistered := true))
    case Connect(left) => Note(s, s.(visible := if s.enabled then |s.group| else left))
    case Take(inv) =>
      s.(phase := if s.anyRegistered then Sending(inv, 0, View(s)) else Sending(inv, 0, 0),
         enabled := s.enabled && s.anyRegistered,
         taken := s.taken + [inv])
    case Deliver =>
      var k := s.phase.next;
      var x := s.group[k];
      s.(group := if x.invoke then s.group[k := x.(received := x.received + [s.phase.inv])] else s.group,
         phase := s.phase.(next := k + 1))
    case Store => s.(phase := Running(s.phase.inv), stored := s.stored + [s.phase.inv])
    case Answer => s.(phase := Ready)
  }

  function Apply(s: State, e: Event): State { if Enabled(s, e) then Step(s, e) else s }

  function Run(s: State, es: seq<Event>): State
    decreases |es|
  {
    if es == [] then s else Run(Apply(s, es[0]), es[1..])
  }

  /** enabled: the file that disables Extensions is absent. */
  function Initial(single: bool, enabled: bool): State { State(single, [], 0, enabled, false, Ready, [], []) }

  /** What handle j should have received: what it had when it last began to be served, and
      everything taken from then until now, or until it ceased to be, but for the one still
      on its way. */
  ghost predicate InOrder(s: State, j: nat)
    requires j < |s.group|
  {
    var x := s.group[j];
    var end := if Served(s, j) then |s.taken| - (if Ahead(s.phase, j) then 1 else 0) else x.stop;
    x.start <= end <= |s.taken| && x.received == x.base + s.taken[x.start..end]
  }

  /** With one instance a handle that is not served never was. */
  ghost predicate NeverServed(s: State, j: nat)
    requires j < |s.group|
  {
    s.single && !Served(s, j) ==> s.group[j].received == []
  }

  ghost predicate Inv(s: State) {
    && s.visible <= |s.group|
    && (s.phase.Sending? ==> s.taken != [] && s.taken[|s.taken| - 1] == s.phase.inv
                             && s.phase.next <= s.phase.end <= View(s)
                             && (s.phase.end > 0 ==> s.anyRegistered))
    && (forall j :: 0 <= j < |s.group| ==> InOrder(s, j) && NeverServed(s, j))
    && s.stored == s.taken[..|s.taken| - (if s.phase.Sending? then 1 else 0)]
  }

  lemma TakeKeepsInv(s: State, inv: Invocation)
    requires Inv(s) && Enabled(s, Take(inv))
    ensures Inv(Step(s, Take(inv)))
  {
    var t := Step(s, Take(inv));
    var n := |s.taken|;
    forall j | 0 <= j < |t.group| ensures InOrder(t, j) && NeverServed(t, j) {
      assert InOrder(s, j) && NeverServed(s, j);
      var b := s.group[j].start;
      if Served(s, j) {
        assert t.taken[b..n] == s.taken[b..];
      } else {
        assert t.taken[b..s.group[j].stop] == s.taken[b..s.group[j].stop];
      }
    }
    assert t.taken[..|t.taken| - 1] == s.taken;
  }

  lemma DeliverKeepsInv(s: State)
    requires Inv(s) && Enabled(s, Deliver)
    ensures Inv(Step(s, Deliver))
  {
    var t := Step(s, Deliver);
    var n := |s.taken|;
    forall j | 0 <= j < |t.group| ensures InOrder(t, j) && NeverServed(t, j) {
      assert InOrder(s, j) && NeverServed(s, j);
      if j == s.phase.next && s.group[j].invoke {
        var b := s.group[j].start;
        assert s.taken[b..n] == s.taken[b..n - 1] + [s.taken[n - 1]];
        assert s.group[j].base + s.taken[b..n] == s.group[j].base + s.taken[b..n - 1] + [s.taken[n - 1]];
      }
    }
  }

  lemma StoreKeepsInv(s: State)
    requires Inv(s) && Enabled(s, Store)
    ensures Inv(Step(s, Store))
  {
    var t := Step(s, Store);
    var n := |s.taken|;
    assert s.taken == s.taken[..n - 1] + [s.taken[n - 1]];
    forall j | 0 <= j < |t.group| ensures InOrder(t, j) && NeverServed(t, j) {
      assert InOrder(s, j) && NeverServed(s, j);
    }
  }

  /** A change of who is served, with everything else as it was. */
  lemma NoteKeepsInv(s: State, t: State)
    requires Inv(s) && t.single == s.single && t.enabled == s.enabled && t.phase == s.phase
    requires t.taken == s.taken && t.stored == s.stored && t.visible <= |t.group| == |s.group|
    requires forall j :: 0 <= j < |s.group| ==> t.group[j] == s.group[j].(invoke := t.group[j].invoke)
    requires s.anyRegistered ==> t.anyRegistered
    requires forall j :: 0 <= j < |s.group| && s.group[j].invoke ==> t.group[j].invoke
    requires s.phase.Sending? ==> t.visible == s.visible
    ensures Inv(Note(s, t))
  {
    var u := Note(s, t);
    assert View(u) == View(t);
    forall j | 0 <= j < |u.group| ensures InOrder(u, j) && NeverServed(u, j) {
      assert InOrder(s, j) && NeverServed(s, j);
      assert Served(u, j) == Served(t, j);
    }
  }

  lemma StepKeepsInv(s: State, e: Event)
    requires Inv(s) && Enabled(s, e)
    ensures Inv(Step(s, e))
  {
    match e {
      case Take(inv) => TakeKeepsInv(s, inv);
      case Deliver => DeliverKeepsInv(s);
      case Store => StoreKeepsInv(s);
      case Subscribe(k) => NoteKeepsInv(s, s.(group := s.group[k := s.group[k].(invoke := true)]));
      case Register => NoteKeepsInv(s, s.(anyRegistered := true));
      case Connect(left) => NoteKeepsInv(s, s.(visible := if s.enabled then |s.group| else left));
      case Add =>
        var t := Step(s, e);
        forall j | 0 <= j < |t.group| ensures InOrder(t, j) && NeverServed(t, j) {
          if j < |s.group| { assert InOrder(s, j) && NeverServed(s, j); }
        }
      case Answer =>
        var t := Step(s, e);
        forall j | 0 <= j < |t.group| ensures InOrder(t, j) && NeverServed(t, j) {
          assert InOrder(s, j) && NeverServed(s, j);
        }
    }
  }

  lemma {:induction false} RunKeepsInv(s: State, es: seq<Event>)
    requires Inv(s)
    ensures Inv(Run(s, es))
    decreases |es|
  {
    if es != [] {
      if Enabled(s, es[0]) { StepKeepsInv(s, es[0]); }
      RunKeepsInv(Apply(s, es[0]), es[1..]);
    }
  }

  /** In every reachable state: a served Extension has received, in order and on top of what
      it had when it last began to be served, exactly what its Runtime took since, minus at
      most the one in flight; an invocation is stored only after every served Extension has
      it; and one that is not served has received exactly what was taken while it was. */
  lemma EventsInOrder(single: bool, enabled: bool, es: seq<Event>, j: nat)
    ensures var s := Run(Initial(single, enabled), es);
            j < |s.group| ==>
              && InOrder(s, j)
              && (Served(s, j) ==>
                    var x := s.group[j];
                    && |s.taken| - 1 <= x.start + |x.received| - |x.base| <= |s.taken|
                    && (!s.phase.Sending? ==> s.stored == s.taken && x.received == x.base + s.stored[x.start..]))
  {
    RunKeepsInv(Initial(single, enabled), es);
    var s := Run(Initial(single, enabled), es);
    if j < |s.group| {
      assert InOrder(s, j);
      if !s.phase.Sending? { assert s.taken[..|s.taken|] == s.taken; }
    }
  }

  // ----- from registration on -----

  predicate StaysServed(s: State, es: seq<Event>, j: nat)
    decreases |es|
  {
    Served(s, j) && (es == [] || StaysServed(Apply(s, es[0]), es[1..], j))
  }

  lemma ServedStep(s: State, e: Event, j: nat)
    requires Inv(s) && Served(s, j) && Served(Apply(s, e), j)
    ensures Apply(s, e).group[j].start == s.group[j].start && Apply(s, e).group[j].base == s.group[j].base
    ensures s.taken <= Apply(s, e).taken
  {
  }

  lemma {:induction false} ServedRun(s: State, es: seq<Event>, j: nat)
    requires Inv(s) && StaysServed(s, es, j)
    ensures var t := Run(s, es);
            && Inv(t) && Served(s, j) && Served(t, j) && s.taken <= t.taken
            && t.group[j].start == s.group[j].start && t.group[j].base == s.group[j].base
    decreases |es|
  {
    if es != [] {
      var t := Apply(s, es[0]);
      ServedStep(s, es[0], j);
      if Enabled(s, es[0]) { StepKeepsInv(s, es[0]); }
      ServedRun(t, es[1..], j);
    }
  }

  /** While a handle is served, what it receives is what its Runtime takes, one for one and in
      order, but for the one in flight. */
  lemma ReceivesWhatIsTaken(s: State, es: seq<Event>, j: nat)
    requires Inv(s) && StaysServed(s, es, j)
    ensures var t := Run(s, es);
            && j < |t.group| && Due(s, j) <= Due(t, j) <= |t.taken| && Due(t, j) >= |t.taken| - 1
            && t.group[j].received == s.group[j].received + t.taken[Due(s, j)..Due(t, j)]
  {
    hide Run, Apply, StaysServed;
    ServedRun(s, es, j);
    var t := Run(s, es);
    assert InOrder(s, j) && InOrder(t, j);
    DueGrows(s, es, j);
    SliceGrows(s.taken, t.taken, s.group[j].base, s.group[j].start, Due(s, j), Due(t, j));
  }

  lemma SliceGrows(before: seq<Invocation>, after: seq<Invocation>, base: seq<Invocation>, i: nat, m: nat, n: nat)
    requires before <= after && i <= m <= |before| && m <= n <= |after|
    ensures base + after[i..n] == base + before[i..m] + after[m..n]
  {
  }

  lemma {:induction false} DueGrows(s: State, es: seq<Event>, j: nat)
    requires Inv(s) && StaysServed(s, es, j)
    ensures Due(s, j) <= Due(Run(s, es), j)
    decreases |es|
  {
    if es != [] {
      if Enabled(s, es[0]) { StepKeepsInv(s, es[0]); }
      DueGrows(Apply(s, es[0]), es[1..], j);
    }
  }

  /** An Extension that begins to be served by this step, by its registration, another's, or
      a new connection, receives from then on exactly what is taken: everything after the
      invocations taken by then, and the one in flight if the loop had not come to its
      handle. */
  lemma ReceivesFromRegistration(s: State, e: Event, es: seq<Event>, j: nat)
    requires Inv(s) && Enabled(s, e) && j < |s.group| && !Served(s, j)
    requires StaysServed(Step(s, e), es, j)
    ensures var t := Run(Step(s, e), es);
            && j < |t.group| && Due(s, j) <= Due(t, j) <= |t.taken|
            && t.group[j].received == s.group[j].received + t.taken[Due(s, j)..Due(t, j)]
  {
    StepKeepsInv(s, e);
    assert Step(s, e).group[j].received == s.group[j].received && Due(Step(s, e), j) == Due(s, j);
    ReceivesWhatIsTaken(Step(s, e), es, j);
  }

  predicate NoConnect(es: seq<Event>) { forall k :: 0 <= k < |es| ==> !es[k].Connect? }

  lemma NoConnectStep(s: State, e: Event, j: nat)
    requires !e.Connect?
    ensures var t := Apply(s, e);
            && t.single == s.single && t.visible == s.visible && |t.group| >= |s.group|
            && (Served(s, j) ==> Served(t, j))
  {
  }

  lemma {:induction false} NoConnectRun(s: State, es: seq<Event>, j: nat)
    requires NoConnect(es)
    ensures var t := Run(s, es);
            && t.single == s.single && t.visible == s.visible && |t.group| >= |s.group|
            && (Served(s, j) ==> StaysServed(s, es, j))
    decreases |es|
  {
    if es != [] {
      NoConnectStep(s, es[0], j);
      NoConnectRun(Apply(s, es[0]), es[1..], j);
    }
  }

  /** With several instances, a connection opened while mapping is on puts in service all
      handles of the group as it is then, as soon as they ask for INVOKE and anyone has
      registered, before it or after it, and no others. */
  lemma ConnectServes(s: State, left: nat, es: seq<Event>, j: nat)
    requires !s.single && s.enabled && Enabled(s, Connect(left)) && NoConnect(es)
    ensures var t := Run(Step(s, Connect(left)), es);
            && |t.group| >= |s.group|
            && (Served(t, j) <==> j < |s.group| && t.group[j].invoke && t.anyRegistered)
  {
    var u := Step(s, Connect(left));
    assert u.visible == |s.group| && |u.group| == |s.group| && !u.single;
    NoConnectRun(u, es, j);
  }

  /** And from the step that puts it in service, the connection itself, a registration or
      another's, a handle receives exactly what is taken until the next connection, but for
      the one in flight. */
  lemma ReceivesUntilReconnect(s: State, e: Event, es: seq<Event>, j: nat)
    requires Inv(s) && Enabled(s, e) && j < |s.group| && !Served(s, j) && Served(Step(s, e), j) && NoConnect(es)
    ensures var t := Run(Step(s, e), es);
            && j < |t.group| && Served(t, j) && Due(s, j) <= Due(t, j) <= |t.taken| <= Due(t, j) + 1
            && t.group[j].received == s.group[j].received + t.taken[Due(s, j)..Due(t, j)]
  {
    NoConnectRun(Step(s, e), es, j);
    StepKeepsInv(s, e);
    ServedRun(Step(s, e), es, j);
    ReceivesFromRegistration(s, e, es, j);
  }

  // ----- who has asked, and whether connections are mapped -----

  /** Handle j is subscribed to INVOKE in this run. */
  predicate Asks(s: State, es: seq<Event>, j: nat)
    decreases |es|
  {
    es != [] && ((es[0] == Subscribe(j) && Enabled(s, es[0])) || Asks(Apply(s, es[0]), es[1..], j))
  }

  /** An invocation is taken in this run before anyone has registered. */
  predicate TakenTooEarly(s: State, es: seq<Event>)
    decreases |es|
  {
    es != [] && ((es[0].Take? && Enabled(s, es[0]) && !s.anyRegistered) || TakenTooEarly(Apply(s, es[0]), es[1..]))
  }

  lemma FlagsStep(s: State, e: Event, j: nat)
    ensures var t := Apply(s, e);
            && |t.group| == |s.group| + (if e.Add? then 1 else 0)
            && (j < |t.group| ==> (t.group[j].invoke <==> (j < |s.group| && s.group[j].invoke)
                                                          || (e == Subscribe(j) && Enabled(s, e))))
            && (t.anyRegistered <==> s.anyRegistered || e.Register?)
            && (t.enabled <==> s.enabled && !(e.Take? && Enabled(s, e) && !s.anyRegistered))
  {
  }

  /** Over any run: a handle has asked for INVOKE exactly when it was subscribed, someone has
      registered exactly when a register call succeeded, and new connections are mapped
      exactly as long as no invocation was taken before that. */
  lemma {:induction false} FlagsIff(s: State, es: seq<Event>, j: nat)
    ensures var t := Run(s, es);
            && |t.group| >= |s.group|
            && (j < |t.group| ==> (t.group[j].invoke <==> (j < |s.group| && s.group[j].invoke) || Asks(s, es, j)))
            && (t.anyRegistered <==> s.anyRegistered || exists i :: 0 <= i < |es| && es[i].Register?)
            && (t.enabled <==> s.enabled && !TakenTooEarly(s, es))
    decreases |es|
  {
    if es != [] {
      FlagsStep(s, es[0], j);
      FlagsIff(Apply(s, es[0]), es[1..], j);
      NeverAsksBeforeAdded(Apply(s, es[0]), es[1..], j);
      if exists i :: 0 <= i < |es| && es[i].Register? {
        var i :| 0 <= i < |es| && es[i].Register?;
        assert i > 0 ==> es[1..][i - 1].Register?;
      }
      if exists i :: 0 <= i < |es[1..]| && es[1..][i].Register? {
        var i :| 0 <= i < |es[1..]| && es[1..][i].Register?;
        assert es[i + 1].Register?;
      }
    }
  }

  lemma {:induction false} NeverAsksBeforeAdded(s: State, es: seq<Event>, j: nat)
    ensures j >= |Run(s, es).group| ==> !Asks(s, es, j)
    ensures |Run(s, es).group| >= |s.group|
    decreases |es|
  {
    if es != [] {
      FlagsStep(s, es[0], j);
      NeverAsksBeforeAdded(Apply(s, es[0]), es[1..], j);
    }
  }

  // ----- one invocation -----

  function Deliveries(n: nat): seq<Event> { if n == 0 then [] else Deliveries(n - 1) + [Deliver] }

  /** The invocation in flight, once the range loop has passed the first k handles. */
  ghost predicate Passed(s: State, t: State, inv: Invocation, k: nat) {
    && t.phase == Sending(inv, k, if s.anyRegistered then View(s) else 0)
    && t.taken == s.taken + [inv] && t.stored == s.stored
    && t.single == s.single && t.visible == s.visible && t.anyRegistered == s.anyRegistered && |t.group| == |s.group|
    && forall j :: 0 <= j < |s.group| ==>
                     t.group[j] == s.group[j].(
                       received := s.group[j].received + (if j < k && Served(s, j) then [inv] else []))
  }

  lemma {:induction false} RunSnoc(s: State, es: seq<Event>, e: Event)
    ensures Run(s, es + [e]) == Apply(Run(s, es), e)
    decreases |es|
  {
    if es == [] {
      assert [] + [e] == [e] && [e][1..] == [];
      assert Run(Apply(s, e), []) == Apply(s, e);
    } else {
      assert (es + [e])[0] == es[0] && (es + [e])[1..] == es[1..] + [e];
      RunSnoc(Apply(s, es[0]), es[1..], e);
    }
  }

  lemma {:induction false} PassesHandles(s: State, inv: Invocation, k: nat)
    requires Inv(s) && s.phase.Ready? && k <= if s.anyRegistered then View(s) else 0
    ensures Passed(s, Run(Step(s, Take(inv)), Deliveries(k)), inv, k)
  {
    if k > 0 {
      PassesHandles(s, inv, k - 1);
      RunSnoc(Step(s, Take(inv)), Deliveries(k - 1), Deliver);
    }
  }

  /** One invocation from end to end: exactly the served Extensions receive it, once each, and
      only then is it stored; after the answer the Runtime is ready for the next. */
  lemma RoundReachesAll(s: State, inv: Invocation)
    requires Inv(s) && s.phase.Ready?
    ensures var n := if s.anyRegistered then View(s) else 0;
            var t := Apply(Apply(Run(Step(s, Take(inv)), Deliveries(n)), Store), Answer);
            && t.phase.Ready? && t.taken == s.taken + [inv] && t.stored == s.stored + [inv] && |t.group| == |s.group|
            && forall j :: 0 <= j < |s.group| ==>
                             t.group[j].received == s.group[j].received + (if Served(s, j) then [inv] else [])
  {
    PassesHandles(s, inv, if s.anyRegistered then View(s) else 0);
  }

  /** With several instances, a handle added after the Runtime connected gets nothing,
      however it registers, until the Runtime opens another connection. */
  lemma {:induction false} AddedLateGetsNothing(s: State, es: seq<Event>, j: nat)
    requires Inv(s) && !s.single && s.visible <= j && NoConnect(es)
    requires j < |s.group| ==> s.group[j].received == []
    ensures var t := Run(s, es);
            j < |t.group| ==> !Served(t, j) && t.group[j].received == []
    decreases |es|
  {
    if es != [] {
      if Enabled(s, es[0]) { StepKeepsInv(s, es[0]); }
      AddedLateGetsNothing(Apply(s, es[0]), es[1..], j);
    }
  }

  /** No connection finds an entry left under its address that shows more than k handles. */
  predicate LeavesAtMost(es: seq<Event>, k: nat) {
    forall i :: 0 <= i < |es| && es[i].Connect? ==> es[i].left <= k
  }

  lemma {:induction false} DisabledStays(s: State, es: seq<Event>)
    requires !s.single && !s.enabled
    ensures var t := Run(s, es);
            !t.single && !t.enabled
    decreases |es|
  {
    if es != [] { DisabledStays(Apply(s, es[0]), es[1..]); }
  }

  lemma {:induction false} LeftOversStay(s: State, es: seq<Event>, k: nat)
    requires !s.single && !s.enabled && s.visible <= k && LeavesAtMost(es, k)
    ensures Run(s, es).visible <= k && !Run(s, es).single
    decreases |es|
  {
    if es != [] { LeftOversStay(Apply(s, es[0]), es[1..], k); }
  }

  /** With several instances, once an invocation was taken before anyone had registered, the
      only Extensions that a Runtime which reconnects is followed by are those that an entry
      left under its address still shows, and those exactly. */
  lemma DisabledServesLeftOvers(s: State, inv: Invocation, es: seq<Event>, left: nat, more: seq<Event>, j: nat)
    requires !s.single && !s.anyRegistered && Enabled(s, Take(inv))
    requires Enabled(Run(Apply(s, Take(inv)), es), Connect(left)) && LeavesAtMost(more, left)
    ensures var u := Apply(Run(Apply(s, Take(inv)), es), Connect(left));
            && (Served(u, j) <==> j < left && u.group[j].invoke && u.anyRegistered)
            && (Served(Run(u, more), j) ==> j < left)
  {
    DisabledStays(Apply(s, Take(inv)), es);
    LeftOversStay(Apply(Run(Apply(s, Take(inv)), es), Connect(left)), more, left);
  }

  /** So from addresses that were not used before, it is followed by none, ever after. */
  lemma DisabledServesNobody(s: State, inv: Invocation, es: seq<Event>, more: seq<Event>, j: nat)
    requires !s.single && !s.anyRegistered && Enabled(s, Take(inv))
    requires Enabled(Run(Apply(s, Take(inv)), es), Connect(0)) && LeavesAtMost(more, 0)
    ensures !Served(Run(Apply(Run(Apply(s, Take(inv)), es), Connect(0)), more), j)
  {
    DisabledServesLeftOvers(s, inv, es, 0, more, j);
  }

  lemma SingleStep(s: State, e: Event, j: nat)
    requires s.single
    ensures Apply(s, e).single && (Served(s, j) ==> Served(Apply(s, e), j))
  {
  }

  lemma {:induction false} SingleRun(s: State, es: seq<Event>, j: nat)
    requires s.single
    ensures Run(s, es).single && (Served(s, j) ==> StaysServed(s, es, j) && Served(Run(s, es), j))
    decreases |es|
  {
    if es != [] {
      SingleStep(s, es[0], j);
      SingleRun(Apply(s, es[0]), es[1..], j);
    }
  }

  /** With one instance, whoever asked is served as soon as anyone has registered, and for
      good: in every later state it has received all that was taken since, and nothing
      else, but for the one in flight. */
  lemma SingleInstanceServesAll(enabled: bool, es: seq<Event>, e: Event, more: seq<Event>, j: nat)
    requires var s := Run(Initial(true, enabled), es);
             Enabled(s, e) && j < |s.group| && !Served(s, j)
    ensures var s := Run(Initial(true, enabled), es);
            var u := Step(s, e);
            var t := Run(u, more);
            && j < |u.group| && (Served(u, j) <==> u.group[j].invoke && u.anyRegistered)
            && (Served(u, j) ==>
                  && j < |t.group| && Served(t, j) && Due(s, j) <= Due(t, j) <= |t.taken| <= Due(t, j) + 1
                  && t.group[j].received == t.taken[Due(s, j)..Due(t, j)])
  {
    var s := Run(Initial(true, enabled), es);
    SingleRun(Initial(true, enabled), es, j);
    RunKeepsInv(Initial(true, enabled), es);
    assert NeverServed(s, j);
    SingleStep(s, e, j);
    if Served(Step(s, e), j) {
      SingleRun(Step(s, e), more, j);
      ReceivesFromRegistration(s, e, more, j);
    }
  }
}

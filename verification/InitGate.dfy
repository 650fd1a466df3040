/** RAPIInvoker.init: the Runtime process is paused while External Extensions are started,
    and resumed when all of them have registered. */
module InitGate {
  import opened Extensions

  /** The names of those of the first k Extensions that started. */
  function StartedNames(names: seq<string>, started: seq<bool>, k: nat): seq<string>
    requires k <= |names| == |started|
  {
    if k == 0 then [] else StartedNames(names, started, k - 1) + (if started[k - 1] then [names[k - 1]] else [])
  }

  /** The group is what it was, followed by handles of these names. */
  predicate Grown(group: seq<Extension>, before: seq<Extension>, names: seq<string>) {
    && |group| == |before| + |names|
    && (forall i :: 0 <= i < |before| ==> group[i] == before[i])
    && (forall i :: |before| <= i < |group| ==> group[i].name == names[i - |before|])
  }

  /** The handles from index `from` on are new, and none has registered. */
  twostate predicate NewFrom(new group: seq<Extension>, from: nat)
    reads group
  {
    forall i :: from <= i < |group| ==> fresh(group[i]) && !group[i].registered
  }

  /** One iteration: a process that starts gets a handle.  names: of those that did so far. */
  method StartOne(eapi: ExtensionsAPI, name: string, started: bool, id: string, pgid: int,
                  ghost before: seq<Extension>, ghost names: seq<string>)
    requires eapi.Valid() && Grown(Group(eapi.View(), pgid), before, names)
    modifies eapi`extensions, eapi`extensionByID, eapi`handles
    ensures eapi.Valid()
    ensures Grown(Group(eapi.View(), pgid), before, names + (if started then [name] else []))
    ensures old(Group(eapi.View(), pgid)) <= Group(eapi.View(), pgid)
    ensures NewFrom(Group(eapi.View(), pgid), |old(Group(eapi.View(), pgid))|)
    ensures eapi.extensions - {pgid} == old(eapi.extensions) - {pgid}
  {
    if started {
      var e := eapi.Add(name, pgid, id);
    }
  }

  /** The loop over the extension paths.  names: the file name of each path; started:
      whether exec succeeded; ids: the IDs that Add would generate. */
  method StartExtensions(eapi: ExtensionsAPI, names: seq<string>, started: seq<bool>, ids: seq<string>, pgid: int)
    requires eapi.Valid() && |names| == |started| == |ids|
    modifies eapi`extensions, eapi`extensionByID, eapi`handles
    ensures eapi.Valid()
    ensures Grown(Group(eapi.View(), pgid), old(Group(eapi.View(), pgid)), StartedNames(names, started, |names|))
    ensures NewFrom(Group(eapi.View(), pgid), |old(Group(eapi.View(), pgid))|)
    ensures eapi.extensions - {pgid} == old(eapi.extensions) - {pgid}
  {
    ghost var before := Group(eapi.View(), pgid);
    for k := 0 to |names|
      invariant eapi.Valid()
      invariant Grown(Group(eapi.View(), pgid), before, StartedNames(names, started, k))
      invariant NewFrom(Group(eapi.View(), pgid), |before|)
      invariant eapi.extensions - {pgid} == old(eapi.extensions) - {pgid}
    {
      StartOne(eapi, names[k], started[k], ids[k], pgid, before, StartedNames(names, started, k));
    }
  }

  // ----- the wait, against everything that may happen meanwhile -----

  /** The slice that the wait ranges over consists of the handles from `first` on. */
  datatype Phase = Starting | Awaiting(first: nat, next: nat) | Resumed(first: nat)

  /** handles: the Extensions started by this launch, and whether each has registered.
      groupFrom: the group still lists the handles from here on. */
  datatype State = State(handles: seq<bool>, groupFrom: nat, phase: Phase)

  datatype Event =
    | Start            // an Extension is started and its handle added
    | Register(h: nat)
    | GroupLost        // the Runtime died and its group was unregistered
    | ReadGroup        // IndexedByPgid
    | Pass             // one receive from an awaitRegister channel
    | Resume

  predicate Enabled(s: State, e: Event) {
    match e
    case Start => s.phase.Starting?
    case Register(h) => h < |s.handles|
    case GroupLost => true
    case ReadGroup => s.phase.Starting?
    case Pass => s.phase.Awaiting? && s.phase.next < |s.handles| && s.handles[s.phase.next]
    case Resume => s.phase.Awaiting? && s.phase.next >= |s.handles|
  }

  function Apply(s: State, e: Event): State {
    if !Enabled(s, e) then s
    else
      match e
      case Start => s.(handles := s.handles + [false])
      case Register(h) => s.(handles := s.handles[h := true])
      case GroupLost => s.(groupFrom := |s.handles|)
      case ReadGroup => s.(phase := Awaiting(s.groupFrom, s.groupFrom))
      case Pass => s.(phase := s.phase.(next := s.phase.next + 1))
      case Resume => s.(phase := Resumed(s.phase.first))
  }

  function Run(s: State, es: seq<Event>): State
    decreases |es|
  {
    if es == [] then s else Run(Apply(s, es[0]), es[1..])
  }

  const INITIAL: State := State([], 0, Starting)

  ghost predicate Inv(s: State) {
    && s.groupFrom <= |s.handles|
    && match s.phase
       case Starting => true
       case Awaiting(first, next) =>
         first <= next <= |s.handles| && forall h :: first <= h < next ==> s.handles[h]
       case Resumed(first) =>
         first <= |s.handles| && forall h :: first <= h < |s.handles| ==> s.handles[h]
  }

  lemma {:induction false} RunKeepsInv(s: State, es: seq<Event>)
    requires Inv(s)
    ensures Inv(Run(s, es))
    decreases |es|
  {
    if es != [] { RunKeepsInv(Apply(s, es[0]), es[1..]); }
  }

  /** No group is lost once an Extension has been started and before the group is read. */
  predicate KeepsGroup(s: State, es: seq<Event>)
    decreases |es|
  {
    es == [] || ((es[0].GroupLost? && s.phase.Starting? ==> s.handles == []) && KeepsGroup(Apply(s, es[0]), es[1..]))
  }

  /** The wait ranges over every handle. */
  predicate Whole(s: State) { if s.phase.Starting? then s.groupFrom == 0 else s.phase.first == 0 }

  lemma {:induction false} BrokenStaysBroken(s: State, es: seq<Event>)
    requires Inv(s) && !Whole(s)
    ensures !Whole(Run(s, es))
    decreases |es|
  {
    if es != [] { BrokenStaysBroken(Apply(s, es[0]), es[1..]); }
  }

  lemma {:induction false} WholeIffKept(s: State, es: seq<Event>)
    requires Inv(s) && Whole(s)
    ensures Whole(Run(s, es)) <==> KeepsGroup(s, es)
    decreases |es|
  {
    if es != [] {
      var t := Apply(s, es[0]);
      if Whole(t) { WholeIffKept(t, es[1..]); } else { BrokenStaysBroken(t, es[1..]); }
    }
  }

  /** A resumed Runtime has waited for every handle from `first` on, and `first` is the very
      first exactly when the group was not lost before it was read: then every started
      Extension has registered. */
  lemma ResumedAfterRegistration(es: seq<Event>)
    ensures var s := Run(INITIAL, es);
            s.phase.Resumed? ==>
              && (forall h :: s.phase.first <= h < |s.handles| ==> s.handles[h])
              && (s.phase.first == 0 <==> KeepsGroup(INITIAL, es))
              && (KeepsGroup(INITIAL, es) ==> forall h :: 0 <= h < |s.handles| ==> s.handles[h])
  {
    RunKeepsInv(INITIAL, es);
    WholeIffKept(INITIAL, es);
  }

  /** When it was, the Runtime is resumed although a started Extension has not registered. */
  lemma LostGroupResumesEarly()
    ensures var s := Apply(Apply(Apply(Apply(INITIAL, Start), GroupLost), ReadGroup), Resume);
            s.phase.Resumed? && s.handles == [false]
  {
  }

  function Passes(n: nat): seq<Event> { if n == 0 then [] else [Pass] + Passes(n - 1) }

  lemma {:induction false} PassesAll(s: State, n: nat)
    requires s.phase.Awaiting? && s.phase.next + n == |s.handles|
    requires forall h :: s.phase.next <= h < |s.handles| ==> s.handles[h]
    ensures Run(s, Passes(n)) == s.(phase := Awaiting(s.phase.first, |s.handles|))
    decreases n
  {
    if n > 0 {
      assert Passes(n)[1..] == Passes(n - 1);
      PassesAll(Apply(s, Pass), n - 1);
    }
  }

  lemma RegisterSets(s: State, h: nat)
    requires h < |s.handles|
    ensures Apply(s, Register(h)) == s.(handles := s.handles[h := true])
  {
  }

  /** Once every handle that the wait ranges over has registered, the Runtime is resumed. */
  lemma AllRegisteredResumes(es: seq<Event>)
    requires var s := Run(INITIAL, es);
             s.phase.Awaiting? && forall h :: s.phase.first <= h < |s.handles| ==> s.handles[h]
    ensures var s := Run(INITIAL, es);
            && s.phase.next <= |s.handles|
            && Apply(Run(s, Passes(|s.handles| - s.phase.next)), Resume) == s.(phase := Resumed(s.phase.first))
  {
    RunKeepsInv(INITIAL, es);
    var s := Run(INITIAL, es);
    PassesAll(s, |s.handles| - s.phase.next);
  }
}

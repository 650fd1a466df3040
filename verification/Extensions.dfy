/** The Extensions API: two indexes over the same Extension handles, one by process
    group and one by Extension ID, and the registration of Extensions. */
module Extensions {
  import opened Common

  /** A handle.  gateClosed: the awaitRegister channel has been closed; closing it a
      second time would panic. */
  class Extension {
    const name: string
    const id: string
    var registered: bool
    var invokeIsRegistered: bool
    var shutdownIsRegistered: bool
    var gateClosed: bool
    var calledNext: bool  // the timestamp is no longer zero

    constructor (name: string, id: string)
      ensures this.name == name && this.id == id
      ensures !registered && !invokeIsRegistered && !shutdownIsRegistered && !gateClosed && !calledNext
    {
      this.name, this.id := name, id;
      registered, invokeIsRegistered, shutdownIsRegistered, gateClosed, calledNext := false, false, false, false, false;
    }

    method CloseGate()
      requires !gateClosed
      modifies this`gateClosed
      ensures gateClosed
    {
      gateClosed := true;
    }
  }

  // ----- the two indexes -----

  datatype Index = Index(groups: map<int, seq<Extension>>, byId: map<string, Extension>)

  function Group(ix: Index, pgid: int): seq<Extension> {
    if pgid in ix.groups then ix.groups[pgid] else []
  }

  /** Add: append to the group, and index by the generated ID. */
  function AddHandle(ix: Index, pgid: int, e: Extension): Index {
    Index(ix.groups[pgid := Group(ix, pgid) + [e]], ix.byId[e.id := e])
  }

  /** RegisterLambdaRuntime: the group starts out empty, whatever was there. */
  function RegisterGroup(ix: Index, pid: int): Index { ix.(groups := ix.groups[pid := []]) }

  function Ids(es: seq<Extension>): set<string> { set i | 0 <= i < |es| :: es[i].id }

  /** UnregisterLambdaRuntime: forget the group and all its IDs. */
  function UnregisterGroup(ix: Index, pid: int): Index {
    Index(ix.groups - {pid}, ix.byId - Ids(Group(ix, pid)))
  }

  predicate At(ix: Index, g: int, i: int, x: string) {
    g in ix.groups && 0 <= i < |ix.groups[g]| && ix.groups[g][i].id == x
  }

  /** The indexes hold exactly the same handles, each at one place under its own ID. */
  ghost predicate Agree(ix: Index) {
    && (forall g, i, x :: At(ix, g, i, x) ==> x in ix.byId && ix.byId[x] == ix.groups[g][i])
    && (forall x :: x in ix.byId ==> ix.byId[x].id == x && exists g, i :: At(ix, g, i, x))
    && (forall g, i, h, j, x :: At(ix, g, i, x) && At(ix, h, j, x) ==> g == h && i == j)
  }

  /** A handle keeps the indexes in agreement exactly when its ID is new. */
  lemma AddAgreesIffFresh(ix: Index, pgid: int, e: Extension)
    requires Agree(ix)
    ensures Agree(AddHandle(ix, pgid, e)) <==> e.id !in ix.byId
  {
    var jx := AddHandle(ix, pgid, e);
    var n := |Group(ix, pgid)|;
    assert At(jx, pgid, n, e.id);
    forall g, i, x ensures At(jx, g, i, x) <==> At(ix, g, i, x) || (g == pgid && i == n && x == e.id) {}
    if e.id in ix.byId {
      var g, i :| At(ix, g, i, e.id);
      assert At(jx, g, i, e.id);
    } else {
      forall x | x in jx.byId ensures jx.byId[x].id == x && exists g, i :: At(jx, g, i, x) {
        if x != e.id {
          var g, i :| At(ix, g, i, x);
          assert At(jx, g, i, x);
        }
      }
    }
  }

  /** Registering a process keeps them in agreement exactly when no handle is already
      filed under its pid: a reused pid would strand the old handles in byId. */
  lemma RegisterAgreesIffEmpty(ix: Index, pid: int)
    requires Agree(ix)
    ensures Agree(RegisterGroup(ix, pid)) <==> Group(ix, pid) == []
  {
    var jx := RegisterGroup(ix, pid);
    forall g, i, x ensures At(jx, g, i, x) <==> At(ix, g, i, x) && g != pid {}
    if Group(ix, pid) != [] {
      var x := ix.groups[pid][0].id;
      assert At(ix, pid, 0, x);
      forall g, i ensures !At(jx, g, i, x) {}
      assert x in jx.byId;
    } else {
      forall x | x in jx.byId ensures exists g, i :: At(jx, g, i, x) {
        var g, i :| At(ix, g, i, x);
        assert At(jx, g, i, x);
      }
    }
  }

  /** Unregistering always does, and none of the group's handles can then be found by ID. */
  lemma UnregisterAgrees(ix: Index, pid: int)
    requires Agree(ix)
    ensures Agree(UnregisterGroup(ix, pid))
    ensures forall i :: 0 <= i < |Group(ix, pid)| ==> Group(ix, pid)[i].id !in UnregisterGroup(ix, pid).byId
    ensures forall g :: g != pid ==> Group(UnregisterGroup(ix, pid), g) == Group(ix, g)
  {
    var jx := UnregisterGroup(ix, pid);
    forall g, i, x ensures At(jx, g, i, x) <==> At(ix, g, i, x) && g != pid {}
    forall g, i, x | At(jx, g, i, x) ensures x in jx.byId {
      if x in Ids(Group(ix, pid)) {
        var j :| 0 <= j < |Group(ix, pid)| && Group(ix, pid)[j].id == x;
        assert At(ix, pid, j, x);
      }
    }
    forall i, x | At(ix, pid, i, x) ensures x in Ids(Group(ix, pid)) {
      assert Group(ix, pid)[i].id == x;
    }
    forall x | x in jx.byId ensures exists g, i :: At(jx, g, i, x) {
      var g, i :| At(ix, g, i, x);
      assert At(jx, g, i, x);
    }
  }

  // ----- runs over the indexes -----

  datatype Change = Added(pgid: int, e: Extension) | Registered(pid: int) | Unregistered(pid: int)

  function Apply(ix: Index, c: Change): Index {
    match c
    case Added(pgid, e) => AddHandle(ix, pgid, e)
    case Registered(pid) => RegisterGroup(ix, pid)
    case Unregistered(pid) => UnregisterGroup(ix, pid)
  }

  /** IDs are fresh and pids are not reused over live handles. */
  predicate Clean(ix: Index, c: Change) {
    match c
    case Added(_, e) => e.id !in ix.byId
    case Registered(pid) => Group(ix, pid) == []
    case Unregistered(_) => true
  }

  function Run(ix: Index, cs: seq<Change>): Index
    decreases |cs|
  {
    if cs == [] then ix else Run(Apply(ix, cs[0]), cs[1..])
  }

  predicate CleanRun(ix: Index, cs: seq<Change>)
    decreases |cs|
  {
    cs == [] || (Clean(ix, cs[0]) && CleanRun(Apply(ix, cs[0]), cs[1..]))
  }

  /** Exactly the clean steps keep the agreement. */
  lemma StepAgreesIffClean(ix: Index, c: Change)
    requires Agree(ix)
    ensures Agree(Apply(ix, c)) <==> Clean(ix, c)
  {
    match c {
      case Added(pgid, e) => AddAgreesIffFresh(ix, pgid, e);
      case Registered(pid) => RegisterAgreesIffEmpty(ix, pid);
      case Unregistered(pid) => UnregisterAgrees(ix, pid);
    }
  }

  predicate NeverAdds(cs: seq<Change>, x: string) {
    forall k :: 0 <= k < |cs| && cs[k].Added? ==> cs[k].e.id != x
  }

  /** Over any clean run the indexes agree; and an ID that cannot be found stays so
      until a handle with that ID is added. */
  lemma {:induction false} RunAgrees(ix: Index, cs: seq<Change>, x: string)
    requires Agree(ix) && CleanRun(ix, cs)
    ensures Agree(Run(ix, cs))
    ensures x !in ix.byId && NeverAdds(cs, x) ==> x !in Run(ix, cs).byId
    decreases |cs|
  {
    if cs != [] {
      StepAgreesIffClean(ix, cs[0]);
      RunAgrees(Apply(ix, cs[0]), cs[1..], x);
    }
  }

  /** After a group is unregistered none of its handles can be found by ID, ever. */
  lemma UnregisteredHandlesAreGone(cs: seq<Change>, pid: int, more: seq<Change>, e: Extension)
    requires CleanRun(Index(map[], map[]), cs)
    requires e in Group(Run(Index(map[], map[]), cs), pid)
    requires var ix := UnregisterGroup(Run(Index(map[], map[]), cs), pid);
             CleanRun(ix, more) && NeverAdds(more, e.id)
    ensures var ix := UnregisterGroup(Run(Index(map[], map[]), cs), pid);
            e.id !in Run(ix, more).byId && Agree(Run(ix, more))
  {
    RunAgrees(Index(map[], map[]), cs, e.id);
    var ix := Run(Index(map[], map[]), cs);
    UnregisterAgrees(ix, pid);
    RunAgrees(UnregisterGroup(ix, pid), more, e.id);
  }

  // ----- groups and processes -----

  /** The indexes, and the processes that the ProcessManager has registered. */
  datatype World = World(ix: Index, pids: set<int>)

  function ApplyTo(w: World, c: Change): World {
    match c
    case Added(_, _) => w.(ix := Apply(w.ix, c))
    case Registered(pid) => World(Apply(w.ix, c), w.pids + {pid})
    case Unregistered(pid) => if pid in w.pids then World(Apply(w.ix, c), w.pids - {pid}) else w
  }

  function RunOn(w: World, cs: seq<Change>): World
    decreases |cs|
  {
    if cs == [] then w else RunOn(ApplyTo(w, cs[0]), cs[1..])
  }

  /** There is a group for each registered process, and no other. */
  predicate GroupsMatch(w: World) { w.ix.groups.Keys == w.pids }

  /** The process that this handle is added for is not registered, or no longer. */
  predicate Strands(w: World, c: Change) { c.Added? && c.pgid !in w.pids }

  predicate NeverStrands(w: World, cs: seq<Change>)
    decreases |cs|
  {
    cs == [] || (!Strands(w, cs[0]) && NeverStrands(ApplyTo(w, cs[0]), cs[1..]))
  }

  /** No process is given a pid that still names a group. */
  predicate FreshPids(w: World, cs: seq<Change>)
    decreases |cs|
  {
    cs == [] || ((cs[0].Registered? ==> cs[0].pid !in w.ix.groups) && FreshPids(ApplyTo(w, cs[0]), cs[1..]))
  }

  /** A group without a process is there for good: only Unregister would remove it. */
  lemma {:induction false} StrandedGroupStays(w: World, cs: seq<Change>, pid: int)
    requires pid in w.ix.groups && pid !in w.pids && FreshPids(w, cs)
    ensures pid in RunOn(w, cs).ix.groups && pid !in RunOn(w, cs).pids
    decreases |cs|
  {
    if cs != [] { StrandedGroupStays(ApplyTo(w, cs[0]), cs[1..], pid); }
  }

  /** The groups are those of the registered processes exactly while no handle is added for
      a process that is not registered. */
  lemma {:induction false} GroupsMatchIff(w: World, cs: seq<Change>)
    requires GroupsMatch(w) && FreshPids(w, cs)
    ensures GroupsMatch(RunOn(w, cs)) <==> NeverStrands(w, cs)
    decreases |cs|
  {
    if cs != [] {
      var v := ApplyTo(w, cs[0]);
      if Strands(w, cs[0]) {
        StrandedGroupStays(v, cs[1..], cs[0].pgid);
      } else {
        GroupsMatchIff(v, cs[1..]);
      }
    }
  }

  // ----- the API object -----

  /** What is known of a connection: the slice of its group at the time it was opened. */
  datatype Peer = Peer(slice: seq<Extension>, pid: int, pgid: int)

  datatype Status = Accepted | EmptyName | BadRequest | ServiceOff | AlreadyRegistered | InvalidEvent

  predicate Subscribable(event: string, external: bool) {
    event == "INVOKE" || (event == "SHUTDOWN" && external)
  }

  predicate AllSubscribable(events: seq<string>, external: bool) {
    forall k :: 0 <= k < |events| ==> Subscribable(events[k], external)
  }

  predicate Knows(slice: seq<Extension>, name: string) {
    exists i :: 0 <= i < |slice| && slice[i].name == name
  }

  ghost predicate IsFirstNamed(handle: Option<Extension>, slice: seq<Extension>, name: string) {
    handle.Some? && exists k :: 0 <= k < |slice| && slice[k] == handle.value && slice[k].name == name
                                && forall j :: 0 <= j < k ==> slice[j].name != name
  }

  class ExtensionsAPI {
    var extensions: map<int, seq<Extension>>
    var extensionByID: map<string, Extension>
    var extensionsByAddr: map<string, Peer>
    var enabled: bool
    var registered: bool
    const maxConcurrency: int
    ghost var handles: set<Extension>  // every handle ever added

    ghost predicate Valid()
      reads this, handles
    {
      && (forall g, i :: g in extensions && 0 <= i < |extensions[g]| ==> extensions[g][i] in handles)
      && (forall a, i :: a in extensionsByAddr && 0 <= i < |extensionsByAddr[a].slice| ==>
                           extensionsByAddr[a].slice[i] in handles)
      && (forall e :: e in handles ==> e.gateClosed == e.registered)
      && ((exists e :: e in handles && e.registered) ==> registered)
    }

    function View(): Index
      reads this
    {
      Index(extensions, extensionByID)
    }

    constructor (maxConcurrency: int, disabled: bool)
      ensures Valid() && View() == Index(map[], map[]) && extensionsByAddr == map[] && handles == {}
      ensures enabled == !disabled && !registered && this.maxConcurrency == maxConcurrency
    {
      extensions, extensionByID, extensionsByAddr := map[], map[], map[];
      enabled, registered := !disabled, false;
      this.maxConcurrency := maxConcurrency;
      handles := {};
    }

    method RegisterLambdaRuntime(pid: int)
      requires Valid()
      modifies this`extensions
      ensures Valid() && View() == RegisterGroup(old(View()), pid)
    {
      extensions := extensions[pid := []];
    }

    method UnregisterLambdaRuntime(pid: int)
      requires Valid()
      modifies this`extensions, this`extensionByID
      ensures Valid() && View() == UnregisterGroup(old(View()), pid)
    {
      var group := if pid in extensions then extensions[pid] else [];
      var k := 0;
      while k < |group|
        invariant 0 <= k <= |group|
        invariant extensionByID == old(extensionByID) - Ids(group[..k])
        invariant extensions == old(extensions)
      {
        extensionByID := extensionByID - {group[k].id};
        assert Ids(group[..k + 1]) == Ids(group[..k]) + {group[k].id} by {
          assert group[..k + 1] == group[..k] + [group[k]];
        }
        k := k + 1;
      }
      assert group[..k] == group;
      extensions := extensions - {pid};
    }

    method Add(name: string, pgid: int, id: string) returns (e: Extension)
      requires Valid()
      modifies this`extensions, this`extensionByID, this`handles
      ensures Valid() && fresh(e) && handles == old(handles) + {e}
      ensures e.name == name && e.id == id && !e.registered && !e.invokeIsRegistered && !e.shutdownIsRegistered
      ensures View() == AddHandle(old(View()), pgid, e)
    {
      e := new Extension(name, id);
      extensions := extensions[pgid := (if pgid in extensions then extensions[pgid] else []) + [e]];
      extensionByID := extensionByID[id := e];
      handles := handles + {e};
    }

    /** The handles that a caller at this address sees, and their group: with one instance
        those of the one group, otherwise those that the group had when the connection was
        opened. */
    ghost predicate Finds(addr: string, slice: seq<Extension>, pid: int, pgid: int)
      reads this
    {
      if maxConcurrency == 1 && extensions.Keys != {} then
        pgid in extensions && slice == extensions[pgid] && pid == pgid
      else if maxConcurrency != 1 && addr in extensionsByAddr then Peer(slice, pid, pgid) == extensionsByAddr[addr]
      else slice == [] && pid == 0 && pgid == 0
    }

    method IndexedByAddr(addr: string) returns (slice: seq<Extension>, pid: int, pgid: int)
      requires Valid()
      ensures Finds(addr, slice, pid, pgid)
      ensures forall i :: 0 <= i < |slice| ==> slice[i] in handles
    {
      slice, pid, pgid := [], 0, 0;
      if maxConcurrency == 1 {
        if extensions.Keys != {} {
          var g := Pick(extensions.Keys);
          slice, pid, pgid := extensions[g], g, g;
        }
      } else if addr in extensionsByAddr {
        var peer := extensionsByAddr[addr];
        slice, pid, pgid := peer.slice, peer.pid, peer.pgid;
      }
    }

    /** A connection is opened by process pid of group pgid. */
    method MapAddr(addr: string, pid: int, pgid: int)
      requires Valid()
      modifies this`extensionsByAddr
      ensures Valid()
      ensures extensionsByAddr == if enabled then old(extensionsByAddr)[addr := Peer(Group(View(), pgid), pid, pgid)]
                                  else old(extensionsByAddr)
    {
      if enabled {
        var group := if pgid in extensions then extensions[pgid] else [];
        extensionsByAddr := extensionsByAddr[addr := Peer(group, pid, pgid)];
      }
    }

    method UnmapAddr(addr: string)
      requires Valid()
      modifies this`extensionsByAddr
      ensures Valid()
      ensures extensionsByAddr == if enabled then old(extensionsByAddr) - {addr} else old(extensionsByAddr)
    {
      if enabled {
        extensionsByAddr := extensionsByAddr - {addr};
      }
    }

    static method FindByName(slice: seq<Extension>, name: string) returns (k: int)
      ensures -1 <= k < |slice|
      ensures k >= 0 ==> slice[k].name == name && forall j :: 0 <= j < k ==> slice[j].name != name
      ensures k == -1 <==> !Knows(slice, name)
    {
      k := 0;
      while k < |slice|
        invariant 0 <= k <= |slice|
        invariant forall j :: 0 <= j < k ==> slice[j].name != name
      {
        if slice[k].name == name { return; }
        k := k + 1;
      }
      k := -1;
    }

    static method RegistrationIsClosed(slice: seq<Extension>) returns (closed: bool)
      ensures closed <==> exists j :: 0 <= j < |slice| && slice[j].calledNext
    {
      var k := 0;
      while k < |slice|
        invariant 0 <= k <= |slice|
        invariant forall j :: 0 <= j < k ==> !slice[j].calledNext
      {
        if slice[k].calledNext { return true; }
        k := k + 1;
      }
      return false;
    }

    /** The next handler, up to its response.  received: an event came before the request
        was cancelled; only then does the handle count as having called next. */
    method Next(id: string, received: bool) returns (handle: Option<Extension>)
      requires Valid()
      modifies (if id in extensionByID then {extensionByID[id]} else {})`calledNext
      ensures Valid()
      ensures handle == if id == "" || id !in extensionByID then None else Some(extensionByID[id])
      ensures handle.Some? ==> handle.value.calledNext == (old(handle.value.calledNext) || received)
      ensures handle.None? && id in extensionByID ==> extensionByID[id].calledNext == old(extensionByID[id].calledNext)
    {
      if id == "" || id !in extensionByID { return None; }
      handle := Some(extensionByID[id]);
      if received {
        extensionByID[id].calledNext := true;
      }
    }

    /** The loop over the requested events: it sets the flags as it goes, and gives up at
        the first event that cannot be subscribed to, leaving the flags set so far. */
    static method Subscribe(e: Extension, events: seq<string>, external: bool) returns (ok: bool)
      modifies e`invokeIsRegistered, e`shutdownIsRegistered
      ensures ok <==> AllSubscribable(events, external)
      ensures ok ==> (e.invokeIsRegistered <==> old(e.invokeIsRegistered) || "INVOKE" in events)
      ensures ok ==> (e.shutdownIsRegistered <==> old(e.shutdownIsRegistered) || "SHUTDOWN" in events)
      ensures !ok ==> exists k ::
                0 <= k < |events| && !Subscribable(events[k], external) && AllSubscribable(events[..k], external)
                && (e.invokeIsRegistered <==> old(e.invokeIsRegistered) || "INVOKE" in events[..k])
                && (e.shutdownIsRegistered <==> old(e.shutdownIsRegistered) || "SHUTDOWN" in events[..k])
    {
      var k := 0;
      while k < |events|
        invariant 0 <= k <= |events|
        invariant AllSubscribable(events[..k], external)
        invariant e.invokeIsRegistered <==> old(e.invokeIsRegistered) || "INVOKE" in events[..k]
        invariant e.shutdownIsRegistered <==> old(e.shutdownIsRegistered) || "SHUTDOWN" in events[..k]
      {
        assert events[..k + 1] == events[..k] + [events[k]];
        if events[k] == "INVOKE" {
          e.invokeIsRegistered := true;
        } else if events[k] == "SHUTDOWN" && external {
          e.shutdownIsRegistered := true;
        } else {
          assert !Subscribable(events[k], external);
          return false;
        }
        k := k + 1;
      }
      assert events[..k] == events;
      return true;
    }

    /** The register handler from the point where it has an unregistered handle: the gate
        opens once, and only when every requested event can be subscribed to. */
    method Subscribed(e: Extension, events: seq<string>, external: bool) returns (ok: bool)
      requires Valid() && e in handles && !e.registered
      modifies e`invokeIsRegistered, e`shutdownIsRegistered, e`registered, e`gateClosed, this`registered
      ensures Valid()
      ensures ok <==> AllSubscribable(events, external)
      ensures e.registered == e.gateClosed == ok
      ensures registered == (old(registered) || ok)
      ensures ok ==> (e.invokeIsRegistered <==> old(e.invokeIsRegistered) || "INVOKE" in events)
      ensures ok ==> (e.shutdownIsRegistered <==> old(e.shutdownIsRegistered) || "SHUTDOWN" in events)
    {
      ok := Subscribe(e, events, external);
      if ok {
        e.registered := true;
        e.CloseGate();
        registered := true;
      }
    }

    /** The register handler for a name that is known: an External Extension, which the
        daemon started itself. */
    method RegisterKnown(e: Extension, events: seq<string>) returns (status: Status)
      requires Valid() && e in handles
      modifies e`invokeIsRegistered, e`shutdownIsRegistered, e`registered, e`gateClosed, this`registered
      ensures Valid()
      ensures status == if old(e.registered) then AlreadyRegistered
                        else if AllSubscribable(events, true) then Accepted else InvalidEvent
      ensures e.registered == (status != InvalidEvent)
      ensures registered == (old(registered) || status == Accepted)
      ensures status == Accepted ==> (e.invokeIsRegistered <==> old(e.invokeIsRegistered) || "INVOKE" in events)
      ensures status == Accepted ==> (e.shutdownIsRegistered <==> old(e.shutdownIsRegistered) || "SHUTDOWN" in events)
      ensures status == AlreadyRegistered ==> e.invokeIsRegistered == old(e.invokeIsRegistered)
                                              && e.shutdownIsRegistered == old(e.shutdownIsRegistered)
    {
      if e.registered { return AlreadyRegistered; }
      var ok := Subscribed(e, events, true);
      status := if ok then Accepted else InvalidEvent;
    }

    /** The register handler for a name that is not known: an Internal Extension, which gets
        a handle as long as registration is open.  slice: what its caller sees. */
    method RegisterUnknown(slice: seq<Extension>, pgid: int, name: string, events: seq<string>, newId: string)
      returns (status: Status, ghost handle: Option<Extension>)
      requires Valid()
      modifies this`extensions, this`extensionByID, this`handles, this`registered
      ensures Valid()
      ensures if !enabled || exists i :: 0 <= i < |slice| && slice[i].calledNext then
                status == ServiceOff && handle.None? && View() == old(View()) && handles == old(handles)
              else
                && handle.Some? && fresh(handle.value) && handles == old(handles) + {handle.value}
                && handle.value.id == newId && handle.value.name == name
                && View() == AddHandle(old(View()), pgid, handle.value)
                && status == (if AllSubscribable(events, false) then Accepted else InvalidEvent)
                && handle.value.registered == (status == Accepted)
                && (status == Accepted ==> (handle.value.invokeIsRegistered <==> "INVOKE" in events)
                                           && (handle.value.shutdownIsRegistered <==> "SHUTDOWN" in events))
      ensures registered == (old(registered) || status == Accepted)
    {
      handle := None;
      var closed := RegistrationIsClosed(slice);
      if !enabled || closed { return ServiceOff, None; }
      var e := Add(name, pgid, newId);
      handle := Some(e);
      var ok := Subscribed(e, events, false);
      status := if ok then Accepted else InvalidEvent;
    }

    /** The register handler, as one step.  `newId` is the ID that Add would generate.
        seen: the handles that the caller's address leads to, and pgid their group. */
    method Register(addr: string, name: string, events: Option<seq<string>>, newId: string)
      returns (status: Status, ghost handle: Option<Extension>, ghost seen: seq<Extension>, ghost pgid: int)
      requires Valid()
      modifies this`extensions, this`extensionByID, this`handles, this`registered
      modifies handles`invokeIsRegistered, handles`shutdownIsRegistered, handles`registered, handles`gateClosed
      ensures Valid() && old(handles) <= handles
      ensures status == EmptyName <==> name == ""
      ensures status == BadRequest <==> name != "" && events.None?
      ensures forall i :: 0 <= i < |seen| ==> seen[i] in old(handles)
      ensures name != "" && events.Some? ==> exists pid :: old(Finds(addr, seen, pid, pgid))
      // a known name: the first handle that has it, which registers once
      ensures name != "" && events.Some? && Knows(seen, name) ==>
                && IsFirstNamed(handle, seen, name) && View() == old(View())
                && handle.value in old(handles)
                && status == if old(handle.value.registered) then AlreadyRegistered
                             else if AllSubscribable(events.value, true) then Accepted else InvalidEvent
      // an unknown name: a new handle in the group, while registration is open
      ensures name != "" && events.Some? && !Knows(seen, name) ==>
                if !old(enabled) || exists i :: 0 <= i < |seen| && old(seen[i].calledNext) then
                  status == ServiceOff && handle.None? && View() == old(View())
                else
                  && handle.Some? && fresh(handle.value) && handle.value.id == newId && handle.value.name == name
                  && View() == AddHandle(old(View()), pgid, handle.value)
                  && status == if AllSubscribable(events.value, false) then Accepted else InvalidEvent
      // the gate opens in this call, and only for the handle that is accepted
      ensures registered == (old(registered) || status == Accepted)
      ensures handle.Some? ==> handle.value.registered == (status != InvalidEvent)
      ensures status == Accepted ==> ("INVOKE" in events.value ==> handle.value.invokeIsRegistered)
                                     && ("SHUTDOWN" in events.value ==> handle.value.shutdownIsRegistered)
      ensures forall e :: e in old(handles) && handle != Some(e) ==>
                            && e.registered == old(e.registered)
                            && e.invokeIsRegistered == old(e.invokeIsRegistered)
                            && e.shutdownIsRegistered == old(e.shutdownIsRegistered)
    {
      hide AllSubscribable, AddHandle, Finds;
      handle, seen, pgid := None, [], 0;
      if name == "" { return EmptyName, None, seen, pgid; }
      if events.None? { return BadRequest, None, seen, pgid; }
      var slice, _, group := IndexedByAddr(addr);
      seen, pgid := slice, group;
      var k := FindByName(slice, name);
      if k == -1 {
        status, handle := RegisterUnknown(slice, group, name, events.value, newId);
      } else {
        handle := Some(slice[k]);
        status := RegisterKnown(slice[k], events.value);
      }
    }
  }
}

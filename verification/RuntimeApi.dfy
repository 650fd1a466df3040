/** The objects whose critical sections the state machines are made of: RuntimeAPI and
    ProcessManager, updated in place.  Each method is one section under a lock, and its
    contract is the step of the machines that have the section as an event. */
module RuntimeApi {
  import opened Common
  import opened Extensions
  import Engine = Rendezvous
  import Scale = ScaleController
  import Pacing = IdlePacing

  type Cid = Engine.Cid

  /** A response channel, made by one invocation. */
  class Channel {
    ghost const inv: nat

    constructor (ghost inv: nat)
      ensures this.inv == inv
    {
      this.inv := inv;
    }
  }

  /** The invocation behind each entry. */
  ghost function TableOf(requests: map<Cid, Channel>): (t: map<Cid, nat>)
    ensures t.Keys == requests.Keys && |t| == |requests|
  {
    var t := map id | id in requests :: requests[id].inv;
    assert t.Keys == requests.Keys && |t| == |t.Keys| && |requests| == |requests.Keys|;
    t
  }

  lemma TableOfUpdate(requests: map<Cid, Channel>, id: Cid, channel: Channel)
    ensures TableOf(requests[id := channel]) == TableOf(requests)[id := channel.inv]
  {
  }

  lemma TableOfRemoval(requests: map<Cid, Channel>, id: Cid)
    ensures TableOf(requests - {id}) == TableOf(requests) - {id}
    ensures id in requests ==> TableOf(requests)[id] == requests[id].inv
  {
  }

  // ----- the steps of the rendezvous, as the objects see them -----

  /** The fields of RuntimeAPI in this state of the rendezvous. */
  ghost predicate Shows(table: map<Cid, nat>, lambdaCount: nat, initError: Option<Engine.Bytes>, s: Engine.State) {
    && table == s.pending
    && lambdaCount == Engine.LambdaCount(s)
    && initError == (if s.initError.None? then None else Some(s.initError.value.body))
  }

  lemma DeleteShows(table: map<Cid, nat>, n: nat, e: Option<Engine.Bytes>, id: Cid)
    ensures forall s, v :: Shows(table, n, e, s) && Engine.InPhase(s, v, Engine.Deleting) && s.invs[v].cid == id ==>
                             Shows(table - {id}, n, e, Engine.Apply(s, Engine.Delete(v)))
  {
  }

  lemma StoreShows(table: map<Cid, nat>, n: nat, e: Option<Engine.Bytes>, id: Cid, v: nat)
    ensures forall s, r ::
              && Shows(table, n, e, s) && Engine.RuntimeIs(s, r, Engine.Holding(v))
              && v in s.invs && s.invs[v].cid == id ==>
                Shows(table[id := v], n, e, Engine.Apply(s, Engine.Store(r)))
  {
  }

  /** The lookup of `response` leads to the channel of invocation v, which has this ID, was not
      sent to, and is empty; and the handler is about to send the body to it. */
  predicate LeadsTo(t: Engine.State, p: nat, id: Cid, body: Option<Engine.Bytes>, v: nat) {
    && v in t.invs && t.invs[v].cid == id && t.invs[v].buffer.None? && t.invs[v].sends == 0
    && (body.Some? ==> p in t.posters && t.posters[p] == Engine.Poster(v, Engine.Posted(id, body.value)))
  }

  lemma LookupFields(s: Engine.State, p: nat, id: Cid, body: Option<Engine.Bytes>, from: Option<nat>)
    requires Engine.Enabled(s, Engine.Lookup(p, id, body, from))
    ensures var t := Engine.Apply(s, Engine.Lookup(p, id, body, from));
            var u := Engine.DoLookup(Engine.RecordPost(s, id, body), p, id, body);
            t.pending == u.pending && t.processes == s.processes && t.initError == s.initError
            && t.invs == u.invs && t.posters == u.posters
  {
  }

  lemma LookupShows(table: map<Cid, nat>, n: nat, e: Option<Engine.Bytes>, s: Engine.State,
                    p: nat, id: Cid, body: Option<Engine.Bytes>, from: Option<nat>)
    requires Shows(table, n, e, s) && Engine.Inv(s) && Engine.Enabled(s, Engine.Lookup(p, id, body, from))
    ensures var t := Engine.Apply(s, Engine.Lookup(p, id, body, from));
            && Shows(table - {id}, n, e, t)
            && (id in table ==> LeadsTo(t, p, id, body, table[id]))
  {
    hide Engine.Apply;
    LookupFields(s, p, id, body, from);
    if id in s.pending {
      assert Engine.EntryOk(s.pending[id], id, s.invs, s.log);
      assert Engine.InvocationOk(s.invs[s.pending[id]], s.pending[id], s.log);
    } else {
      assert s.pending - {id} == s.pending;
    }
  }

  /** The rendezvous may look up this ID in this state. */
  ghost predicate MayLookUp(s: Engine.State, p: nat, id: Cid, body: Option<Engine.Bytes>, from: Option<nat>) {
    Engine.Inv(s) && Engine.Enabled(s, Engine.Lookup(p, id, body, from))
  }

  lemma LookupsShow(table: map<Cid, nat>, n: nat, e: Option<Engine.Bytes>, id: Cid)
    ensures forall s, p, body, from :: Shows(table, n, e, s) && MayLookUp(s, p, id, body, from) ==>
              Shows(table - {id}, n, e, Engine.Apply(s, Engine.Lookup(p, id, body, from)))
    ensures forall s, p, body, from :: id in table && Shows(table, n, e, s) && MayLookUp(s, p, id, body, from) ==>
              LeadsTo(Engine.Apply(s, Engine.Lookup(p, id, body, from)), p, id, body, table[id])
  {
    hide Engine.Apply, Engine.Inv, Engine.Enabled, Shows, LeadsTo;
    forall s, p, body, from | Shows(table, n, e, s) && MayLookUp(s, p, id, body, from)
      ensures Shows(table - {id}, n, e, Engine.Apply(s, Engine.Lookup(p, id, body, from)))
      ensures id in table ==> LeadsTo(Engine.Apply(s, Engine.Lookup(p, id, body, from)), p, id, body, table[id])
    {
      LookupShows(table, n, e, s, p, id, body, from);
    }
  }

  lemma PostErrorShows(table: map<Cid, nat>, n: nat, e: Option<Engine.Bytes>, report: Engine.Bytes)
    ensures forall s :: Shows(table, n, e, s) ==>
                          Shows(table, n, if e.None? then Some(report) else e,
                                Engine.Apply(s, Engine.PostInitError(report)))
  {
  }

  lemma TakeErrorShows(table: map<Cid, nat>, n: nat, e: Option<Engine.Bytes>)
    ensures forall s, v :: Shows(table, n, e, s) && Engine.Enabled(s, Engine.TakeInitError(v)) ==>
                             var t := Engine.Apply(s, Engine.TakeInitError(v));
                             && Shows(table, n, None, t) && t.invs[v].phase.Forwarding?
                             && e == Some(t.invs[v].phase.error.body)
  {
  }

  /** The manager's processes, too: the rendezvous knows a Runtime by its pid. */
  ghost predicate ShowsAll(table: map<Cid, nat>, pids: set<int>, e: Option<Engine.Bytes>, s: Engine.State) {
    Shows(table, |pids|, e, s) && pids == s.processes
  }

  lemma RegisterShows(table: map<Cid, nat>, pids: set<int>, e: Option<Engine.Bytes>, pid: nat)
    ensures forall s :: ShowsAll(table, pids, e, s) ==>
                          ShowsAll(table, pids + {pid}, e, Engine.Apply(s, Engine.Register(pid)))
  {
    forall s | ShowsAll(table, pids, e, s)
      ensures ShowsAll(table, pids + {pid}, e, Engine.Apply(s, Engine.Register(pid)))
    {
      assert Engine.Apply(s, Engine.Register(pid)) == s.(processes := s.processes + {pid});
    }
  }

  lemma ExitShows(table: map<Cid, nat>, pids: set<int>, e: Option<Engine.Bytes>, pid: nat)
    ensures forall s :: ShowsAll(table, pids, e, s) ==>
                          ShowsAll(table, pids - {pid}, e, Engine.Apply(s, Engine.Exit(pid)))
  {
    forall s | ShowsAll(table, pids, e, s)
      ensures ShowsAll(table, pids - {pid}, e, Engine.Apply(s, Engine.Exit(pid)))
    {
      assert Engine.Apply(s, Engine.Exit(pid)) == Engine.DoExit(s, pid);
    }
  }

  class RuntimeAPI {
    const extensions: ExtensionsAPI
    const idleTimeout: nat
    const initialisers: array<bool>
    var pendingRequests: map<Cid, Channel>
    var timestamp: Option<nat>
    var shutdownQueued: bool
    var initError: Option<Engine.Bytes>
    var lambdaCount: nat

    function Pacer(): Pacing.Pacer
      reads this
    {
      Pacing.Pacer(timestamp, shutdownQueued)
    }

    ghost function Table(): map<Cid, nat>
      reads this
    {
      TableOf(pendingRequests)
    }

    /** The fields show this state of the rendezvous. */
    ghost predicate Represents(s: Engine.State)
      reads this
    {
      Shows(Table(), lambdaCount, initError, s)
    }

    constructor (extensions: ExtensionsAPI, maxConcurrency: nat, idleTimeout: nat)
      ensures this.extensions == extensions && this.idleTimeout == idleTimeout
      ensures fresh(initialisers) && initialisers.Length == maxConcurrency
      ensures Scale.Consumed(initialisers[..]) == {}
      ensures Represents(Engine.INITIAL) && pendingRequests == map[] && initError == None && lambdaCount == 0
      ensures timestamp == None && !shutdownQueued
    {
      this.extensions := extensions;
      this.idleTimeout := idleTimeout;
      initialisers := new bool[maxConcurrency](_ => false);
      pendingRequests, timestamp, shutdownQueued, initError, lambdaCount := map[], None, false, None, 0;
    }

    /** The step of an invocation that gives up.  It takes whatever is under the ID. */
    method DeleteRequest(id: Cid)
      modifies this`pendingRequests
      ensures pendingRequests == old(pendingRequests) - {id}
      ensures forall s, v :: old(Represents(s)) && Engine.InPhase(s, v, Engine.Deleting) && s.invs[v].cid == id ==>
                               Represents(Engine.Apply(s, Engine.Delete(v)))
    {
      hide Engine.Apply, Shows, TableOf;
      pendingRequests := pendingRequests - {id};
      TableOfRemoval(old(pendingRequests), id);
      DeleteShows(old(Table()), lambdaCount, initError, id);
    }

    /** The locked section of `next`, for a Runtime that holds the channel's invocation.  The
        clock is read up to three times. */
    method Store(id: Cid, channel: Channel, t1: nat, t2: nat, t3: nat)
      requires t1 <= t2 <= t3 && (timestamp.Some? ==> timestamp.value <= t1)
      modifies this`pendingRequests, this`timestamp, this`shutdownQueued
      ensures pendingRequests == old(pendingRequests)[id := channel]
      ensures Pacer() == Pacing.AtStore(old(Pacer()), idleTimeout, |pendingRequests| == lambdaCount, t1, t2, t3).0
      ensures forall s, r ::
                && old(Represents(s)) && Engine.RuntimeIs(s, r, Engine.Holding(channel.inv))
                && channel.inv in s.invs && s.invs[channel.inv].cid == id ==>
                  var t := Engine.Apply(s, Engine.Store(r));
                  && Represents(t)
                  && (|pendingRequests| == lambdaCount <==> |t.pending| == Engine.LambdaCount(t))
    {
      hide Engine.Apply, TableOf;
      pendingRequests := pendingRequests[id := channel];
      TableOfUpdate(old(pendingRequests), id, channel);
      if |pendingRequests| == lambdaCount {
        timestamp := Some(t1);
      }
      var diff := if timestamp.None? || t2 - timestamp.value > Pacing.MAX_DURATION
      then Pacing.MAX_DURATION / Pacing.NANOS
      else (t2 - timestamp.value) / Pacing.NANOS;
      if diff > idleTimeout {
        timestamp := Some(t3);
        if !shutdownQueued {  // a non-blocking send
          shutdownQueued := true;
        }
      }
      StoreShows(old(Table()), lambdaCount, initError, id, channel.inv);
    }

    /** The locked section of `response`.  A channel that it hands out belongs to an
        invocation under this ID, has not been sent to, and is empty, so that the send
        which follows does not block. */
    method TakeChannel(id: Cid) returns (channel: Option<Channel>)
      modifies this`pendingRequests
      ensures channel == if id in old(pendingRequests) then Some(old(pendingRequests)[id]) else None
      ensures pendingRequests == old(pendingRequests) - {id}
      ensures forall s, p, body, from :: old(Represents(s)) && MayLookUp(s, p, id, body, from) ==>
                Represents(Engine.Apply(s, Engine.Lookup(p, id, body, from)))
      ensures channel.Some? ==>
                forall s, p, body, from :: old(Represents(s)) && MayLookUp(s, p, id, body, from) ==>
                  LeadsTo(Engine.Apply(s, Engine.Lookup(p, id, body, from)), p, id, body, channel.value.inv)
    {
      hide Engine.Apply, MayLookUp, Shows, LeadsTo, TableOf;
      channel := None;
      if id in pendingRequests {
        channel := Some(pendingRequests[id]);
        pendingRequests := pendingRequests - {id};
      }
      assert pendingRequests == old(pendingRequests) - {id};
      TableOfRemoval(old(pendingRequests), id);
      LookupsShow(old(Table()), lambdaCount, initError, id);
    }

    /** The non-blocking send of `initerror`. */
    method OfferInitError(report: Engine.Bytes)
      modifies this`initError
      ensures initError == if old(initError).None? then Some(report) else old(initError)
      ensures forall s :: old(Represents(s)) ==> Represents(Engine.Apply(s, Engine.PostInitError(report)))
    {
      hide Engine.Apply, Shows, TableOf;
      if initError.None? {
        initError := Some(report);
      }
      PostErrorShows(old(Table()), lambdaCount, old(initError), report);
    }

    /** The receive on the same channel, by an invocation in its blocking select. */
    method TakeInitError() returns (report: Engine.Bytes)
      requires initError.Some?
      modifies this`initError
      ensures initError.None? && old(initError) == Some(report)
      ensures forall s, v :: old(Represents(s)) && Engine.Enabled(s, Engine.TakeInitError(v)) ==>
                               var t := Engine.Apply(s, Engine.TakeInitError(v));
                               Represents(t) && t.invs[v].phase.Forwarding? && t.invs[v].phase.error.body == report
    {
      hide Engine.Apply, Shows, TableOf;
      report := initError.value;
      initError := None;
      TakeErrorShows(old(Table()), lambdaCount, old(initError));
    }
  }

  class ProcessManager {
    const rapi: RuntimeAPI
    var processes: map<int, int>  // pid to process group
    ghost var launching: nat      // launches that have claimed a slot and not yet registered or failed

    /** The counting invariant: consumed slots cover every process and every launch. */
    ghost predicate Valid()
      reads this, rapi, rapi.initialisers, rapi.extensions, rapi.extensions.handles
    {
      && rapi.initialisers.Length >= 1
      && rapi.lambdaCount == |processes|
      && |processes| + launching <= |Scale.Consumed(rapi.initialisers[..])|
      && rapi.extensions.Valid()
    }

    ghost function Pool(): Scale.Pool
      reads this, rapi, rapi.initialisers
    {
      Scale.Pool(rapi.initialisers[..], processes.Keys, rapi.lambdaCount, false)
    }

    ghost predicate Represents(s: Engine.State)
      reads this, rapi
    {
      ShowsAll(rapi.Table(), processes.Keys, rapi.initError, s)
    }

    constructor (rapi: RuntimeAPI)
      requires rapi.initialisers.Length >= 1 && rapi.lambdaCount == 0
      requires rapi.extensions.Valid() && Scale.Consumed(rapi.initialisers[..]) == {}
      ensures Valid() && this.rapi == rapi && processes == map[] && launching == 0
    {
      this.rapi := rapi;
      processes := map[];
      launching := 0;
    }

    /** RuntimeAPI.Init up to the release of the read lock. */
    method ReadIndex() returns (index: nat)
      requires Valid()
      ensures index == Scale.ReadIndex(Pool()) && index < rapi.initialisers.Length
    {
      index := rapi.lambdaCount;
      var bound := rapi.initialisers.Length - 1;
      if index > bound {
        index := bound;
      }
    }

    /** once.Do at an index that may be stale by now. */
    method Claim(index: nat) returns (launch: bool)
      requires Valid() && index < rapi.initialisers.Length
      modifies this`launching, rapi.initialisers
      ensures Valid() && processes == old(processes)
      ensures (Pool(), launch) == Scale.Claim(old(Pool()), index)
      ensures launching == old(launching) + (if launch then 1 else 0)
      ensures launch ==> |processes| + launching <= rapi.initialisers.Length
    {
      Scale.ConsumedUpdate(rapi.initialisers[..], index, true);
      launch := !rapi.initialisers[index];
      rapi.initialisers[index] := true;
      assert rapi.initialisers[..] == old(rapi.initialisers[..])[index := true];
      if launch {
        launching := launching + 1;
      }
      Scale.ConsumedBound(rapi.initialisers[..]);
    }

    /** ManagedProcess.Start failed. */
    ghost method StartFailed()
      requires Valid() && launching >= 1
      modifies this`launching
      ensures Valid() && launching == old(launching) - 1 && Pool() == old(Pool())
    {
      launching := launching - 1;
    }

    /** Register, called by Start, with the callbacks into both APIs. */
    method Register(pid: int, pgid: int, now: nat)
      requires Valid() && launching >= 1
      modifies this, rapi`lambdaCount, rapi`timestamp, rapi.extensions`extensions
      ensures Valid() && launching == old(launching) - 1
      ensures processes == old(processes)[pid := pgid]
      ensures Pool() == Scale.Register(old(Pool()), pid)
      ensures rapi.Pacer() == Pacing.AtLaunch(old(rapi.Pacer()), now)
      ensures rapi.extensions.View() == RegisterGroup(old(rapi.extensions.View()), pid)
      ensures pid >= 0 ==> forall s :: old(Represents(s)) ==> Represents(Engine.Apply(s, Engine.Register(pid)))
    {
      hide Engine.Apply, ShowsAll, TableOf, Scale.Consumed, RegisterGroup, UnregisterGroup;
      processes := processes[pid := pgid];
      launching := launching - 1;
      assert processes.Keys == old(processes.Keys) + {pid};
      assert |processes| == |processes.Keys|;
      rapi.extensions.RegisterLambdaRuntime(pid);
      rapi.lambdaCount := |processes|;
      rapi.timestamp := Some(now);
      if pid >= 0 { RegisterShows(rapi.Table(), old(processes.Keys), rapi.initError, pid); }
    }

    /** Unregister, called for every reaped child.  The slot index is in range. */
    method Unregister(pid: int)
      requires Valid()
      modifies this`processes, rapi`lambdaCount, rapi.initialisers,
               rapi.extensions`extensions, rapi.extensions`extensionByID
      ensures Valid() && launching == old(launching)
      ensures processes == old(processes) - {pid}
      ensures Pool() == Scale.Unregister(old(Pool()), pid)
      ensures rapi.extensions.View() == if pid in old(processes) then UnregisterGroup(old(rapi.extensions.View()), pid)
                                        else old(rapi.extensions.View())
      ensures pid >= 0 ==> forall s :: old(Represents(s)) ==> Represents(Engine.Apply(s, Engine.Exit(pid)))
    {
      hide Engine.Apply, ShowsAll, TableOf, Scale.Consumed, RegisterGroup, UnregisterGroup;
      Scale.ConsumedBound(rapi.initialisers[..]);
      if pid in processes {
        processes := processes - {pid};
        assert processes.Keys == old(processes.Keys) - {pid};
        assert |processes| == |processes.Keys| == |old(processes)| - 1 by {
          assert |old(processes)| == |old(processes.Keys)|;
        }
        rapi.extensions.UnregisterLambdaRuntime(pid);
        var nproc := |processes|;
        Scale.ConsumedUpdate(rapi.initialisers[..], nproc, false);
        rapi.initialisers[nproc] := false;
        assert rapi.initialisers[..] == old(rapi.initialisers[..])[nproc := false];
        rapi.lambdaCount := nproc;
      }
      assert processes.Keys == old(processes.Keys) - {pid};
      if pid >= 0 { ExitShows(rapi.Table(), old(processes.Keys), rapi.initError, pid); }
    }
  }
}

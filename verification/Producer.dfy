/** The Producer object: its fields, updated in place by send and by the two confirm
    callbacks, proved against the ledger window and the range tracker. */
module Producer {
  import opened Common
  import Sync = PublisherConfirms
  import Ranges = UndeliveredRanges

  datatype SendResult = Published | Awaitable(tag: nat) | SendError(undelivered: seq<Ranges.Range>)

  class Producer {
    var nextPublishSeqNo: nat
    var savedAckSeqNo: nat
    var savedNackSeqNo: nat
    var savedSeqNo: nat
    var previousNackStart: nat
    var syncPub: bool
    var sync: set<nat>           // tags of the futures that send has returned and nobody has resolved
    var results: map<nat, bool>  // resolved futures: a result, or a SendError
    var undelivered: seq<Ranges.Range>

    function Window(): Sync.Windowed
      reads this
    {
      Sync.Windowed(Sync.Ledger(nextPublishSeqNo, sync, results), savedSeqNo)
    }

    function Tracker(): Ranges.Tracker
      reads this
    {
      Ranges.Tracker(savedSeqNo, savedAckSeqNo, savedNackSeqNo, previousNackStart, undelivered)
    }

    constructor ()
      ensures nextPublishSeqNo == 1 && !syncPub && sync == {} && results == map[] && undelivered == []
      ensures savedSeqNo == savedAckSeqNo == savedNackSeqNo == 0 && previousNackStart == 1
    {
      nextPublishSeqNo := 1;
      savedAckSeqNo, savedNackSeqNo, savedSeqNo, previousNackStart := 0, 0, 0, 1;
      syncPub := false;
      sync, results, undelivered := {}, map[], [];
    }

    /** From a new producer both modes start in the state that the proofs start from. */
    method EnableExceptions(syncMode: bool)
      modifies this`savedSeqNo, this`syncPub, this`savedAckSeqNo, this`savedNackSeqNo
      ensures syncMode && old(Window()) == Sync.Windowed(Sync.FRESH, 0) ==>
                syncPub && Window() == Sync.Windowed(Sync.FRESH, 1) && Sync.WindowOk(Window())
      ensures !syncMode && old(Tracker()) == Ranges.Tracker(0, 0, 0, 1, []) ==>
                Tracker() == Ranges.FRESH && Ranges.Tracks(Tracker(), [], 0)
    {
      if syncMode {
        savedSeqNo := 1;
        syncPub := true;
      } else {
        savedAckSeqNo := 1;
        savedNackSeqNo := 1;
      }
    }

    method ResolveFuture(index: nat, ack: bool)
      requires index in sync
      modifies this`sync, this`results
      ensures sync == old(sync) - {index} && results == old(results)[index := ack]
    {
      results := results[index := ack];
      sync := sync - {index};
    }

    /** The loop over range(saved_seq_no, end). */
    method ResolveRange(end: nat, ack: bool)
      modifies this`sync, this`results
      ensures Window().ledger == Sync.Settle(old(Window()).ledger, Sync.InWindow(old(sync), savedSeqNo, end), ack)
    {
      ghost var before, settled := sync, results;
      var from := savedSeqNo;
      var i := from;
      while i < end
        invariant from <= i && (i <= end || i == from)
        invariant forall t: nat :: t in sync <==> t in before && !(from <= t < i)
        invariant forall t: nat :: t in results <==> t in settled || (t in before && from <= t < i)
        invariant forall t: nat :: t in results ==>
                                     results[t] == if t in before && from <= t < i then ack else settled[t]
      {
        if i in sync {
          ResolveFuture(i, ack);
        }
        i := i + 1;
      }
      ghost var window := Sync.InWindow(before, from, end);
      assert sync == before - window;
      assert results == settled + Sync.Verdicts(window, ack);
    }

    /** raised: the lookup of a single tag found no future. */
    method SyncAckNackCallback(f: Sync.Frame) returns (raised: bool)
      modifies this`sync, this`results, this`savedSeqNo
      ensures Window() == Sync.OnFrame(old(Window()), f)
      ensures raised <==> Sync.Scanned(old(Window()), f).None?
      ensures Sync.WindowOk(old(Window())) && Sync.Legal(old(Window()).ledger, f) && f.tag != 0 ==>
                !raised && Sync.WindowOk(Window()) && Window().ledger == Sync.Confirm(old(Window()).ledger, f)
      ensures Sync.WindowOk(old(Window())) && Sync.Legal(old(Window()).ledger, f) && f.tag != 0 ==>
                forall t :: t in old(sync) ==>
                  if t == f.tag || (f.multiple && t < f.tag) then t !in sync && t in results && results[t] == f.ack
                  else t in sync && t !in results
    {
      raised := false;
      ghost var w := Window();
      if f.multiple {
        ResolveRange(f.tag + 1, f.ack);
        savedSeqNo := f.tag + 1;
      } else if f.tag in sync {
        ResolveFuture(f.tag, f.ack);
        assert results == w.ledger.settled + Sync.Verdicts({f.tag}, f.ack);
        if savedSeqNo == f.tag {
          savedSeqNo := savedSeqNo + 1;
        }
      } else {
        raised := true;
      }
      if Sync.WindowOk(w) {
        Sync.WindowAgreesIff(w, f);
        Sync.WindowStaysIff(w, f);
        forall t | t in old(sync) { Sync.ConfirmSettles(w.ledger, f, t); }
      }
    }

    method ExceptionAckNackCallback(f: Sync.Frame)
      modifies this`savedSeqNo, this`savedAckSeqNo, this`savedNackSeqNo, this`previousNackStart, this`undelivered
      ensures Tracker() == Ranges.OnFrame(old(Tracker()), f)
    {
      if f.ack {
        var prev: int;
        if !f.multiple {
          prev := f.tag;
        } else if savedNackSeqNo > savedAckSeqNo {
          prev := savedNackSeqNo;
        } else {
          prev := savedAckSeqNo;
        }
        if savedSeqNo != prev - 1 {
          previousNackStart := savedSeqNo + 1;
        }
        savedSeqNo := f.tag;
        savedAckSeqNo := f.tag + 1;
      } else {
        var prev := if f.tag < savedAckSeqNo then previousNackStart else savedAckSeqNo;
        if undelivered != [] {
          var last := undelivered[|undelivered| - 1];
          if last.0 == prev {
            undelivered := undelivered[|undelivered| - 1 := (prev, f.tag)];
          } else {
            undelivered := undelivered + [(prev, f.tag)];
          }
        } else {
          undelivered := undelivered + [(prev, f.tag)];
        }
        savedNackSeqNo := f.tag + 1;
      }
    }

    /** Raises what is undelivered instead of publishing. */
    method Send() returns (r: SendResult)
      modifies this`undelivered, this`nextPublishSeqNo, this`sync
      ensures Tracker() == Ranges.OnSend(old(Tracker())).0
      ensures old(undelivered) != [] ==> r == SendError(old(undelivered)) && Window() == old(Window())
      ensures undelivered == []
      ensures old(undelivered) == [] && syncPub ==> r == Awaitable(old(nextPublishSeqNo))
                                                    && Window().ledger == Sync.Publish(old(Window()).ledger)
      ensures old(undelivered) == [] && !syncPub ==> r == Published && sync == old(sync)
                                                     && nextPublishSeqNo == old(nextPublishSeqNo) + 1
    {
      if undelivered != [] {
        var copy := undelivered;
        undelivered := [];
        return SendError(copy);
      }
      nextPublishSeqNo := nextPublishSeqNo + 1;
      if syncPub {
        sync := sync + {nextPublishSeqNo - 1};
        return Awaitable(nextPublishSeqNo - 1);
      }
      return Published;
    }
  }
}

/** Publisher confirms: Producer.enable_exceptions and Producer.send.

    With sync=True each send returns a future; a confirm settles every outstanding
    future it covers, and the callback looks only at a window of tags.  With sync=False
    the callback keeps a list of ranges of undelivered tags, which the next send raises. */
module PublisherConfirms {
  import opened Common

  /** basic.ack or basic.nack. */
  datatype Frame = Frame(tag: nat, multiple: bool, ack: bool)

  // ----- sync=True: the simple form -----

  /** The confirms protocol: futures outstanding, and settled futures with their verdicts. */
  datatype Ledger = Ledger(next: nat, outstanding: set<nat>, settled: map<nat, bool>)

  function Publish(l: Ledger): Ledger {
    l.(next := l.next + 1, outstanding := l.outstanding + {l.next})
  }

  /** The tags that a frame covers.  With multiple, tag zero stands for everything so far. */
  function Covered(l: Ledger, f: Frame): set<nat> {
    if !f.multiple then l.outstanding * {f.tag}
    else if f.tag == 0 then l.outstanding
    else set t | t in l.outstanding && t <= f.tag
  }

  function Verdicts(tags: set<nat>, ack: bool): map<nat, bool> { map t | t in tags :: ack }

  function Settle(l: Ledger, tags: set<nat>, ack: bool): Ledger {
    l.(outstanding := l.outstanding - tags, settled := l.settled + Verdicts(tags, ack))
  }

  function Confirm(l: Ledger, f: Frame): Ledger { Settle(l, Covered(l, f), f.ack) }

  /** What a confirm does to each future: a single one settles its own tag, and one with
      multiple every tag up to its own, or every tag when its own is zero; the rest, and
      what was settled before, is left alone, and so is the count of what was sent. */
  lemma ConfirmSettles(l: Ledger, f: Frame, t: nat)
    requires t in l.outstanding && l.outstanding !! l.settled.Keys
    ensures var m := Confirm(l, f);
            && m.next == l.next && (forall u :: u in l.settled ==> u in m.settled && m.settled[u] == l.settled[u])
            && (if t == f.tag || (f.multiple && (t < f.tag || f.tag == 0))
                then t !in m.outstanding && t in m.settled && m.settled[t] == f.ack
                else t in m.outstanding && t !in m.settled)
  {
  }

  /** A send is outstanding under the next tag, and nothing else changes. */
  lemma PublishAdds(l: Ledger, t: nat)
    ensures t in Publish(l).outstanding <==> t in l.outstanding || t == l.next
    ensures Publish(l).next == l.next + 1 && Publish(l).settled == l.settled
  {
  }

  ghost predicate LedgerOk(l: Ledger) {
    && l.next >= 1
    && l.outstanding !! l.settled.Keys
    && forall t :: t in l.outstanding || t in l.settled <==> 1 <= t < l.next
  }

  // ----- sync=True: the windowed form -----

  datatype Windowed = Windowed(ledger: Ledger, saved: nat)

  function InWindow(tags: set<nat>, from: nat, end: nat): set<nat> {
    set t | t in tags && from <= t < end
  }

  /** The tags that the callback settles, and None when the lookup of a single tag raises. */
  function Scanned(w: Windowed, f: Frame): Option<set<nat>> {
    if f.multiple then Some(InWindow(w.ledger.outstanding, w.saved, f.tag + 1))
    else if f.tag in w.ledger.outstanding then Some({f.tag})
    else None
  }

  lemma SettleNone(l: Ledger, ack: bool)
    ensures Settle(l, {}, ack) == l
  {
    assert l.outstanding - {} == l.outstanding;
    assert l.settled + Verdicts({}, ack) == l.settled;
  }

  function OnFrame(w: Windowed, f: Frame): Windowed {
    match Scanned(w, f)
    case None => w
    case Some(tags) =>
      Windowed(Settle(w.ledger, tags, f.ack),
               if f.multiple then f.tag + 1 else if w.saved == f.tag then f.tag + 1 else w.saved)
  }

  /** Nothing outstanding lies below saved_seq_no, which is at most the next tag. */
  ghost predicate WindowOk(w: Windowed) {
    && LedgerOk(w.ledger)
    && w.saved <= w.ledger.next
    && forall t :: t in w.ledger.outstanding ==> w.saved <= t
  }

  /** What a broker sends: tags that were published, single ones at most once. */
  predicate Legal(l: Ledger, f: Frame) {
    f.tag < l.next && (!f.multiple ==> f.tag in l.outstanding)
  }

  /** The window agrees with the simple form exactly when a frame does not use tag zero
      to confirm everything that is outstanding. */
  lemma WindowAgreesIff(w: Windowed, f: Frame)
    requires WindowOk(w)
    ensures OnFrame(w, f).ledger == Confirm(w.ledger, f)
       <==> !(f.multiple && f.tag == 0 && w.ledger.outstanding != {})
  {
    if f.multiple && f.tag != 0 {
      assert Scanned(w, f).value == Covered(w.ledger, f);
    } else if f.multiple {
      assert Scanned(w, f).value == {};
      SettleNone(w.ledger, f.ack);
      if w.ledger.outstanding == {} {
        assert Covered(w.ledger, f) == {};
      } else {
        assert Confirm(w.ledger, f).outstanding == {};
      }
    } else if f.tag in w.ledger.outstanding {
      assert Covered(w.ledger, f) == {f.tag};
    } else {
      assert Covered(w.ledger, f) == {};
      SettleNone(w.ledger, f.ack);
    }
  }

  /** And the window stays sound exactly when a multiple confirm does not run ahead of the sends. */
  lemma WindowStaysIff(w: Windowed, f: Frame)
    requires WindowOk(w)
    ensures WindowOk(OnFrame(w, f)) <==> (f.multiple ==> f.tag < w.ledger.next)
  {
    var v := OnFrame(w, f);
    if Scanned(w, f).Some? {
      var tags := Scanned(w, f).value;
      assert tags <= w.ledger.outstanding;
      assert v.ledger.settled.Keys == w.ledger.settled.Keys + tags;
      forall t
        ensures t in v.ledger.outstanding || t in v.ledger.settled
           <==> t in w.ledger.outstanding || t in w.ledger.settled
      {}
    }
  }

  datatype Event = Sent | Confirmed(frame: Frame)

  function RunSimple(l: Ledger, es: seq<Event>): Ledger
    decreases |es|
  {
    if es == [] then l
    else RunSimple(if es[0].Sent? then Publish(l) else Confirm(l, es[0].frame), es[1..])
  }

  function WindowStep(w: Windowed, e: Event): Windowed {
    if e.Sent? then w.(ledger := Publish(w.ledger)) else OnFrame(w, e.frame)
  }

  function RunWindowed(w: Windowed, es: seq<Event>): Windowed
    decreases |es|
  {
    if es == [] then w else RunWindowed(WindowStep(w, es[0]), es[1..])
  }

  /** Every frame is legal when it arrives, and none uses tag zero. */
  predicate LegalRun(l: Ledger, es: seq<Event>)
    decreases |es|
  {
    es == []
    || (es[0].Sent? && LegalRun(Publish(l), es[1..]))
    || (es[0].Confirmed? && Legal(l, es[0].frame) && es[0].frame.tag != 0 && LegalRun(Confirm(l, es[0].frame), es[1..]))
  }

  lemma {:induction false} WindowRefinesSimple(w: Windowed, es: seq<Event>)
    requires WindowOk(w) && LegalRun(w.ledger, es)
    ensures RunWindowed(w, es).ledger == RunSimple(w.ledger, es)
    ensures WindowOk(RunWindowed(w, es))
    decreases |es|
  {
    if es != [] {
      if es[0].Sent? {
        var v := WindowStep(w, es[0]);
        assert v.ledger.outstanding == w.ledger.outstanding + {w.ledger.next};
      } else {
        WindowAgreesIff(w, es[0].frame);
        WindowStaysIff(w, es[0].frame);
      }
      WindowRefinesSimple(WindowStep(w, es[0]), es[1..]);
    }
  }

  const FRESH: Ledger := Ledger(1, {}, map[])

  /** Over whole runs the windowed callback does what the simple one does: every future
      is outstanding or settled, never both, and nothing is outstanding below the window. */
  lemma SyncCallbackIsSimple(es: seq<Event>)
    requires LegalRun(FRESH, es)
    ensures var w := RunWindowed(Windowed(FRESH, 1), es);
            && w.ledger == RunSimple(FRESH, es)
            && w.ledger.outstanding !! w.ledger.settled.Keys
            && (forall t :: 1 <= t < w.ledger.next <==> t in w.ledger.outstanding || t in w.ledger.settled)
            && (forall t :: t in w.ledger.outstanding ==> w.saved <= t)
  {
    WindowRefinesSimple(Windowed(FRESH, 1), es);
  }

  /** The verdict of tag t: that of the first frame that covers it after it was sent. */
  function FirstVerdict(l: Ledger, es: seq<Event>, t: nat): Option<bool>
    decreases |es|
  {
    if es == [] then None
    else if es[0].Sent? then FirstVerdict(Publish(l), es[1..], t)
    else if t in Covered(l, es[0].frame) then Some(es[0].frame.ack)
    else FirstVerdict(Confirm(l, es[0].frame), es[1..], t)
  }

  lemma {:induction false} SettledOnce(l: Ledger, es: seq<Event>, t: nat)
    requires LedgerOk(l)
    ensures t in l.settled ==> t in RunSimple(l, es).settled && RunSimple(l, es).settled[t] == l.settled[t]
    decreases |es|
  {
    if es != [] {
      SimpleKeepsOk(l, es[0]);
      SettledOnce(if es[0].Sent? then Publish(l) else Confirm(l, es[0].frame), es[1..], t);
    }
  }

  lemma SimpleKeepsOk(l: Ledger, e: Event)
    requires LedgerOk(l)
    ensures LedgerOk(if e.Sent? then Publish(l) else Confirm(l, e.frame))
    ensures forall t :: t in l.settled ==>
              var m := if e.Sent? then Publish(l) else Confirm(l, e.frame);
              t in m.settled && m.settled[t] == l.settled[t]
  {
    if e.Confirmed? {
      var tags := Covered(l, e.frame);
      assert tags <= l.outstanding;
      assert Confirm(l, e.frame).settled.Keys == l.settled.Keys + tags;
    }
  }

  /** Each future is settled once, with the verdict of the frame that covered it. */
  lemma {:induction false} RightVerdict(l: Ledger, es: seq<Event>, t: nat)
    requires LedgerOk(l) && t !in l.settled
    ensures RunSimple(l, es).settled.Keys >= l.settled.Keys
    ensures match FirstVerdict(l, es, t)
            case None => t !in RunSimple(l, es).settled
            case Some(ack) => t in RunSimple(l, es).settled && RunSimple(l, es).settled[t] == ack
    decreases |es|
  {
    if es != [] {
      SimpleKeepsOk(l, es[0]);
      var m := if es[0].Sent? then Publish(l) else Confirm(l, es[0].frame);
      if es[0].Confirmed? && t in Covered(l, es[0].frame) {
        assert t in m.settled && m.settled[t] == es[0].frame.ack;
        SettledOnce(m, es[1..], t);
        forall u | u in l.settled ensures u in RunSimple(l, es).settled { SettledOnce(l, es, u); }
      } else {
        RightVerdict(m, es[1..], t);
      }
    }
  }
}

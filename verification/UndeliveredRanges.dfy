/** Publisher confirms with sync=False: exception_ack_nack_callback keeps a list of ranges
    of undelivered tags, which the next send raises and clears. */
module UndeliveredRanges {
  import opened PublisherConfirms

  type Range = (nat, nat)

  datatype Tracker = Tracker(saved: nat, savedAck: nat, savedNack: nat, holeStart: nat, undelivered: seq<Range>)

  const FRESH: Tracker := Tracker(0, 1, 1, 1, [])

  function OnAck(x: Tracker, f: Frame): Tracker {
    var prev := if !f.multiple then f.tag else if x.savedNack > x.savedAck then x.savedNack else x.savedAck;
    x.(holeStart := if x.saved != prev - 1 then x.saved + 1 else x.holeStart, saved := f.tag, savedAck := f.tag + 1)
  }

  function AddRange(ranges: seq<Range>, start: nat, end: nat): seq<Range> {
    if ranges != [] && ranges[|ranges| - 1].0 == start
    then ranges[|ranges| - 1 := (start, end)]
    else ranges + [(start, end)]
  }

  function OnNack(x: Tracker, f: Frame): Tracker
  {
    var prev := if f.tag < x.savedAck then x.holeStart else x.savedAck;
    x.(undelivered := AddRange(x.undelivered, prev, f.tag), savedNack := f.tag + 1)
  }

  function OnFrame(x: Tracker, f: Frame): Tracker
  {
    if f.ack then OnAck(x, f) else OnNack(x, f)
  }

  /** send: raise what is listed, and start a new list. */
  function OnSend(x: Tracker): (Tracker, seq<Range>) { (x.(undelivered := []), x.undelivered) }

  // ----- confirms in order -----

  /** The history of an in-order stream: entry t - 1 says whether tag t was acked. */
  type History = seq<bool>

  predicate InOrder(h: History, f: Frame) {
    if f.multiple then f.tag > |h| else f.tag == |h| + 1
  }

  /** The history after a frame that settles every tag up to end. */
  function Extend(h: History, ack: bool, end: nat): (r: History)
    requires end >= |h|
    ensures |r| == end && forall i :: 0 <= i < end ==> r[i] == if i < |h| then h[i] else ack
  {
    h + seq(end - |h|, _ => ack)
  }

  /** The last acked of the first n tags, or 0. */
  function LastAck(h: History, n: nat): (a: nat)
    requires n <= |h|
    ensures a <= n
  {
    if n == 0 then 0 else if h[n - 1] then n else LastAck(h, n - 1)
  }

  lemma {:induction false} LastAckIsLast(h: History, n: nat)
    requires n <= |h|
    ensures LastAck(h, n) > 0 ==> h[LastAck(h, n) - 1]
    ensures forall i :: LastAck(h, n) <= i < n ==> !h[i]
  {
    if n > 0 && !h[n - 1] { LastAckIsLast(h, n - 1); }
  }

  /** What the list should hold after n tags: the maximal runs of nacked tags, each as
      first and last tag, that go on after tag `since`. */
  function Runs(h: History, since: nat, n: nat): seq<Range>
    requires n <= |h|
    decreases n
  {
    if n <= since then []
    else if h[n - 1] then Runs(h, since, n - 1)
    else AddRange(Runs(h, since, n - 1), LastAck(h, n) + 1, n)
  }

  predicate Nacked(h: History, t: int) { 1 <= t <= |h| && !h[t - 1] }

  predicate Listed(ranges: seq<Range>, t: int) {
    exists k :: 0 <= k < |ranges| && ranges[k].0 <= t <= ranges[k].1
  }

  /** Ascending and disjoint, with an acked tag before each range but one that starts at tag 1. */
  ghost predicate Separated(ranges: seq<Range>, h: History) {
    && (forall k :: 0 <= k < |ranges| ==> 1 <= ranges[k].0 <= ranges[k].1 <= |h|)
    && (forall k :: 0 <= k < |ranges| && ranges[k].0 > 1 ==> h[ranges[k].0 - 2])
    && (forall j, k :: 0 <= j < k < |ranges| ==> ranges[j].1 + 1 < ranges[k].0)
  }

  /** With a the last acked of n tags: a range is the run in progress, and then the last
      range, or it ended before tag a. */
  ghost predicate Closed(ranges: seq<Range>, a: nat, n: nat) {
    forall k :: 0 <= k < |ranges| ==> (k == |ranges| - 1 && ranges[k] == (a + 1, n)) || ranges[k].1 < a
  }

  /** A new run. */
  lemma AppendSeparated(ranges: seq<Range>, h: History, a: nat, n: nat)
    requires Separated(ranges, h) && a < n <= |h| && (a > 0 ==> h[a - 1])
    requires forall k :: 0 <= k < |ranges| ==> ranges[k].1 < a
    ensures Separated(ranges + [(a + 1, n)], h) && Closed(ranges + [(a + 1, n)], a, n)
  {
    var all := ranges + [(a + 1, n)];
    assert all[|ranges|] == (a + 1, n);
    assert forall k :: 0 <= k < |ranges| ==> all[k] == ranges[k];
  }

  /** The run in progress goes on. */
  lemma GrowSeparated(ranges: seq<Range>, h: History, a: nat, n: nat)
    requires Separated(ranges, h) && a < n <= |h| && (a > 0 ==> h[a - 1])
    requires ranges != [] && ranges[|ranges| - 1].0 == a + 1
    requires forall k :: 0 <= k < |ranges| - 1 ==> ranges[k].1 < a
    ensures Separated(ranges[|ranges| - 1 := (a + 1, n)], h) && Closed(ranges[|ranges| - 1 := (a + 1, n)], a, n)
  {
  }

  lemma NackKeepsSeparated(ranges: seq<Range>, h: History, a: nat, n: nat)
    requires n > 0 && Separated(ranges, h) && Closed(ranges, a, n - 1)
    requires a < n <= |h| && (a > 0 ==> h[a - 1])
    ensures Separated(AddRange(ranges, a + 1, n), h)
    ensures Closed(AddRange(ranges, a + 1, n), a, n)
  {
    if ranges != [] && ranges[|ranges| - 1].0 == a + 1 {
      GrowSeparated(ranges, h, a, n);
    } else {
      AppendSeparated(ranges, h, a, n);
    }
  }

  lemma {:induction false} RunsAreSeparated(h: History, since: nat, n: nat)
    requires n <= |h|
    ensures Separated(Runs(h, since, n), h) && Closed(Runs(h, since, n), LastAck(h, n), n)
  {
    if n > since {
      RunsAreSeparated(h, since, n - 1);
      LastAckIsLast(h, n);
      if !h[n - 1] { NackKeepsSeparated(Runs(h, since, n - 1), h, LastAck(h, n), n); }
    }
  }

  lemma AddRangeLists(ranges: seq<Range>, start: nat, end: nat, t: int)
    requires ranges != [] && ranges[|ranges| - 1].0 == start ==> ranges[|ranges| - 1].1 <= end
    ensures Listed(AddRange(ranges, start, end), t) <==> Listed(ranges, t) || start <= t <= end
  {
    var all := AddRange(ranges, start, end);
    assert all[|all| - 1] == (start, end);
    if Listed(ranges, t) {
      var k :| 0 <= k < |ranges| && ranges[k].0 <= t <= ranges[k].1;
      assert all[k].0 <= t <= all[k].1;
    }
  }

  /** Tags t to u were all nacked. */
  ghost predicate NackedThrough(h: History, t: int, u: int) {
    t <= u && forall i :: t <= i <= u ==> Nacked(h, i)
  }

  lemma ThroughIffAfterLastAck(h: History, t: int, n: nat)
    requires 0 < n <= |h|
    ensures NackedThrough(h, t, n) <==> LastAck(h, n) + 1 <= t <= n
  {
    LastAckIsLast(h, n);
    if NackedThrough(h, t, n) {
      assert Nacked(h, t);
      assert t <= LastAck(h, n) ==> Nacked(h, LastAck(h, n));
    }
  }

  /** The run of nacks from tag t goes on after `since`, within the first n tags. */
  ghost predicate ReachesPast(h: History, t: int, since: nat, n: nat) {
    exists u :: since < u <= n && NackedThrough(h, t, u)
  }

  lemma ReachesOneMore(h: History, t: int, since: nat, n: nat)
    requires since < n <= |h|
    ensures ReachesPast(h, t, since, n) <==> ReachesPast(h, t, since, n - 1) || LastAck(h, n) + 1 <= t <= n
  {
    ThroughIffAfterLastAck(h, t, n);
    if ReachesPast(h, t, since, n) && !ReachesPast(h, t, since, n - 1) {
      var u :| since < u <= n && NackedThrough(h, t, u);
      assert u == n;
    }
  }

  /** A tag is listed exactly when it was nacked and its run of nacks goes on after `since`. */
  lemma {:induction false} ListedIff(h: History, since: nat, n: nat, t: int)
    requires n <= |h|
    ensures Listed(Runs(h, since, n), t) <==> ReachesPast(h, t, since, n)
  {
    if n > since {
      ListedIff(h, since, n - 1, t);
      ReachesOneMore(h, t, since, n);
      if !h[n - 1] {
        AddRangeLists(Runs(h, since, n - 1), LastAck(h, n) + 1, n, t) by { RunsAreSeparated(h, since, n - 1); }
      }
    }
  }

  /** The tracker after an in-order stream: h is its history, and `since` the number of
      tags confirmed when send last raised. */
  ghost predicate Tracks(x: Tracker, h: History, since: nat) {
    && since <= |h|
    && x.savedAck == LastAck(h, |h|) + 1
    && x.saved == LastAck(h, |h|)
    && x.savedNack <= |h| + 1
    && (x.savedAck == |h| + 1 || x.savedNack == |h| + 1)
    && x.undelivered == Runs(h, since, |h|)
  }

  lemma {:induction false} PrefixAgrees(h: History, g: History, since: nat, n: nat)
    requires n <= |h| && n <= |g| && forall i :: 0 <= i < n ==> g[i] == h[i]
    ensures LastAck(g, n) == LastAck(h, n) && Runs(g, since, n) == Runs(h, since, n)
  {
    if n > 0 { PrefixAgrees(h, g, since, n - 1); }
  }

  lemma {:induction false} AcksLeaveRuns(h: History, since: nat, n: nat, end: nat)
    requires since <= n < end <= |h| && forall i :: n <= i < end ==> h[i]
    ensures Runs(h, since, end) == Runs(h, since, n)
    decreases end
  {
    if n < end - 1 { AcksLeaveRuns(h, since, n, end - 1); }
  }

  lemma AddRangeTwice(ranges: seq<Range>, start: nat, mid: nat, end: nat)
    ensures AddRange(AddRange(ranges, start, mid), start, end) == AddRange(ranges, start, end)
  {
    var once := AddRange(ranges, start, mid);
    assert once[|once| - 1] == (start, mid);
  }

  lemma {:induction false} NacksLeaveLastAck(h: History, n: nat, end: nat)
    requires n <= end <= |h| && forall i :: n <= i < end ==> !h[i]
    ensures LastAck(h, end) == LastAck(h, n)
    decreases end
  {
    if n < end { NacksLeaveLastAck(h, n, end - 1); }
  }

  lemma {:induction false} NacksGrowTheRun(h: History, since: nat, n: nat, end: nat)
    requires since <= n < end <= |h| && forall i :: n <= i < end ==> !h[i]
    ensures Runs(h, since, end) == AddRange(Runs(h, since, n), LastAck(h, n) + 1, end)
    decreases end
  {
    NacksLeaveLastAck(h, n, end);
    var start := LastAck(h, n) + 1;
    assert Runs(h, since, end) == AddRange(Runs(h, since, end - 1), start, end);
    if n < end - 1 {
      NacksGrowTheRun(h, since, n, end - 1);
      AddRangeTwice(Runs(h, since, n), start, end - 1, end);
    }
  }

  lemma FrameTracks(x: Tracker, h: History, since: nat, f: Frame)
    requires Tracks(x, h, since) && InOrder(h, f)
    ensures Tracks(OnFrame(x, f), Extend(h, f.ack, f.tag), since)
  {
    var g := Extend(h, f.ack, f.tag);
    PrefixAgrees(h, g, since, |h|);
    if f.ack {
      AcksLeaveRuns(g, since, |h|, f.tag);
    } else {
      NacksLeaveLastAck(g, |h|, f.tag);
      NacksGrowTheRun(g, since, |h|, f.tag);
    }
  }

  // ----- runs -----

  datatype Event = Confirmed(frame: Frame) | Send

  /** What a run amounts to: the tracker, the history, the tags confirmed at the last
      raise, and the ranges raised so far. */
  datatype Outcome = Outcome(x: Tracker, h: History, since: nat, raised: seq<seq<Range>>)

  predicate Possible(o: Outcome, e: Event) { e.Confirmed? ==> InOrder(o.h, e.frame) }

  function Step(o: Outcome, e: Event): Outcome
    requires Possible(o, e)
  {
    match e
    case Confirmed(f) => o.(x := OnFrame(o.x, f), h := Extend(o.h, f.ack, f.tag))
    case Send =>
      var (x, ranges) := OnSend(o.x);
      if ranges == [] then o else Outcome(x, o.h, |o.h|, o.raised + [ranges])
  }

  function Run(o: Outcome, es: seq<Event>): Outcome
    decreases |es|
  {
    if es == [] then o else Run(if Possible(o, es[0]) then Step(o, es[0]) else o, es[1..])
  }

  lemma {:induction false} RunTracks(o: Outcome, es: seq<Event>)
    requires Tracks(o.x, o.h, o.since)
    ensures var p := Run(o, es); Tracks(p.x, p.h, p.since)
    decreases |es|
  {
    if es != [] {
      if Possible(o, es[0]) && es[0].Confirmed? { FrameTracks(o.x, o.h, o.since, es[0].frame); }
      RunTracks(if Possible(o, es[0]) then Step(o, es[0]) else o, es[1..]);
    }
  }

  /** Every tag confirmed up to the last raise and nacked was raised, and what was raised
      consists of separated ranges of nacked tags. */
  ghost predicate RaisedOk(o: Outcome) {
    && o.since <= |o.h|
    && (forall i :: 0 <= i < |o.raised| ==> Separated(o.raised[i], o.h))
    && (forall i, t :: 0 <= i < |o.raised| && Listed(o.raised[i], t) ==> Nacked(o.h, t))
    && (forall t :: t <= o.since && Nacked(o.h, t) ==> WasRaised(o, t))
  }

  ghost predicate WasRaised(o: Outcome, t: int) { exists i :: 0 <= i < |o.raised| && Listed(o.raised[i], t) }

  lemma SeparatedLonger(ranges: seq<Range>, h: History, g: History)
    requires Separated(ranges, h) && h <= g
    ensures Separated(ranges, g)
  {
  }

  lemma ConfirmKeepsRaised(o: Outcome, f: Frame)
    requires RaisedOk(o) && Possible(o, Event.Confirmed(f))
    ensures RaisedOk(Step(o, Event.Confirmed(f)))
  {
    var p := Step(o, Event.Confirmed(f));
    assert o.h <= p.h;
    forall i | 0 <= i < |p.raised| ensures Separated(p.raised[i], p.h) { SeparatedLonger(o.raised[i], o.h, p.h); }
    forall i, t | 0 <= i < |p.raised| && Listed(p.raised[i], t) ensures Nacked(p.h, t) { assert Nacked(o.h, t); }
    forall t | t <= p.since && Nacked(p.h, t) ensures WasRaised(p, t) {
      assert Nacked(o.h, t);
      assert WasRaised(o, t);
    }
  }

  lemma SendKeepsRaised(o: Outcome)
    requires RaisedOk(o) && Tracks(o.x, o.h, o.since)
    ensures RaisedOk(Step(o, Send))
    ensures forall t :: Listed(o.x.undelivered, t) ==> WasRaised(Step(o, Send), t)
  {
    var p := Step(o, Send);
    var last := o.x.undelivered;
    if last != [] {
      RunsAreSeparated(o.h, o.since, |o.h|);
      forall t ensures Listed(last, t) ==> Nacked(o.h, t)
        ensures t > o.since && Nacked(o.h, t) ==> Listed(last, t)
      {
        ListedBounds(o.h, o.since, t);
      }
      assert p.raised == o.raised + [last];
      forall i, t | 0 <= i < |p.raised| && Listed(p.raised[i], t) ensures Nacked(p.h, t) {
        assert i < |o.raised| ==> p.raised[i] == o.raised[i];
      }
      forall t | t <= p.since && Nacked(p.h, t) ensures WasRaised(p, t) {
        if t <= o.since {
          var i :| 0 <= i < |o.raised| && Listed(o.raised[i], t);
          assert p.raised[i] == o.raised[i];
        } else {
          assert Listed(p.raised[|o.raised|], t);
        }
      }
      forall t | Listed(last, t) ensures WasRaised(p, t) { assert Listed(p.raised[|o.raised|], t); }
    }
  }

  lemma {:induction false} RunKeepsRaised(o: Outcome, es: seq<Event>)
    requires RaisedOk(o) && Tracks(o.x, o.h, o.since)
    ensures RaisedOk(Run(o, es))
    decreases |es|
  {
    if es != [] {
      if Possible(o, es[0]) {
        if es[0].Confirmed? {
          FrameTracks(o.x, o.h, o.since, es[0].frame);
          ConfirmKeepsRaised(o, es[0].frame);
        } else {
          SendKeepsRaised(o);
        }
      }
      RunKeepsRaised(if Possible(o, es[0]) then Step(o, es[0]) else o, es[1..]);
    }
  }

  const START: Outcome := Outcome(FRESH, [], 0, [])

  /** For in-order confirm streams with sends in between: the list consists of ascending
      disjoint ranges with an acked tag between any two, it never lists an acked tag, it
      misses none nacked since the last SendError, and until the first SendError it is
      exactly the nacked tags. */
  lemma UndeliveredIsExact(es: seq<Event>)
    ensures var o := Run(START, es);
            && Separated(o.x.undelivered, o.h)
            && (forall t :: Listed(o.x.undelivered, t) ==> Nacked(o.h, t))
            && (forall t :: t > o.since && Nacked(o.h, t) ==> Listed(o.x.undelivered, t))
            && (o.raised == [] ==> forall t :: Listed(o.x.undelivered, t) <==> Nacked(o.h, t))
  {
    RunTracks(START, es);
    RaisedFirst(START, es);
    var o := Run(START, es);
    RunsAreSeparated(o.h, o.since, |o.h|);
    forall t ensures Listed(o.x.undelivered, t) ==> Nacked(o.h, t)
      ensures t > o.since && Nacked(o.h, t) ==> Listed(o.x.undelivered, t)
    {
      ListedBounds(o.h, o.since, t);
    }
  }

  /** Nothing is lost: for in-order streams with sends in between, a tag was nacked exactly when
      it is listed now or was in some SendError; and every SendError carries ascending
      disjoint ranges of nacked tags only. */
  lemma EveryNackIsReported(es: seq<Event>, t: int)
    ensures var o := Run(START, es);
            && (Nacked(o.h, t) <==> Listed(o.x.undelivered, t) || WasRaised(o, t))
            && (forall i :: 0 <= i < |o.raised| ==> Separated(o.raised[i], o.h))
  {
    RunTracks(START, es);
    RunKeepsRaised(START, es);
    var o := Run(START, es);
    ListedBounds(o.h, o.since, t);
  }

  /** A send raises exactly what is listed, and the list is empty afterwards. */
  lemma SendRaisesTheList(o: Outcome)
    ensures var p := Step(o, Send);
            && p.raised == (if o.x.undelivered == [] then o.raised else o.raised + [o.x.undelivered])
            && p.x.undelivered == []
            && p.since == (if o.x.undelivered == [] then o.since else |o.h|) && p.h == o.h
  {
  }

  lemma ListedBounds(h: History, since: nat, t: int)
    ensures Listed(Runs(h, since, |h|), t) ==> Nacked(h, t)
    ensures t > since && Nacked(h, t) ==> Listed(Runs(h, since, |h|), t)
  {
    ListedIff(h, since, |h|, t);
    if t > since && Nacked(h, t) { assert NackedThrough(h, t, t); }
    assert ReachesPast(h, t, since, |h|) ==> Nacked(h, t);
  }

  lemma {:induction false} RaisedFirst(o: Outcome, es: seq<Event>)
    requires o.raised == [] ==> o.since == 0
    ensures Run(o, es).raised == [] ==> Run(o, es).since == 0
    decreases |es|
  {
    if es != [] { RaisedFirst(if Possible(o, es[0]) then Step(o, es[0]) else o, es[1..]); }
  }

  // ----- confirms out of order -----

  function AckAll(x: Tracker, tags: seq<nat>): Tracker {
    if tags == [] then x else OnAck(AckAll(x, tags[..|tags| - 1]), Frame(tags[|tags| - 1], false, true))
  }

  predicate Ascending(tags: seq<nat>) { forall i, j :: 0 <= i < j < |tags| ==> tags[i] < tags[j] }

  predicate NoFurtherGap(tags: seq<nat>) { forall i :: 0 < i < |tags| ==> tags[i] == tags[i - 1] + 1 }

  lemma GapsSnoc(init: seq<nat>, t: nat)
    requires init != []
    ensures NoFurtherGap(init + [t]) <==> NoFurtherGap(init) && t == init[|init| - 1] + 1
  {
    var tags := init + [t];
    if NoFurtherGap(tags) {
      assert tags[|init|] == tags[|init| - 1] + 1;
      forall i | 0 < i < |init| ensures init[i] == init[i - 1] + 1 { assert tags[i] == tags[i - 1] + 1; }
    }
  }

  lemma {:induction false} LastGap(x: Tracker, tags: seq<nat>)
    requires tags != [] && Ascending(tags) && x.saved + 1 < tags[0]
    ensures AckAll(x, tags).saved == tags[|tags| - 1]
    ensures AckAll(x, tags).savedAck == tags[|tags| - 1] + 1
    ensures AckAll(x, tags).undelivered == x.undelivered
    ensures AckAll(x, tags).holeStart >= x.saved + 1
    ensures AckAll(x, tags).holeStart == x.saved + 1 <==> NoFurtherGap(tags)
  {
    var n := |tags|;
    var init, t := tags[..n - 1], tags[n - 1];
    assert AckAll(x, tags) == OnAck(AckAll(x, init), Frame(t, false, true));
    if n == 1 {
      assert AckAll(x, init) == x;
    } else {
      LastGap(x, init);
      GapsSnoc(init, t);
      assert tags == init + [t];
      assert init[|init| - 1] < t && tags[0] <= init[|init| - 1];
    }
  }

  /** Single acks that skip tags leave a hole; when its nack arrives late, the callback
      lists exactly the hole if and only if the acks left no second hole meanwhile. */
  lemma LateNackFillsItsHole(x: Tracker, tags: seq<nat>)
    requires tags != [] && Ascending(tags) && x.saved + 1 < tags[0] && x.undelivered == []
    ensures OnFrame(AckAll(x, tags), Frame(tags[0] - 1, true, false)).undelivered == [(x.saved + 1, tags[0] - 1)]
       <==> NoFurtherGap(tags)
  {
    LastGap(x, tags);
    assert tags[0] <= tags[|tags| - 1];
    var y := OnFrame(AckAll(x, tags), Frame(tags[0] - 1, true, false));
    assert y.undelivered == [(AckAll(x, tags).holeStart, tags[0] - 1)];
    assert y.undelivered[0].0 == AckAll(x, tags).holeStart;
  }
}

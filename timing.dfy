/** Per-question time tracking: the record kept for each question, the two
    updaters the exam screen applies to the tracking map when a question's timer
    starts or stops, and the accounting they keep. */
module Timing {
  import opened Wrappers

  /** One interval during which a question was the active one (an entry of `sessions`). */
  datatype Interval = Interval(startTime: int, endTime: int, duration: int)

  /** The tracking record of one question; `None` stands for `null` or an absent field. */
  datatype Tracking = Tracking(
    totalTime: int,
    sessions: seq<Interval>,
    currentStartTime: Option<int>,
    lastActivity: Option<int>,
    lastEndTime: Option<int>)

  /** `prev[questionId] || { totalTime: 0, sessions: [] }`. */
  function TrackingOf(tt: map<int, Tracking>, q: int): Tracking {
    if q in tt then tt[q] else Tracking(0, [], None, None, None)
  }

  /** JavaScript truthiness of the shared start-time reference: null and 0 are falsy. */
  predicate Running(anchor: Option<int>) {
    anchor.Some? && anchor.value != 0
  }

  function SumDurations(spans: seq<Interval>): int {
    if spans == [] then 0 else spans[0].duration + SumDurations(spans[1..])
  }

  lemma {:induction false} SumDurationsAppend(spans: seq<Interval>, x: Interval)
    ensures SumDurations(spans + [x]) == SumDurations(spans) + x.duration
  {
    if spans == [] {
      assert [] + [x] == [x];
    } else {
      assert (spans + [x])[1..] == spans[1..] + [x];
      SumDurationsAppend(spans[1..], x);
    }
  }

  /** A question's total time is the sum of its intervals, and each interval
      lasts from its start to its end. */
  ghost predicate Accounted(t: Tracking) {
    && SumDurations(t.sessions) == t.totalTime
    && forall i :: 0 <= i < |t.sessions| ==>
         t.sessions[i].duration == t.sessions[i].endTime - t.sessions[i].startTime
  }

  ghost predicate Balanced(tt: map<int, Tracking>) {
    forall q :: q in tt ==> Accounted(tt[q])
  }

  /** No question's timer is marked as running. */
  ghost predicate Idle(tt: map<int, Tracking>) {
    forall q :: q in tt ==> tt[q].currentStartTime.None?
  }

  /** At most one timer runs: a running anchor is positive and belongs to the
      current question, and no other question is marked as running. */
  ghost predicate AnchorCoherent(tt: map<int, Tracking>, anchor: Option<int>, current: int) {
    && (anchor.Some? ==> anchor.value > 0 && current in tt && tt[current].currentStartTime == anchor)
    && forall q :: q in tt && tt[q].currentStartTime.Some? ==> q == current && tt[q].currentStartTime == anchor
  }

  /** The updater of `startQuestionTimer(questionId)`: the question's timer is
      marked as started at `now`; its totals and intervals are kept. */
  function StartTracking(tt: map<int, Tracking>, q: int, now: int): (r: map<int, Tracking>)
    ensures r.Keys == tt.Keys + {q}
    ensures r[q].totalTime == TrackingOf(tt, q).totalTime && r[q].sessions == TrackingOf(tt, q).sessions
    ensures r[q].currentStartTime == Some(now) && r[q].lastActivity == Some(now)
    ensures r[q].lastEndTime == TrackingOf(tt, q).lastEndTime
    ensures forall k :: k in tt && k != q ==> r[k] == tt[k]
  {
    var current := TrackingOf(tt, q);
    tt[q := current.(currentStartTime := Some(now), lastActivity := Some(now))]
  }

  /** The updater of `stopQuestionTimer(questionId)` for an anchor `start`: one
      interval from `start` to `now` is appended to the question and its length
      is added to the question's total. */
  function StopTracking(tt: map<int, Tracking>, q: int, start: int, now: int): (r: map<int, Tracking>)
    ensures r.Keys == tt.Keys + {q}
    ensures r[q].sessions == TrackingOf(tt, q).sessions + [Interval(start, now, now - start)]
    ensures r[q].totalTime == TrackingOf(tt, q).totalTime + (now - start)
    ensures r[q].currentStartTime == None && r[q].lastEndTime == Some(now)
    ensures r[q].lastActivity == TrackingOf(tt, q).lastActivity
    ensures forall k :: k in tt && k != q ==> r[k] == tt[k]
  {
    var current := TrackingOf(tt, q);
    var timeSpent := now - start;
    tt[q := current.(totalTime := current.totalTime + timeSpent,
                     sessions := current.sessions + [Interval(start, now, timeSpent)],
                     lastEndTime := Some(now),
                     currentStartTime := None)]
  }

  /** The tracking map after `stopQuestionTimer(q)`: unchanged unless the anchor is running. */
  function StopTimer(tt: map<int, Tracking>, anchor: Option<int>, q: int, now: int): (r: map<int, Tracking>)
    ensures !Running(anchor) ==> r == tt
    ensures Running(anchor) ==> r == StopTracking(tt, q, anchor.value, now)
    ensures Running(anchor) ==> r.Keys == tt.Keys + {q}
    ensures Running(anchor) ==> r[q].totalTime == TrackingOf(tt, q).totalTime + (now - anchor.value)
    ensures Running(anchor) ==> r[q].currentStartTime == None
    ensures forall k :: k in tt && k != q ==> r[k] == tt[k]
  {
    if Running(anchor) then StopTracking(tt, q, anchor.value, now) else tt
  }

  /** Stopping keeps every question's total equal to the sum of its intervals. */
  lemma StopTrackingKeepsBalance(tt: map<int, Tracking>, q: int, start: int, now: int)
    requires Balanced(tt)
    ensures Balanced(StopTracking(tt, q, start, now))
  {
    var old_ := TrackingOf(tt, q);
    SumDurationsAppend(old_.sessions, Interval(start, now, now - start));
    var r := StopTracking(tt, q, start, now);
    assert Accounted(r[q]) by {
      var s := r[q].sessions;
      forall i | 0 <= i < |s|
        ensures s[i].duration == s[i].endTime - s[i].startTime
      {
        if i < |old_.sessions| { assert s[i] == old_.sessions[i]; }
      }
    }
  }

  lemma StopTimerKeepsBalance(tt: map<int, Tracking>, anchor: Option<int>, q: int, now: int)
    requires Balanced(tt)
    ensures Balanced(StopTimer(tt, anchor, q, now))
  {
    if Running(anchor) { StopTrackingKeepsBalance(tt, q, anchor.value, now); }
  }

  /** Starting changes no totals or intervals, so it keeps the balance. */
  lemma StartTrackingKeepsBalance(tt: map<int, Tracking>, q: int, now: int)
    requires Balanced(tt)
    ensures Balanced(StartTracking(tt, q, now))
  {
    assert Accounted(TrackingOf(tt, q));
  }

  /** Stopping the current question under a coherent anchor leaves no timer running. */
  lemma StopLeavesIdle(tt: map<int, Tracking>, anchor: Option<int>, current: int, now: int)
    requires AnchorCoherent(tt, anchor, current)
    ensures Idle(StopTimer(tt, anchor, current, now))
  {
  }

  /** Starting a timer when none runs gives a coherent anchor for the started question. */
  lemma StartFromIdle(tt: map<int, Tracking>, q: int, now: int)
    requires Idle(tt) && now > 0
    ensures AnchorCoherent(StartTracking(tt, q, now), Some(now), q)
  {
  }

  /** A switch (stop the current question, start `q` at the same instant) charges
      the whole time since the anchor to the question that was current, and the
      new anchor starts where that interval ended, so no time is lost or counted twice. */
  lemma SwitchChargesElapsed(tt: map<int, Tracking>, anchor: Option<int>, current: int, q: int, now: int)
    requires Balanced(tt) && AnchorCoherent(tt, anchor, current) && anchor.Some? && q != current
    ensures var r := StartTracking(StopTimer(tt, anchor, current, now), q, now);
      && Balanced(r)
      && r[current].totalTime == TrackingOf(tt, current).totalTime + (now - anchor.value)
      && r[current].sessions[|r[current].sessions| - 1] == Interval(anchor.value, now, now - anchor.value)
      && r[q].currentStartTime == Some(now)
  {
    StopTimerKeepsBalance(tt, anchor, current, now);
    StartTrackingKeepsBalance(StopTimer(tt, anchor, current, now), q, now);
  }

  /** Everything the timer keeps: the accounting and a single coherent anchor. */
  ghost predicate TimerOk(tt: map<int, Tracking>, anchor: Option<int>, current: int) {
    Balanced(tt) && AnchorCoherent(tt, anchor, current)
  }

  /** Stopping the current question keeps the timer invariant, and afterwards no anchor is left. */
  lemma StopStep(tt: map<int, Tracking>, anchor: Option<int>, current: int, now: int)
    requires TimerOk(tt, anchor, current)
    ensures anchor.Some? ==> Running(anchor)
    ensures TimerOk(StopTimer(tt, anchor, current, now), None, current)
  {
    StopTimerKeepsBalance(tt, anchor, current, now);
    StopLeavesIdle(tt, anchor, current, now);
  }

  /** Stopping the current question and starting `q` at the same instant keeps the timer invariant. */
  lemma SwitchStep(tt: map<int, Tracking>, anchor: Option<int>, current: int, q: int, now: int)
    requires TimerOk(tt, anchor, current) && now > 0
    ensures TimerOk(StartTracking(StopTimer(tt, anchor, current, now), q, now), Some(now), q)
  {
    var stopped := StopTimer(tt, anchor, current, now);
    StopTimerKeepsBalance(tt, anchor, current, now);
    StopLeavesIdle(tt, anchor, current, now);
    StartTrackingKeepsBalance(stopped, q, now);
    StartFromIdle(stopped, q, now);
  }
}

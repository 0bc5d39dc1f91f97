/** The static behaviour tables of the performance and the two lookups over them:
    interval membership (is the king talking, angry, grinning at time t) and the
    step-function lookup of the talking cadence. Times are seconds of performance time. */
module Periods {

  /** A closed interval [start, end] of performance time. */
  type Period = (real, real)

  /** A cadence change: from `time` on, the jaw moves at `speed`. */
  type SpeedStep = (real, real)

  const TalkingPeriods: seq<Period> := [
    (1.5, 3.0), (3.75, 6.5), (7.5, 14.5), (15.75, 27.5), (28.5, 33.0),
    (34.75, 36.75), (37.25, 42.0), (43.0, 44.0), (45.5, 58.5), (59.75, 63.5),
    (65.0, 74.5), (75.25, 76.5), (77.5, 78.25), (78.6, 82.5), (84.0, 85.5),
    (86.5, 87.5), (88.8, 91.4), (93.2, 93.7), (95.0, 98.1), (98.9, 100.1),
    (101.7, 114.0), (115.2, 118.6), (119.2, 126.25)
  ]

  /** 999 is the table's sentinel for "until the end of the performance". */
  const AngryPeriods: seq<Period> := [(42.75, 44.5), (67.0, 75.0), (80.0, 95.0), (119.0, 999.0)]

  const GrinPeriods: seq<Period> := [(29.0, 34.0), (39.0, 42.0), (108.0, 999.0)]

  const SpeedTransitions: seq<SpeedStep> := [
    (0.0, 1.6), (15.0, 2.5), (27.0, 1.6), (45.0, 2.5), (59.0, 1.6),
    (75.0, 2.5), (93.0, 1.6), (102.0, 2.5), (105.0, 1.6), (119.0, 3.75)
  ]

  /** The speed the scan starts from, used when no step has been reached. */
  const DefaultSpeed: real := 1.6

  predicate Covers(p: Period, t: real) {
    p.0 <= t <= p.1
  }

  /** Every interval has start <= end. */
  predicate WellFormed(periods: seq<Period>) {
    forall i :: 0 <= i < |periods| ==> periods[i].0 <= periods[i].1
  }

  /** t lies in the union of the closed intervals. */
  predicate InPeriod(t: real, periods: seq<Period>) {
    exists i :: 0 <= i < |periods| && Covers(periods[i], t)
  }

  /** The short-circuit left-to-right scan the component runs (`periods.some(...)`),
      shown to decide exactly the union membership InPeriod. */
  function AnyCovers(t: real, periods: seq<Period>): (b: bool)
    ensures b <==> InPeriod(t, periods)
  {
    if periods == [] then false
    else
      assert forall i :: 1 <= i < |periods| ==> periods[i] == periods[1..][i - 1];
      Covers(periods[0], t) || AnyCovers(t, periods[1..])
  }

  /** Overlapping or adjacent intervals are simply unioned: membership in a
      concatenated table is membership in either part. */
  lemma InPeriodUnion(t: real, a: seq<Period>, b: seq<Period>)
    ensures InPeriod(t, a + b) <==> InPeriod(t, a) || InPeriod(t, b)
  {
    if InPeriod(t, a + b) {
      var i :| 0 <= i < |a + b| && Covers((a + b)[i], t);
      if i >= |a| {
        assert Covers(b[i - |a|], t);
      }
    }
    if InPeriod(t, b) {
      var j :| 0 <= j < |b| && Covers(b[j], t);
      assert (a + b)[|a| + j] == b[j];
    }
    if InPeriod(t, a) {
      var j :| 0 <= j < |a| && Covers(a[j], t);
      assert (a + b)[j] == a[j];
    }
  }

  /** Both ends of every interval are inside (bounds are inclusive). */
  lemma EndpointsIncluded(periods: seq<Period>, i: int)
    requires WellFormed(periods) && 0 <= i < |periods|
    ensures InPeriod(periods[i].0, periods) && InPeriod(periods[i].1, periods)
  {
    assert Covers(periods[i], periods[i].0);
    assert Covers(periods[i], periods[i].1);
  }

  lemma TablesWellFormed()
    ensures WellFormed(TalkingPeriods) && WellFormed(AngryPeriods) && WellFormed(GrinPeriods)
  {
  }

  lemma TalkingSamples()
    ensures InPeriod(1.5, TalkingPeriods) && InPeriod(3.0, TalkingPeriods)
    ensures !InPeriod(3.5, TalkingPeriods)
  {
    assert Covers(TalkingPeriods[0], 1.5);
    assert Covers(TalkingPeriods[0], 3.0);
  }

  /** The last scripted line ends exactly at 126.25 s, the outro threshold. */
  lemma TalkingEndsAtOutro(t: real)
    ensures InPeriod(126.25, TalkingPeriods)
    ensures t > 126.25 ==> !InPeriod(t, TalkingPeriods)
  {
    assert Covers(TalkingPeriods[22], 126.25);
  }

  /** The final angry and grin intervals run to the 999 s sentinel and stop after it. */
  lemma SentinelIntervals(t: real)
    ensures 119.0 <= t <= 999.0 ==> InPeriod(t, AngryPeriods)
    ensures 108.0 <= t <= 999.0 ==> InPeriod(t, GrinPeriods)
    ensures t > 999.0 ==> !InPeriod(t, AngryPeriods) && !InPeriod(t, GrinPeriods)
  {
    if 119.0 <= t <= 999.0 {
      assert Covers(AngryPeriods[3], t);
    }
    if 108.0 <= t <= 999.0 {
      assert Covers(GrinPeriods[2], t);
    }
  }

  // ---------------------------------------------------------------- talking speed

  predicate StrictlySorted(table: seq<SpeedStep>) {
    forall i, j :: 0 <= i < j < |table| ==> table[i].0 < table[j].0
  }

  /** The speed of the LAST step whose time is at or before t, or `default` when
      no step qualifies. This is the reference meaning of the cadence lookup. */
  function LastAtOrBefore(table: seq<SpeedStep>, t: real, default: real): (r: real)
    ensures r == default || exists i :: 0 <= i < |table| && table[i].0 <= t && r == table[i].1
    decreases |table|
  {
    if table == [] then default
    else if table[|table| - 1].0 <= t then table[|table| - 1].1
    else
      var r := LastAtOrBefore(table[..|table| - 1], t, default);
      assert forall i :: 0 <= i < |table| - 1 ==> table[..|table| - 1][i] == table[i];
      r
  }

  /** The cadence of the performance at time t: always one of the three speeds
      of the table, and the fast 3.75 exactly from 119 s on. */
  function TalkingSpeed(t: real): (s: real)
    ensures s == 1.6 || s == 2.5 || s == 3.75
    ensures s == 3.75 <==> t >= 119.0
  {
    SpeedTableSorted();
    if t >= 119.0 then
      StepValue(SpeedTransitions, t, DefaultSpeed, 9);
      LastAtOrBefore(SpeedTransitions, t, DefaultSpeed)
    else
      LastAtOrBefore(SpeedTransitions, t, DefaultSpeed)
  }

  /** Steps after a point that all lie beyond t do not influence the lookup. */
  lemma {:induction false} DropLaterSteps(table: seq<SpeedStep>, t: real, default: real, i: int)
    requires 0 <= i <= |table|
    requires forall j :: i <= j < |table| ==> t < table[j].0
    ensures LastAtOrBefore(table, t, default) == LastAtOrBefore(table[..i], t, default)
    decreases |table|
  {
    if i == |table| {
      assert table[..i] == table;
    } else {
      var init := table[..|table| - 1];
      assert init[..i] == table[..i];
      DropLaterSteps(init, t, default, i);
    }
  }

  /** Between one step's time (inclusive) and the next step's time (exclusive)
      the lookup yields that step's speed: the jump points are exactly the
      declared transition times. */
  lemma StepValue(table: seq<SpeedStep>, t: real, default: real, k: int)
    requires StrictlySorted(table) && 0 <= k < |table|
    requires table[k].0 <= t && (k + 1 == |table| || t < table[k + 1].0)
    ensures LastAtOrBefore(table, t, default) == table[k].1
  {
    DropLaterSteps(table, t, default, k + 1);
    assert table[..k + 1][k] == table[k];
  }

  /** Before the first step the lookup falls back to the default. */
  lemma BeforeFirstStep(table: seq<SpeedStep>, t: real, default: real)
    requires StrictlySorted(table) && |table| > 0 && t < table[0].0
    ensures LastAtOrBefore(table, t, default) == default
  {
    DropLaterSteps(table, t, default, 0);
  }

  /** The scan the component runs: walk the table in order, remember the speed of
      each step already reached, and stop at the first step still in the future. */
  method ScanSpeed(table: seq<SpeedStep>, time: real) returns (speed: real)
    requires StrictlySorted(table)
    ensures speed == LastAtOrBefore(table, time, DefaultSpeed)
  {
    speed := DefaultSpeed;
    var i := 0;
    while i < |table|
      invariant 0 <= i <= |table|
      invariant speed == LastAtOrBefore(table[..i], time, DefaultSpeed)
    {
      if time >= table[i].0 {
        speed := table[i].1;
      } else {
        break;
      }
      assert table[..i + 1][..i] == table[..i];
      i := i + 1;
    }
    DropLaterSteps(table, time, DefaultSpeed, i);
  }

  lemma SpeedTableSorted()
    ensures StrictlySorted(SpeedTransitions)
  {
  }

  /** Before the script starts, and at 0 s, the cadence is the slow 1.6; from
      119 s on it holds the laughing 3.75 for good. */
  lemma TalkingSpeedEnds(t: real)
    ensures t <= 0.0 ==> TalkingSpeed(t) == 1.6
    ensures t >= 119.0 ==> TalkingSpeed(t) == 3.75
  {
    SpeedTableSorted();
    if t < 0.0 {
      BeforeFirstStep(SpeedTransitions, t, DefaultSpeed);
    } else if t == 0.0 {
      StepValue(SpeedTransitions, t, DefaultSpeed, 0);
    } else if t >= 119.0 {
      StepValue(SpeedTransitions, t, DefaultSpeed, 9);
    }
  }

  /** The cadence is NOT monotone: the fast speed 2.5 drops back to the slow 1.6
      at 27, 59, 93 and 105 s. */
  lemma TalkingSpeedDrops()
    ensures TalkingSpeed(20.0) == 2.5
    ensures TalkingSpeed(26.0) == 2.5 && TalkingSpeed(27.0) == 1.6
    ensures TalkingSpeed(58.0) == 2.5 && TalkingSpeed(59.0) == 1.6
    ensures TalkingSpeed(92.0) == 2.5 && TalkingSpeed(93.0) == 1.6
    ensures TalkingSpeed(104.0) == 2.5 && TalkingSpeed(105.0) == 1.6
  {
    SpeedTableSorted();
    var s := SpeedTransitions;
    StepValue(s, 20.0, DefaultSpeed, 1);
    StepValue(s, 26.0, DefaultSpeed, 1);
    StepValue(s, 27.0, DefaultSpeed, 2);
    StepValue(s, 58.0, DefaultSpeed, 3);
    StepValue(s, 59.0, DefaultSpeed, 4);
    StepValue(s, 92.0, DefaultSpeed, 5);
    StepValue(s, 93.0, DefaultSpeed, 6);
    StepValue(s, 104.0, DefaultSpeed, 7);
    StepValue(s, 105.0, DefaultSpeed, 8);
  }
}

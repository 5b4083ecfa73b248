/** Times around a capture: recovering the start instant from a label that only names it in
    local time, and keeping a differential's reference inside the server's WAL-summary
    window. Models labelTimeBounds, the search of labelTimeQuery, normalizedLabelTime,
    eligibleFullAt and the retention test of validateState. Times are nanoseconds. */
module CaptureClock {
  import opened Basics

  const SECOND: int := 1_000_000_000
  const MINUTE: int := 60 * SECOND
  const HOUR: int := 60 * MINUTE
  const DAY: int := 24 * HOUR

  // ---------------------------------------------------------------- the label's start time

  /** time.Truncate(time.Second), as whole seconds. */
  function Seconds(t: int): int {
    t / SECOND
  }

  /** labelTimeBounds: the first and last candidate second. */
  function Bounds(began: int, stopped: int): Option<(int, int)> {
    if stopped < began || stopped - began > 6 * HOUR then None else Some((Seconds(began), Seconds(stopped)))
  }

  /** Instants of first..last that the source renders like the label. A zone or
      configuration change in between makes the query render nothing. */
  function Matches(render: int -> string, text: string, settled: bool, first: int, last: int): seq<int>
    decreases last - first
  {
    if first > last then []
    else (if settled && render(first) == text then [first] else []) + Matches(render, text, settled, first + 1, last)
  }

  /** The query and normalizedLabelTime together: one match or nothing. */
  function StartedAt(render: int -> string, text: string, settled: bool, began: int, stopped: int): Option<int> {
    var bounds := Bounds(began, stopped);
    if bounds.None? || |text| < 21 || |text| > 128 then None
    else
      var found := Matches(render, text, settled, bounds.value.0, bounds.value.1);
      if |found| != 1 || found[0] < bounds.value.0 || found[0] > bounds.value.1 then None else Some(found[0])
  }

  /** The matches are exactly the instants that render like the label, in order. */
  lemma {:induction false} MatchesAre(render: int -> string, text: string, settled: bool, first: int, last: int, t: int)
    ensures t in Matches(render, text, settled, first, last) <==> first <= t <= last && settled && render(t) == text
    decreases last - first
  {
    if first <= last {
      MatchesAre(render, text, settled, first + 1, last, t);
    }
  }

  ghost predicate Ascends(s: seq<int>) {
    forall i, j :: 0 <= i < j < |s| ==> s[i] < s[j]
  }

  lemma {:induction false} MatchesAscend(render: int -> string, text: string, settled: bool, first: int, last: int)
    ensures Ascends(Matches(render, text, settled, first, last))
    decreases last - first
  {
    if first <= last {
      var rest := Matches(render, text, settled, first + 1, last);
      MatchesAscend(render, text, settled, first + 1, last);
      forall j | 0 <= j < |rest| ensures first < rest[j] {
        MatchesAre(render, text, settled, first + 1, last, rest[j]);
      }
      if settled && render(first) == text {
        assert Matches(render, text, settled, first, last) == [first] + rest;
      } else {
        assert Matches(render, text, settled, first, last) == rest;
      }
    }
  }

  lemma SecondsOrder(a: int, b: int)
    requires a <= b
    ensures Seconds(a) <= Seconds(b)
  {
  }

  /** The search visits at most 21,601 seconds. */
  lemma SearchIsBounded(began: int, stopped: int)
    requires Bounds(began, stopped).Some?
    ensures var b := Bounds(began, stopped).value; 1 <= b.1 - b.0 + 1 <= 21_601
  {
  }

  /** Some instant other than t renders the same within the window. */
  ghost predicate Ambiguous(render: int -> string, t: int, first: int, last: int) {
    exists u :: first <= u <= last && u != t && render(u) == render(t)
  }

  /** MAIN: for any rendering of instants, time-zone folds included: if the label renders the
      true start and the source clocks enclose it, then an answer is that start, and there is
      an answer exactly when no other second of the window reads the same. */
  lemma LabelGivesStart(render: int -> string, settled: bool, start: int, began: int, stopped: int)
    requires began <= start <= stopped && stopped - began <= 6 * HOUR && 21 <= |render(Seconds(start))| <= 128
    ensures var r := StartedAt(render, render(Seconds(start)), settled, began, stopped);
            && (r.Some? ==> r.value == Seconds(start))
            && (r.Some? <==> settled && !Ambiguous(render, Seconds(start), Seconds(began), Seconds(stopped)))
  {
    var t, first, last := Seconds(start), Seconds(began), Seconds(stopped);
    var found := Matches(render, render(t), settled, first, last);
    SecondsOrder(began, start);
    SecondsOrder(start, stopped);
    MatchesAre(render, render(t), settled, first, last, t);
    MatchesAscend(render, render(t), settled, first, last);
    if settled {
      var i :| 0 <= i < |found| && found[i] == t;
      if |found| == 1 {
        forall u | first <= u <= last && render(u) == render(t) ensures u == t {
          MatchesAre(render, render(t), settled, first, last, u);
        }
      } else {
        var u := if i == 0 then found[1] else found[0];
        MatchesAre(render, render(t), settled, first, last, u);
      }
    } else if found != [] {
      MatchesAre(render, render(t), settled, first, last, found[0]);
    }
  }

  // ---------------------------------------------------------------- the differential's reference

  /** The retention test of validateState: durations are rounded down to minutes. */
  predicate SummariesKept(keepMinutes: int, age: int, timeout: int) {
    keepMinutes > (age + timeout + DAY) / MINUTE && keepMinutes <= 3650 * DAY / MINUTE
  }

  /** The time tests of eligibleFullAt. */
  predicate Eligible(start: int, stop: int, now: int, age: int) {
    age > 0 && now - start <= age && start <= stop <= now
  }

  /** MAIN: a full accepted as reference at the clock taken before the capture is inside the
      server's WAL-summary window, with more than a day to spare, until the capture's
      timeout, whatever the rounding. */
  lemma ReferenceStaysSummarized(keepMinutes: int, age: int, timeout: int, start: int, stop: int, began: int, t: int)
    requires age >= 0 && timeout >= 0 && SummariesKept(keepMinutes, age, timeout)
    requires Eligible(start, stop, began, age) && t <= began + timeout
    ensures keepMinutes * MINUTE - (t - start) > DAY && start <= stop <= began && keepMinutes <= 3650 * 24 * 60
  {
    var whole := age + timeout + DAY;
    assert whole == MINUTE * (whole / MINUTE) + whole % MINUTE;
  }

  /** The test rejects as little as it can: a keep time one minute shorter does not
      guarantee the spare day. */
  lemma ShorterKeepIsNotEnough(age: int, timeout: int)
    requires age > 0 && timeout >= 0
    ensures var keep := (age + timeout + DAY) / MINUTE;
            !SummariesKept(keep, age, timeout) && Eligible(0, 0, age, age) && keep * MINUTE - (age + timeout - 0) <= DAY
  {
  }
}

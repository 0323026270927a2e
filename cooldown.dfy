/** The time-based commentary gate shared by `Debouncer` (agent/pipeline.py and
    agent/main.py) and `SportsCommentaryProcessor._should_comment`: the gate is open when
    at least `interval` seconds have passed since the last time it let something through.
    Clock readings are explicit `real` arguments. */
module Cooldown {

  /** `(now - last) >= interval`. */
  predicate Open(interval: real, last: real, now: real)
  {
    now - last >= interval
  }

  predicate Nondecreasing(times: seq<real>)
  {
    forall i, j :: 0 <= i < j < |times| ==> times[i] <= times[j]
  }

  /** The answers of a debouncer consulted at each of `times` in turn, starting from
      `last`, and its final `last` reading. The timer moves to `now` exactly on a `true`. */
  function Gate(interval: real, last: real, times: seq<real>): (r: (seq<bool>, real))
    ensures |r.0| == |times|
    decreases |times|
  {
    if times == [] then ([], last)
    else
      var (fires, last') := Gate(interval, last, times[..|times| - 1]);
      var now := times[|times| - 1];
      if Open(interval, last', now) then (fires + [true], now) else (fires + [false], last')
  }

  /** Every instant the gate opened at is at or before its final timer reading. */
  lemma {:induction false} GateRemembersLastFire(interval: real, last: real, times: seq<real>)
    requires Nondecreasing(times)
    ensures forall i :: 0 <= i < |times| && Gate(interval, last, times).0[i] ==>
              times[i] <= Gate(interval, last, times).1
    decreases |times|
  {
    if times != [] {
      var init := times[..|times| - 1];
      GateRemembersLastFire(interval, last, init);
    }
  }

  /** The gate lets at most one call through per interval, however often it is asked:
      two `true` answers are always at least `interval` seconds apart. */
  lemma {:induction false} GateSpacing(interval: real, last: real, times: seq<real>)
    requires Nondecreasing(times)
    ensures forall i, j ::
              (0 <= i < j < |times| && Gate(interval, last, times).0[i] && Gate(interval, last, times).0[j])
              ==> times[j] - times[i] >= interval
    decreases |times|
  {
    if times != [] {
      var init := times[..|times| - 1];
      GateSpacing(interval, last, init);
      GateRemembersLastFire(interval, last, init);
    }
  }

  /** Asked twice at the same instant, a gate with a positive interval answers `true` then
      `false`; asked again a full interval later it answers `true`. */
  lemma SameInstantThenFullInterval(interval: real, last: real, t: real)
    requires interval > 0.0 && Open(interval, last, t)
    ensures Gate(interval, last, [t, t]).0 == [true, false]
    ensures Gate(interval, last, [t, t, t + interval]).0 == [true, false, true]
  {
    assert [t][..0] == [];
    assert Gate(interval, last, []) == ([], last);
    assert Gate(interval, last, [t]).0 == [true] && Gate(interval, last, [t]).1 == t;
    assert [t, t][..1] == [t];
    assert Gate(interval, last, [t, t]).0 == [true, false] && Gate(interval, last, [t, t]).1 == t;
    assert [t, t, t + interval][..2] == [t, t];
  }
}

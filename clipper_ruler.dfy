/**
 * The timeline ruler (frontend/src/components/clipper/ClipperRuler.tsx; the
 * ruler inside frontend/src/components/clipper/ClipperControls.tsx is the same
 * loop): a marker at every multiple of half the marker distance inside the
 * window, the multiples of the whole distance drawn as major markers.
 */
module ClipperRuler {
  /** `Math.ceil(a / b)` for a positive `b`. */
  function CeilDiv(a: int, b: int): (q: int)
    requires b > 0
    ensures q * b >= a && (q - 1) * b < a
  {
    -((-a) / b)
  }

  /** `Math.floor(a / b)` for a positive `b`. */
  function FloorDiv(a: int, b: int): (q: int)
    requires b > 0
    ensures q * b <= a && (q + 1) * b > a
  {
    a / b
  }

  lemma MulMono(a: int, b: int, step: int)
    requires step > 0 && a <= b
    ensures a * step <= b * step
  {
    assert b * step - a * step == (b - a) * step;
  }

  /** Euclidean division is unique: a quotient and a remainder in range are the ones `/` and `%` give. */
  lemma ModUnique(a: int, m: int, q: int, r: int)
    requires m > 0 && a == q * m + r && 0 <= r < m
    ensures a % m == r && a / m == q
  {
    var q', r' := a / m, a % m;
    assert a == q' * m + r';
    if q < q' {
      MulMono(q + 1, q', m);
    } else if q > q' {
      MulMono(q' + 1, q, m);
    }
  }

  lemma MultipleMod(k: int, step: int)
    requires step > 0
    ensures (k * step) % step == 0
  {
    ModUnique(k * step, step, k, 0);
  }

  lemma NextMultiple(t: int, step: int)
    requires step > 0 && t % step == 0
    ensures (t + step) % step == 0
  {
    var k := t / step;
    assert t == k * step;
    assert t + step == (k + 1) * step;
    MultipleMod(k + 1, step);
  }

  /** A multiple of `step` at most `end` is at most the last multiple `FloorDiv` finds. */
  lemma MultipleBelow(m: int, end: int, step: int)
    requires step > 0 && m % step == 0 && m <= end
    ensures m <= FloorDiv(end, step) * step
  {
    var k := m / step;
    assert m == k * step;
    if k > FloorDiv(end, step) {
      MulMono(FloorDiv(end, step) + 1, k, step);
    }
    MulMono(k, FloorDiv(end, step), step);
  }

  /** A multiple of `step` at least `start` is at least the first multiple `CeilDiv` finds. */
  lemma MultipleAbove(m: int, start: int, step: int)
    requires step > 0 && m % step == 0 && m >= start
    ensures m >= CeilDiv(start, step) * step
  {
    var k := m / step;
    assert m == k * step;
    if k < CeilDiv(start, step) {
      MulMono(k, CeilDiv(start, step) - 1, step);
    }
    MulMono(CeilDiv(start, step), k, step);
  }

  /** No other multiple of `step` lies within one step after a multiple. */
  lemma NoMultipleBetween(t: int, m: int, step: int)
    requires step > 0 && t % step == 0 && m % step == 0 && t <= m < t + step
    ensures m == t
  {
    var k := t / step;
    assert t == k * step;
    ModUnique(m, step, k, m - t);
  }

  /** `Math.ceil(start / step) * step`: the first multiple of `step` not before `start`. */
  method FirstMarker(start: int, step: int) returns (first: int)
    requires step > 0
    ensures first % step == 0 && first >= start
    ensures forall m :: m >= start && m % step == 0 ==> m >= first
  {
    first := CeilDiv(start, step) * step;
    MultipleMod(CeilDiv(start, step), step);
    forall m | m >= start && m % step == 0
      ensures m >= first
    {
      MultipleAbove(m, start, step);
    }
  }

  /** `Math.floor(end / step) * step`: the last multiple of `step` not after `end`. */
  method LastMarker(end: int, step: int) returns (last: int)
    requires step > 0
    ensures last % step == 0 && last <= end
    ensures forall m :: m <= end && m % step == 0 ==> m <= last
  {
    last := FloorDiv(end, step) * step;
    MultipleMod(FloorDiv(end, step), step);
    forall m | m <= end && m % step == 0
      ensures m <= last
    {
      MultipleBelow(m, end, step);
    }
  }

  /**
   * `markerTimes` for the window [start, end]: exactly the multiples of the
   * step inside the window, in increasing order, each one step after the
   * previous.
   */
  method MarkerTimes(start: int, end: int, markerDistance: int) returns (markers: seq<int>)
    requires markerDistance > 0 && markerDistance % 2 == 0
    ensures forall i :: 0 <= i < |markers| ==> start <= markers[i] <= end && markers[i] % (markerDistance / 2) == 0
    ensures forall i :: 0 < i < |markers| ==> markers[i] == markers[i - 1] + markerDistance / 2
    ensures forall m :: start <= m <= end && m % (markerDistance / 2) == 0 ==> m in markers
  {
    var step := markerDistance / 2;
    var first := FirstMarker(start, step);
    var last := LastMarker(end, step);
    markers := [];
    var t := first;
    while t <= last
      invariant t % step == 0 && first <= t
      invariant forall i :: 0 <= i < |markers| ==> start <= markers[i] <= end && markers[i] % step == 0
      invariant forall i :: 0 < i < |markers| ==> markers[i] == markers[i - 1] + step
      invariant markers != [] ==> markers[|markers| - 1] == t - step
      invariant forall m :: start <= m < t && m % step == 0 ==> m in markers
      decreases last - t
    {
      markers := markers + [t];
      NextMultiple(t, step);
      forall m | start <= m < t + step && m % step == 0
        ensures m in markers
      {
        if m >= t {
          NoMultipleBetween(t, m, step);
        }
      }
      t := t + step;
    }
  }

  /** `t % markerDistance === 0` */
  predicate IsMajor(t: int, markerDistance: int)
    requires markerDistance > 0
  {
    t % markerDistance == 0
  }

  /** Along the ruler, major and minor markers alternate. */
  lemma MajorAlternates(t: int, markerDistance: int)
    requires markerDistance > 0 && markerDistance % 2 == 0 && t % (markerDistance / 2) == 0
    ensures IsMajor(t, markerDistance) <==> !IsMajor(t + markerDistance / 2, markerDistance)
  {
    var step := markerDistance / 2;
    var k := t / step;
    var j := k / 2;
    assert t == k * step;
    assert markerDistance == 2 * step;
    if k % 2 == 0 {
      assert t == j * markerDistance;
      ModUnique(t, markerDistance, j, 0);
      ModUnique(t + step, markerDistance, j, step);
    } else {
      assert k == 2 * j + 1;
      assert k * step == (2 * j) * step + step;
      assert (2 * j) * step == j * markerDistance;
      assert t == j * markerDistance + step;
      ModUnique(t, markerDistance, j, step);
      ModUnique(t + step, markerDistance, j + 1, 0);
    }
  }
}

/** Clock bucketing of scripts/verify_rust_materialize_golden.py. Instants are integer
    microseconds of UTC; local days are given by the UTC instants of their midnights, so
    a day may last 23, 24 or 25 hours, or any other time. */
module ClockBuckets {

  const MICROS: int := 1_000_000

  /** UTC instants of consecutive local midnights. */
  ghost predicate Calendar(midnights: seq<int>) {
    midnights != [] && forall i, j :: 0 <= i < j < |midnights| ==> midnights[i] < midnights[j]
  }

  ghost predicate Covered(midnights: seq<int>, t: int) {
    Calendar(midnights) && midnights[0] <= t
  }

  /** The local day that `t` falls on: the last midnight not after it. */
  function DayOf(midnights: seq<int>, t: int): (day: nat)
    requires Covered(midnights, t)
    ensures day < |midnights| && midnights[day] <= t
    ensures day + 1 < |midnights| ==> t < midnights[day + 1]
  {
    var n := |midnights| - 1;
    if midnights[n] <= t then n else DayOf(midnights[..n], t)
  }

  /** `_clock_bucket_start`, with the local midnight looked up in the calendar. */
  function BucketStart(midnights: seq<int>, minutes: int, t: int): int
    requires Covered(midnights, t) && minutes > 0
  {
    var midnight := midnights[DayOf(midnights, t)];
    var seconds := minutes * 60;
    var elapsed := (t - midnight) / MICROS;
    midnight + elapsed / seconds * seconds * MICROS
  }

  function Width(minutes: int): int { minutes * 60 * MICROS }

  lemma DayUnique(midnights: seq<int>, t: int, day: nat)
    requires Covered(midnights, t) && day < |midnights| && midnights[day] <= t
    requires day + 1 < |midnights| ==> t < midnights[day + 1]
    ensures DayOf(midnights, t) == day
  {
  }

  /** Rounding `x` down to a multiple of `w`. */
  function Floor(x: int, w: int): int
    requires w > 0
  {
    x / w * w
  }

  lemma Scale(a: int, b: int, w: int)
    requires w > 0 && a < b
    ensures a * w + w <= b * w
  {
    var d := b - a - 1;
    assert d * w >= 0;
    assert b * w == (a + 1 + d) * w == a * w + w + d * w;
  }

  lemma Quotient(x: int, w: int) returns (q: int)
    requires w > 0
    ensures q == x / w && Floor(x, w) == q * w && q * w <= x < q * w + w
  {
    q := x / w;
    assert x == q * w + x % w;
  }

  /** The multiple of `w` at or just below `x` is unique. */
  lemma FloorUnique(x: int, w: int, q: int)
    requires w > 0 && q * w <= x < q * w + w
    ensures x / w == q && Floor(x, w) == q * w
  {
    var p := Quotient(x, w);
    if p < q {
      Scale(p, q, w);
    } else if q < p {
      Scale(q, p, w);
    }
  }

  /** Flooring to whole seconds and then to the bucket is flooring to the bucket. */
  lemma FloorOfSeconds(x: int, seconds: int)
    requires seconds > 0
    ensures x / MICROS / seconds * seconds * MICROS == Floor(x, seconds * MICROS)
  {
    var p := Quotient(x, MICROS);
    var q := Quotient(p, seconds);
    assert q * seconds * MICROS == q * (seconds * MICROS);
    FloorUnique(x, seconds * MICROS, q);
  }

  /** A bucket starts a whole number of widths after the local midnight. */
  lemma BucketShape(midnights: seq<int>, minutes: int, t: int)
    requires Covered(midnights, t) && minutes > 0
    ensures var midnight := midnights[DayOf(midnights, t)];
            BucketStart(midnights, minutes, t) == midnight + Floor(t - midnight, Width(minutes))
  {
    FloorOfSeconds(t - midnights[DayOf(midnights, t)], minutes * 60);
  }

  /** Buckets contain their instants and start on the same local day. */
  lemma BucketContains(midnights: seq<int>, minutes: int, t: int)
    requires Covered(midnights, t) && minutes > 0
    ensures var start := BucketStart(midnights, minutes, t);
            && start <= t < start + Width(minutes)
            && Covered(midnights, start) && DayOf(midnights, start) == DayOf(midnights, t)
  {
    var day := DayOf(midnights, t);
    var start := BucketStart(midnights, minutes, t);
    BucketShape(midnights, minutes, t);
    var _ := Quotient(t - midnights[day], Width(minutes));
    FloorNonNegative(t - midnights[day], Width(minutes));
    assert midnights[0] <= midnights[day];
    DayUnique(midnights, start, day);
  }

  lemma FloorNonNegative(x: int, w: int)
    requires w > 0 && x >= 0
    ensures Floor(x, w) >= 0
  {
    FloorMonotone(0, x, w);
  }

  /** Rounding down twice, to a unit and then to a multiple of it, is rounding down once. */
  lemma FloorTwice(x: int, w: int, k: int)
    requires w > 0 && k > 0
    ensures k * w > 0 && Floor(Floor(x, w), k * w) == Floor(x, k * w)
  {
    assert k * w > 0;
    var q := Quotient(x, k * w);
    var f := Quotient(x, w);
    assert q * (k * w) == (q * k) * w;
    if f < q * k {
      Scale(f, q * k, w);
    }
    assert q * k <= f;
    assert (q * k) * w <= f * w by {
      if q * k < f {
        Scale(q * k, f, w);
      }
    }
    FloorUnique(f * w, k * w, q);
  }

  /** The coarse bucket of a fine bucket is the coarse bucket: roll-up is consistent. */
  lemma BucketOfBucket(midnights: seq<int>, fine: int, k: int, t: int)
    requires Covered(midnights, t) && fine > 0 && k > 0
    ensures Covered(midnights, BucketStart(midnights, fine, t))
    ensures k * fine > 0
    ensures BucketStart(midnights, k * fine, BucketStart(midnights, fine, t)) == BucketStart(midnights, k * fine, t)
  {
    assert k * fine > 0;
    BucketContains(midnights, fine, t);
    BucketShape(midnights, fine, t);
    CoarserBucket(midnights, fine, k, k * fine, t, BucketStart(midnights, fine, t));
  }

  lemma CoarserBucket(midnights: seq<int>, fine: int, k: int, coarse: int, t: int, start: int)
    requires Covered(midnights, t) && fine > 0 && k > 0 && coarse == k * fine > 0
    requires Covered(midnights, start) && DayOf(midnights, start) == DayOf(midnights, t)
    requires var midnight := midnights[DayOf(midnights, t)]; start == midnight + Floor(t - midnight, Width(fine))
    ensures BucketStart(midnights, coarse, start) == BucketStart(midnights, coarse, t)
  {
    var midnight := midnights[DayOf(midnights, t)];
    BucketShape(midnights, coarse, t);
    BucketShape(midnights, coarse, start);
    WidthOfMultiple(k, fine);
    FloorTwice(t - midnight, Width(fine), k);
  }

  lemma WidthOfMultiple(k: int, fine: int)
    ensures Width(k * fine) == k * Width(fine)
  {
  }

  lemma BucketIdempotent(midnights: seq<int>, minutes: int, t: int)
    requires Covered(midnights, t) && minutes > 0
    ensures Covered(midnights, BucketStart(midnights, minutes, t))
    ensures BucketStart(midnights, minutes, BucketStart(midnights, minutes, t)) == BucketStart(midnights, minutes, t)
  {
    BucketOfBucket(midnights, minutes, 1, t);
  }

  lemma FloorMonotone(x: int, y: int, w: int)
    requires w > 0 && x <= y
    ensures Floor(x, w) <= Floor(y, w)
  {
    var p := Quotient(x, w);
    var q := Quotient(y, w);
    if q < p {
      Scale(q, p, w);
    } else if p < q {
      Scale(p, q, w);
    }
  }

  /** Later instants never fall in earlier buckets, across midnights of any day length. */
  lemma BucketMonotone(midnights: seq<int>, minutes: int, t: int, u: int)
    requires Covered(midnights, t) && minutes > 0 && t <= u
    ensures Covered(midnights, u) && BucketStart(midnights, minutes, t) <= BucketStart(midnights, minutes, u)
  {
    var d, e := DayOf(midnights, t), DayOf(midnights, u);
    BucketShape(midnights, minutes, t);
    BucketShape(midnights, minutes, u);
    BucketContains(midnights, minutes, t);
    if d == e {
      FloorMonotone(t - midnights[d], u - midnights[d], Width(minutes));
    } else {
      assert d < e;
      assert midnights[d + 1] <= midnights[e];
      FloorNonNegative(u - midnights[e], Width(minutes));
    }
  }
}

/** One frame of the analyser's frequency data, its aggregate energy, and
    the wrap-around that assigns a bin to every particle. */
module Spectrum {
  import opened Numbers

  /** `analyser.fftSize` */
  const FftSize: nat := 256

  /** `analyser.frequencyBinCount`: half the FFT size, the length of the
      byte array filled every frame. */
  const BinCount: nat := FftSize / 2

  /** `bins.reduce((a, b) => a + b)`, accumulated left to right. */
  function Sum(bins: seq<Byte>): int
  {
    if |bins| == 0 then 0 else Sum(bins[..|bins| - 1]) + bins[|bins| - 1] as int
  }

  lemma {:induction false} SumBounds(bins: seq<Byte>)
    ensures 0 <= Sum(bins) <= 255 * |bins|
  {
    if |bins| > 0 {
      SumBounds(bins[..|bins| - 1]);
    }
  }

  lemma {:induction false} SumOfConstant(bins: seq<Byte>, c: Byte)
    requires forall k :: 0 <= k < |bins| ==> bins[k] == c
    ensures Sum(bins) == c as int * |bins|
  {
    if |bins| > 0 {
      SumOfConstant(bins[..|bins| - 1], c);
    }
  }

  /** The aggregate energy `audioValue`: the arithmetic mean of the bins.
      The reduce without a seed value fails on an empty array, so the
      array must hold at least one bin; the analyser always delivers
      BinCount of them. */
  function Mean(bins: seq<Byte>): (m: real)
    requires |bins| > 0
    ensures m * (|bins| as real) == Sum(bins) as real
    ensures 0.0 <= m <= 255.0
  {
    SumBounds(bins);
    var n := |bins| as real;
    var s := Sum(bins) as real;
    assert s <= 255.0 * n;
    var m := s / n;
    assert m * n == s;
    m
  }

  /** A frame in which every bin carries the same energy has that energy as its mean. */
  lemma MeanOfConstant(bins: seq<Byte>, c: Byte)
    requires |bins| > 0
    requires forall k :: 0 <= k < |bins| ==> bins[k] == c
    ensures Mean(bins) == c as real
  {
    SumOfConstant(bins, c);
    var n := |bins| as real;
    assert Mean(bins) * n == (c as real) * n;
  }

  /** The analyser's frame is never empty, so the mean is always defined. */
  lemma AnalyserFrameHasBins()
    ensures BinCount == 128 && BinCount > 0
  {
  }

  /** `index % dataArray.length`: the bin that drives particle `i`. */
  function DriveIndex(i: nat, len: nat): (k: nat)
    requires len > 0
    ensures k < len
    ensures i < len ==> k == i
  {
    i % len
  }

  lemma MultipleAtLeastDivisor(d: int, len: nat)
    requires d >= 1 && len > 0
    ensures d * len >= len
  {
  }

  /** Euclidean division by `len` has exactly one remainder in [0, len). */
  lemma RemainderUnique(i: nat, len: nat, q: int, r: int)
    requires len > 0 && 0 <= r < len && i == q * len + r
    ensures i % len == r
  {
    var q', r' := i / len, i % len;
    var d := q - q';
    assert i == q' * len + r';
    assert d * len == r' - r by {
      assert q * len - q' * len == (q - q') * len;
    }
    if d >= 1 {
      MultipleAtLeastDivisor(d, len);
    } else if d <= -1 {
      MultipleAtLeastDivisor(-d, len);
    }
  }

  /** The assignment of bins to particles repeats with period `len`. */
  lemma DriveIndexPeriodic(i: nat, len: nat)
    requires len > 0
    ensures DriveIndex(i + len, len) == DriveIndex(i, len)
  {
    RemainderUnique(i + len, len, i / len + 1, i % len);
  }

  lemma MultiplyMonotone(a: int, b: int, c: nat)
    requires a <= b
    ensures a * c <= b * c
  {
    assert b * c - a * c == (b - a) * c;
  }

  /** The block of `len` particles starting at `q * len` lies below `count`
      whenever q < count / len. */
  lemma BlockFits(count: nat, len: nat, q: nat)
    requires len > 0 && q < count / len
    ensures q * len + len <= count
  {
    var m := count / len;
    assert count == m * len + count % len;
    MultiplyMonotone(q + 1, m, len);
    assert (q + 1) * len == q * len + len;
  }

  /** Among `count` particles, every bin `k` drives at least `count / len`
      of them: particles `q * len + k` for each `q < count / len`. */
  lemma DriveIndexCoverage(count: nat, len: nat, k: nat)
    requires len > 0 && k < len
    ensures forall q: nat :: q < count / len ==> q * len + k < count && DriveIndex(q * len + k, len) == k
  {
    forall q: nat | q < count / len
      ensures q * len + k < count && DriveIndex(q * len + k, len) == k
    {
      BlockFits(count, len, q);
      RemainderUnique(q * len + k, len, q, k);
    }
  }

  /** `dataArray[index % dataArray.length]`: the energy that drives particle `i`. */
  function Drive(bins: seq<Byte>, i: nat): (v: Byte)
    requires |bins| > 0
    ensures v in bins
  {
    bins[DriveIndex(i, |bins|)]
  }

  /** With a single bin, every particle receives the same drive value. */
  lemma SingleBinDrivesAll(bins: seq<Byte>, i: nat)
    requires |bins| == 1
    ensures Drive(bins, i) == bins[0]
  {
  }
}

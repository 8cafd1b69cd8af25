/** The numeric part of the spectrum graph in `drawGraph`
    (src/App.jsx:518-537): which analyser bin each of the 40 bars reads, and
    the height in [0, 1] it gets from that bin and the tape speed. The
    drawing itself is not part of this model. */
module Graph {
  import opened Helpers
  import opened TapeConfig

  /** One value of `getByteFrequencyData`. */
  newtype Byte = x: int | 0 <= x < 256

  /** Number of bars drawn. */
  const BARS := 40

  /** Analyser bins per frame: `fftSize` 1024 gives 512 frequency bins. */
  const BIN_COUNT := 512

  /** First bin of the displayed band (4% into the spectrum). */
  function BandStart(binCount: nat): (start: nat)
    ensures start <= binCount
    ensures binCount >= 1 ==> start < binCount
  {
    (binCount as real * 0.04).Floor
  }

  /** End of the displayed band (35% into the spectrum). */
  function BandEnd(binCount: nat): (end: nat)
    ensures BandStart(binCount) <= end
    ensures binCount >= 1 ==> end < binCount
  {
    (binCount as real * 0.35).Floor
  }

  /** Width of the band in bins; at least one. */
  function BandSpan(binCount: nat): (span: nat)
    ensures span >= 1
    ensures BandEnd(binCount) - BandStart(binCount) >= 1 ==> BandStart(binCount) + span == BandEnd(binCount)
    ensures BandEnd(binCount) - BandStart(binCount) < 1 ==> span == 1
  {
    if BandEnd(binCount) - BandStart(binCount) >= 1 then BandEnd(binCount) - BandStart(binCount) else 1
  }

  /** How many bins past the band start bar i of `bars` reads, in a band of
      `span` bins: i/bars of the way across, rounded down. */
  function BarOffset(i: int, bars: int, span: int): (k: int)
    requires 0 <= i < bars && span >= 1
    ensures 0 <= k < span
    ensures i == 0 ==> k == 0
  {
    var x := i as real / bars as real;
    FractionScaled(x, i as real, bars as real, span as real);
    (x * span as real).Floor
  }

  /** i/bars lies in [0, 1) for 0 <= i < bars, so scaling a span by it stays
      in [0, span). */
  lemma FractionScaled(x: real, i: real, b: real, s: real)
    requires 0.0 <= i < b && s > 0.0 && x == i / b
    ensures 0.0 <= x * s < s
    ensures i == 0.0 ==> x * s == 0.0
  {
    assert x * b == i;
    assert x >= 0.0 by {
      if x < 0.0 {
        MulLe(x, 0.0, b);
      }
    }
    assert x < 1.0 by {
      if x >= 1.0 {
        MulLe(1.0, x, b);
      }
    }
    MulNonneg(x, s);
    MulPos(1.0 - x, s);
    assert (1.0 - x) * s == s - x * s;
  }

  /** The bin read by bar i of `bars`: the bars spread the band evenly from
      its first bin; every index lies inside the band and inside the data. */
  function BarIndex(i: int, bars: int, binCount: nat): (idx: nat)
    requires 0 <= i < bars
    ensures BandStart(binCount) <= idx < BandStart(binCount) + BandSpan(binCount)
    ensures binCount >= 1 ==> idx < binCount
    ensures i == 0 ==> idx == BandStart(binCount)
  {
    BandStart(binCount) + BarOffset(i, bars, BandSpan(binCount))
  }

  /** Bars further right read bins no further left; when the band has at
      least as many bins as there are bars, different bars read different
      bins. */
  lemma BarIndexMonotone(i: int, j: int, bars: int, binCount: nat)
    requires 0 <= i < j < bars
    ensures BarIndex(i, bars, binCount) <= BarIndex(j, bars, binCount)
    ensures BandSpan(binCount) >= bars ==> BarIndex(i, bars, binCount) < BarIndex(j, bars, binCount)
  {
    BarOffsetsApart(i, j, bars, BandSpan(binCount));
  }

  /** Bars i < j land (j - i) * span/bars bins apart before rounding down,
      at least one bin when span >= bars. */
  lemma BarOffsetsApart(i: int, j: int, bars: int, span: int)
    requires 0 <= i < j < bars && span >= 1
    ensures BarOffset(i, bars, span) <= BarOffset(j, bars, span)
    ensures span >= bars ==> BarOffset(i, bars, span) < BarOffset(j, bars, span)
  {
    var s, b := span as real, bars as real;
    var x, y := i as real / b, j as real / b;
    ScaledApart(x, y, i as real, j as real, b, s);
    FloorMonotone(x * s, y * s);
    assert BarOffset(i, bars, span) == (x * s).Floor;
    assert BarOffset(j, bars, span) == (y * s).Floor;
  }

  /** Rounding down keeps the order, and a gap of at least one survives it. */
  lemma FloorMonotone(p: real, q: real)
    requires p <= q
    ensures p.Floor <= q.Floor
    ensures p + 1.0 <= q ==> p.Floor < q.Floor
  {
  }

  /** Two fractions i/b < j/b of the same span s are (j - i)/b * s apart. */
  lemma ScaledApart(x: real, y: real, i: real, j: real, b: real, s: real)
    requires 0.0 <= i && i + 1.0 <= j && b > 0.0 && s >= 1.0 && x == i / b && y == j / b
    ensures x * s <= y * s
    ensures s >= b ==> x * s + 1.0 <= y * s
  {
    var d := y - x;
    assert x * b == i && y * b == j;
    assert d * b == j - i;
    assert d > 0.0 by {
      if d <= 0.0 {
        MulLe(d, 0.0, b);
      }
    }
    assert y * s - x * s == d * s;
    MulNonneg(d, s);
    if s >= b {
      MulLe(b, s, d);
      assert b * d == d * b && s * d == d * s;
    }
  }

  /** With the analyser's 512 bins the band is bins 20 to 178, 159 bins
      wide, so the 40 bars read 40 different bins, from bin 20 to bin 175. */
  lemma AnalyserBars()
    ensures BandStart(BIN_COUNT) == 20 && BandSpan(BIN_COUNT) == 159
    ensures BarIndex(0, BARS, BIN_COUNT) == 20 && BarIndex(BARS - 1, BARS, BIN_COUNT) == 175
    ensures forall i, j :: 0 <= i < j < BARS ==> BarIndex(i, BARS, BIN_COUNT) < BarIndex(j, BARS, BIN_COUNT)
  {
    assert (BIN_COUNT as real * 0.04).Floor == 20;
    assert (BIN_COUNT as real * 0.35).Floor == 179;
    assert ((39.0 / 40.0) * 159.0).Floor == 155;
    forall i, j | 0 <= i < j < BARS
      ensures BarIndex(i, BARS, BIN_COUNT) < BarIndex(j, BARS, BIN_COUNT)
    {
      BarIndexMonotone(i, j, BARS, BIN_COUNT);
    }
  }

  /** How strongly the graph reacts: the speed as a fraction of full speed. */
  function Intensity(v: real): (r: real)
    ensures 0.0 <= r <= 1.0
    ensures Abs(v) >= MAX_V ==> r == 1.0
    ensures v == 0.0 ==> r == 0.0
  {
    Min(1.0, Abs(v) / MAX_V)
  }

  /** The height of a bar whose bin reads `b` at tape speed v: the bin
      scaled by a gain from 0.45 at rest to 1.35 at full speed, clamped
      to [0, 1]. */
  function BarLevel(b: Byte, v: real): (r: real)
    ensures 0.0 <= r <= 1.0
    ensures b == 0 ==> r == 0.0
    ensures b == 255 && Abs(v) >= MAX_V ==> r == 1.0
  {
    Clamp((b as real / 255.0) * (0.45 + 0.9 * Intensity(v)), 0.0, 1.0)
  }

  /** A louder bin never gives a lower bar. */
  lemma BarLevelMonotone(b1: Byte, b2: Byte, v: real)
    requires b1 <= b2
    ensures BarLevel(b1, v) <= BarLevel(b2, v)
  {
    var gain := 0.45 + 0.9 * Intensity(v);
    MulLe(b1 as real / 255.0, b2 as real / 255.0, gain);
  }

  /** The bar heights of one frame: all zero without analyser data,
      otherwise bar i is the level of the bin it reads. */
  method BarValues(data: Option<seq<Byte>>, v: real) returns (values: seq<real>)
    requires data.Some? ==> |data.value| >= 1
    ensures |values| == BARS
    ensures forall i :: 0 <= i < BARS ==> 0.0 <= values[i] <= 1.0
    ensures data.None? ==> forall i :: 0 <= i < BARS ==> values[i] == 0.0
    ensures data.Some? ==>
              forall i :: 0 <= i < BARS ==> values[i] == BarLevel(data.value[BarIndex(i, BARS, |data.value|)], v)
  {
    values := seq(BARS, _ => 0.0);
    if data.Some? {
      var d := data.value;
      var start := (|d| as real * 0.04).Floor;
      var end := (|d| as real * 0.35).Floor;
      var span := if end - start >= 1 then end - start else 1;
      assert start == BandStart(|d|) && span == BandSpan(|d|);
      for i := 0 to BARS
        invariant |values| == BARS
        invariant forall k :: 0 <= k < i ==> values[k] == BarLevel(d[BarIndex(k, BARS, |d|)], v)
        invariant forall k :: i <= k < BARS ==> values[k] == 0.0
      {
        var idx := start + ((i as real / BARS as real) * span as real).Floor;
        assert idx == BarIndex(i, BARS, |d|);
        values := values[i := BarLevel(d[idx], v)];
      }
    }
  }
}

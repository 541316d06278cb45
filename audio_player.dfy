/**
 * The waveform player of the mastering screen: the amplitude envelope it
 * derives from decoded samples, its transport state (play/pause, current
 * time, duration), click and drag seeking, the progress ratio with the
 * "active bar" rule, and the MM:SS time label.
 *
 * `Math.sqrt` is a foreign call and enters as the parameter `sqrt`; the
 * decoded channel data, the media element's readings and the cursor
 * coordinates enter as arguments.
 */
module AudioPlayer {
  import opened Wrappers
  import Numbers

  /** Number of bars in every envelope. */
  const BarCount: nat := 200
  /** Lowest and highest bar height, in percent of the waveform area. */
  const MinHeight: real := 30.0
  const MaxHeight: real := 100.0
  /** Factor from a block's RMS value to a bar height. */
  const RmsScale: real := 500.0
  /** The fallback bars are `random * FallbackSpan + MinHeight`. */
  const FallbackSpan: real := 100.0
  const LoadErrorMessage: string := "Failed to load audio file"

  function MinReal(a: real, b: real): real { if a <= b then a else b }
  function MaxReal(a: real, b: real): real { if a >= b then a else b }
  function MinNat(a: nat, b: nat): nat { if a <= b then a else b }

  // ---------------------------------------------------------------------
  // Envelope
  // ---------------------------------------------------------------------

  /** `Math.max(1, Math.floor(samples / 200))`. */
  function BlockSize(samples: nat): (b: nat)
    ensures b >= 1
    ensures samples < BarCount ==> b == 1
    ensures samples >= BarCount ==> b * BarCount <= samples < (b + 1) * BarCount
  {
    if samples / BarCount >= 1 then samples / BarCount else 1
  }

  /** First sample index block `i` reads (clipped to the sample count). */
  function BlockLo(samples: nat, i: nat): nat {
    MinNat(i * BlockSize(samples), samples)
  }

  /** One past the last sample index block `i` reads. */
  function BlockHi(samples: nat, i: nat): nat {
    MinNat((i + 1) * BlockSize(samples), samples)
  }

  /** Sum of the squares of `s[lo..hi]`. */
  function SumOfSquares(s: seq<real>, lo: nat, hi: nat): real
    requires lo <= hi <= |s|
    decreases hi - lo
  {
    if lo == hi then 0.0 else SumOfSquares(s, lo, hi - 1) + s[hi - 1] * s[hi - 1]
  }

  /** Mean square of block `i`: its sum of squares over the full block size. */
  function MeanSquare(s: seq<real>, i: nat): (ms: real)
    ensures ms >= 0.0
  {
    var lo := BlockLo(|s|, i);
    var hi := BlockHi(|s|, i);
    assert lo <= hi;
    SumOfSquaresNonNegative(s, lo, hi);
    DivideMonotone(0.0, SumOfSquares(s, lo, hi), BlockSize(|s|) as real);
    SumOfSquares(s, lo, hi) / (BlockSize(|s|) as real)
  }

  /**
   * The argument of the square root: `sum / blockSize || 1`, so a mean
   * square of exactly zero (a falsy number) is replaced by 1.
   */
  function RmsArgument(meanSquare: real): (r: real)
    ensures meanSquare >= 0.0 ==> r > 0.0
    ensures r != meanSquare <==> meanSquare == 0.0
  {
    if meanSquare == 0.0 then 1.0 else meanSquare
  }

  /** `Math.max(30, Math.min(100, rms * 500))`. */
  function Height(rms: real): (h: real)
    ensures MinHeight <= h <= MaxHeight
    ensures rms * RmsScale >= MaxHeight ==> h == MaxHeight
    ensures rms * RmsScale <= MinHeight ==> h == MinHeight
    ensures MinHeight <= rms * RmsScale <= MaxHeight ==> h == rms * RmsScale
  {
    MaxReal(MinHeight, MinReal(MaxHeight, rms * RmsScale))
  }

  /** Height of bar `i` for the samples `s`. */
  function BarHeight(s: seq<real>, i: nat, sqrt: real -> real): real {
    Height(sqrt(RmsArgument(MeanSquare(s, i))))
  }

  /** The envelope the extractor produces for the samples `s`: 200 bars in [30, 100], whatever the sample count. */
  function Waveform(s: seq<real>, sqrt: real -> real): (w: seq<real>)
    ensures |w| == BarCount
    ensures forall k :: 0 <= k < |w| ==> MinHeight <= w[k] <= MaxHeight
  {
    seq(BarCount, i requires 0 <= i < BarCount => BarHeight(s, i, sqrt))
  }

  /**
   * The block loop of the extractor: 200 blocks of `BlockSize` samples,
   * each summed as far as the samples reach, turned into a clamped height.
   */
  method ComputeWaveform(audioData: array<real>, sqrt: real -> real) returns (waveform: seq<real>)
    ensures waveform == Waveform(audioData[..], sqrt)
    ensures |waveform| == BarCount
    ensures forall k :: 0 <= k < |waveform| ==> MinHeight <= waveform[k] <= MaxHeight
  {
    var samples := audioData.Length;
    var blockSize := BlockSize(samples);
    waveform := [];
    for i := 0 to BarCount
      invariant |waveform| == i
      invariant forall k :: 0 <= k < i ==> waveform[k] == BarHeight(audioData[..], k, sqrt)
    {
      var start := i * blockSize;
      var end := start + blockSize;
      var sum := 0.0;
      var j := start;
      while j < end && j < samples
        invariant start <= j <= end
        invariant start < samples ==> j <= samples && sum == SumOfSquares(audioData[..], start, j)
        invariant start >= samples ==> j == start && sum == 0.0
      {
        sum := sum + audioData[j] * audioData[j];
        j := j + 1;
      }
      assert start < samples ==> j == BlockHi(samples, i) && start == BlockLo(samples, i);
      var meanSquare := sum / blockSize as real;
      var rms := sqrt(if meanSquare == 0.0 then 1.0 else meanSquare);
      var height := MaxReal(MinHeight, MinReal(MaxHeight, rms * RmsScale));
      waveform := waveform + [height];
    }
  }

  /** `Math.random() * 100 + 30` for each of the 200 random draws. */
  function FallbackWaveform(randoms: seq<real>): (w: seq<real>)
    requires |randoms| == BarCount
    requires forall k :: 0 <= k < |randoms| ==> 0.0 <= randoms[k] < 1.0
    ensures |w| == BarCount
    ensures forall k :: 0 <= k < |w| ==> MinHeight <= w[k] < MinHeight + FallbackSpan
  {
    seq(BarCount, i requires 0 <= i < BarCount => randoms[i] * FallbackSpan + MinHeight)
  }

  // ---------------------------------------------------------------------
  // Properties of the envelope
  // ---------------------------------------------------------------------

  /** Block `i` reads `[i*b, min((i+1)*b, n))`; the blocks follow one another without overlap. */
  lemma BlocksAreAdjacent(n: nat, i: nat)
    ensures BlockLo(n, i) <= BlockHi(n, i) == BlockLo(n, i + 1)
    ensures i * BlockSize(n) < n ==> BlockLo(n, i) == i * BlockSize(n)
    ensures (i + 1) * BlockSize(n) <= n ==> BlockHi(n, i) == (i + 1) * BlockSize(n)
  {
  }

  /** Blocks are ascending: every index of an earlier block precedes every index of a later one. */
  lemma BlocksAreOrdered(n: nat, i: nat, k: nat)
    requires i < k
    ensures BlockHi(n, i) <= BlockLo(n, k)
  {
    MulMonotone(i + 1, k, BlockSize(n));
  }

  lemma {:induction false} SumOfSquaresFrame(s: seq<real>, t: seq<real>, lo: nat, hi: nat)
    requires lo <= hi <= |s| && hi <= |t|
    requires forall j :: lo <= j < hi ==> s[j] == t[j]
    ensures SumOfSquares(s, lo, hi) == SumOfSquares(t, lo, hi)
    decreases hi - lo
  {
    if lo < hi {
      SumOfSquaresFrame(s, t, lo, hi - 1);
    }
  }

  lemma {:induction false} SumOfSquaresNonNegative(s: seq<real>, lo: nat, hi: nat)
    requires lo <= hi <= |s|
    ensures SumOfSquares(s, lo, hi) >= 0.0
    decreases hi - lo
  {
    if lo < hi {
      SumOfSquaresNonNegative(s, lo, hi - 1);
    }
  }

  /** A bar depends only on the samples its own block reads. */
  lemma BarReadsOnlyItsBlock(s: seq<real>, t: seq<real>, i: nat, sqrt: real -> real)
    requires |s| == |t|
    requires forall j :: BlockLo(|s|, i) <= j < BlockHi(|s|, i) ==> s[j] == t[j]
    ensures BarHeight(s, i, sqrt) == BarHeight(t, i, sqrt)
  {
    SumOfSquaresFrame(s, t, BlockLo(|s|, i), BlockHi(|s|, i));
  }

  lemma BlockWithinReadPrefix(n: nat, i: nat)
    requires i < BarCount
    ensures BlockHi(n, i) <= BarCount * BlockSize(n)
  {
    MulMonotone(i + 1, BarCount, BlockSize(n));
  }

  lemma MulMonotone(x: nat, y: nat, b: nat)
    requires x <= y
    ensures x * b <= y * b
  {
    assert y * b == x * b + (y - x) * b;
  }

  /** Samples at index 200 * blockSize and beyond are never read. */
  lemma TailIsNeverRead(s: seq<real>, t: seq<real>, sqrt: real -> real)
    requires |s| == |t|
    requires forall j :: 0 <= j < |s| && j < BarCount * BlockSize(|s|) ==> s[j] == t[j]
    ensures Waveform(s, sqrt) == Waveform(t, sqrt)
  {
    forall i | 0 <= i < BarCount
      ensures Waveform(s, sqrt)[i] == Waveform(t, sqrt)[i]
    {
      BlockWithinReadPrefix(|s|, i);
      BarReadsOnlyItsBlock(s, t, i, sqrt);
    }
  }

  /**
   * A silent block (every sample it reads is zero, or it lies wholly past
   * the end of the samples) is drawn at full height, because the zero
   * mean square is replaced by 1 before the square root.
   */
  lemma SilentBlockIsFullHeight(s: seq<real>, i: nat, sqrt: real -> real)
    requires sqrt(1.0) == 1.0
    requires forall j :: BlockLo(|s|, i) <= j < BlockHi(|s|, i) ==> s[j] == 0.0
    ensures BarHeight(s, i, sqrt) == MaxHeight
  {
    var z := seq(|s|, j => 0.0);
    SumOfSquaresFrame(s, z, BlockLo(|s|, i), BlockHi(|s|, i));
    SilentSum(z, BlockLo(|s|, i), BlockHi(|s|, i));
  }

  lemma {:induction false} SilentSum(z: seq<real>, lo: nat, hi: nat)
    requires lo <= hi <= |z|
    requires forall j :: 0 <= j < |z| ==> z[j] == 0.0
    ensures SumOfSquares(z, lo, hi) == 0.0
    decreases hi - lo
  {
    if lo < hi {
      SilentSum(z, lo, hi - 1);
    }
  }

  /** With fewer than 200 samples, every bar from index `n` on lies past the end and is full height. */
  lemma ShortInputTail(s: seq<real>, i: nat, sqrt: real -> real)
    requires |s| < BarCount && |s| <= i
    requires sqrt(1.0) == 1.0
    ensures BarHeight(s, i, sqrt) == MaxHeight
  {
    SilentBlockIsFullHeight(s, i, sqrt);
  }

  // ---------------------------------------------------------------------
  // Progress, active bars, seeking, time label
  // ---------------------------------------------------------------------

  /** `duration > 0 ? currentTime / duration : 0`. */
  function Progress(currentTime: real, duration: real): (p: real)
    ensures duration <= 0.0 ==> p == 0.0
    ensures duration > 0.0 ==> p * duration == currentTime
    ensures 0.0 <= currentTime <= duration ==> 0.0 <= p <= 1.0
  {
    if duration > 0.0 then currentTime / duration else 0.0
  }

  /**
   * Bar `index` of `length` bars is drawn active iff `index < progress * length`:
   * within the envelope up to the progress ratio, none at 0, all at 1.
   */
  predicate IsActive(index: nat, progress: real, length: nat)
    ensures IsActive(index, progress, length) && progress <= 1.0 ==> index < length
    ensures progress >= 1.0 && index < length ==> IsActive(index, progress, length)
    ensures progress <= 0.0 ==> !IsActive(index, progress, length)
  {
    ActiveWithinRatio(index, progress, length);
    (index as real) < progress * (length as real)
  }

  /** Without a known duration the progress is 0, so no bar is drawn active. */
  lemma NoActiveBarWithoutDuration(currentTime: real, index: nat, length: nat)
    ensures !IsActive(index, Progress(currentTime, 0.0), length)
  {
    assert Progress(currentTime, 0.0) == 0.0;
  }

  /** Bar `index` lies below `progress * length` only inside the envelope for a ratio up to 1, always at 1 or beyond, never at 0 or below. */
  lemma ActiveWithinRatio(index: nat, progress: real, length: nat)
    ensures (index as real) < progress * (length as real) && progress <= 1.0 ==> index < length
    ensures progress >= 1.0 && index < length ==> (index as real) < progress * (length as real)
    ensures progress <= 0.0 ==> !((index as real) < progress * (length as real))
  {
    var n := length as real;
    if progress <= 1.0 {
      NonNegProduct(1.0 - progress, n);
      assert (1.0 - progress) * n == n - progress * n;
    }
    if progress >= 1.0 {
      NonNegProduct(progress - 1.0, n);
      assert (progress - 1.0) * n == progress * n - n;
    }
    if progress <= 0.0 {
      NonNegProduct(-progress, n);
      assert (-progress) * n == -(progress * n);
    }
  }

  /** The active bars are a prefix of the envelope, and the prefix grows with the current time. */
  lemma ActiveBarsFormGrowingPrefix(t1: real, t2: real, duration: real, i: nat, k: nat, length: nat)
    requires duration > 0.0 && t1 <= t2 && i <= k
    requires IsActive(k, Progress(t1, duration), length)
    ensures IsActive(i, Progress(t2, duration), length)
  {
    var p1 := Progress(t1, duration);
    var p2 := Progress(t2, duration);
    var n := length as real;
    DivideMonotone(t1, t2, duration);
    assert p1 <= p2;
    ScaleMonotone(p1, p2, n);
    var a1 := p1 * n;
    var a2 := p2 * n;
    assert (k as real) < a1 <= a2;
    assert (i as real) <= (k as real);
  }

  lemma ScaleMonotone(a: real, b: real, c: real)
    requires a <= b && c >= 0.0
    ensures a * c <= b * c
  {
    NonNegProduct(b - a, c);
    assert (b - a) * c == b * c - a * c;
  }

  lemma NonNegProduct(a: real, b: real)
    requires a >= 0.0 && b >= 0.0
    ensures a * b >= 0.0
  {
  }

  lemma PositiveProduct(a: real, b: real)
    requires a > 0.0 && b > 0.0
    ensures a * b > 0.0
  {
  }

  lemma DivideMonotone(a: real, b: real, d: real)
    requires a <= b && d > 0.0
    ensures a / d <= b / d
  {
    assert b / d - a / d == (b - a) / d;
  }

  /** A fraction in [0, 1] of a non-negative amount lies between 0 and that amount. */
  lemma ScaleWithin(c: real, d: real)
    requires 0.0 <= c <= 1.0 && d >= 0.0
    ensures 0.0 <= c * d <= d
  {
    NonNegProduct(c, d);
    NonNegProduct(1.0 - c, d);
    assert (1.0 - c) * d == d - c * d;
  }

  /** At the end of playback every bar is active. */
  lemma AllBarsActiveAtEnd(duration: real, index: nat, length: nat)
    requires duration > 0.0 && index < length
    ensures IsActive(index, Progress(duration, duration), length)
  {
  }

  /** Time a click at `clickX` pixels into a waveform `width` pixels wide seeks to. */
  function ClickTime(clickX: real, width: real, duration: real): (t: real)
    requires width > 0.0
    ensures 0.0 <= clickX <= width && duration >= 0.0 ==> 0.0 <= t <= duration
    ensures clickX == width ==> t == duration
    ensures clickX == 0.0 ==> t == 0.0
  {
    assert 0.0 <= clickX <= width && duration >= 0.0 ==> 0.0 <= (clickX / width) * duration <= duration by {
      if 0.0 <= clickX <= width && duration >= 0.0 {
        DivideMonotone(0.0, clickX, width);
        DivideMonotone(clickX, width, width);
        ScaleWithin(clickX / width, duration);
      }
    }
    (clickX / width) * duration
  }

  /** `Math.min(1, Math.max(0, x))`. */
  function Clamp01(x: real): (r: real)
    ensures 0.0 <= r <= 1.0
    ensures 0.0 <= x <= 1.0 ==> r == x
  {
    MinReal(1.0, MaxReal(0.0, x))
  }

  /** Time a drag to `clientX` seeks to, for a waveform at `left` that is `width` pixels wide. */
  function DragTime(clientX: real, left: real, width: real, duration: real): (t: real)
    requires width > 0.0 && duration >= 0.0
    ensures 0.0 <= t <= duration
    ensures clientX <= left ==> t == 0.0
    ensures clientX >= left + width ==> t == duration
  {
    var x := (clientX - left) / width;
    assert clientX <= left ==> x <= 0.0 by {
      if clientX <= left { DivideMonotone(clientX - left, 0.0, width); }
    }
    assert clientX >= left + width ==> x >= 1.0 by {
      if clientX >= left + width {
        DivideMonotone(width, clientX - left, width);
        assert width / width == 1.0;
      }
    }
    ScaleWithin(Clamp01(x), duration);
    Clamp01(x) * duration
  }

  /** Dragging further right never seeks to an earlier time. */
  lemma DragTimeMonotone(x1: real, x2: real, left: real, width: real, duration: real)
    requires width > 0.0 && duration >= 0.0 && x1 <= x2
    ensures DragTime(x1, left, width, duration) <= DragTime(x2, left, width, duration)
  {
    DivideMonotone(x1 - left, x2 - left, width);
    var c1 := Clamp01((x1 - left) / width);
    var c2 := Clamp01((x2 - left) / width);
    assert c1 <= c2;
    ScaleMonotone(c1, c2, duration);
  }

  /** The quotient `x / m` truncated toward zero, as JavaScript's `%` uses it. */
  function TruncatedQuotient(x: real, m: real): int
    requires m > 0.0
  {
    var q := x / m;
    if q >= 0.0 then q.Floor else -((-q).Floor)
  }

  /** JavaScript's `%` on numbers: the remainder takes the sign of the dividend. */
  function JsRemainder(x: real, m: real): (r: real)
    requires m > 0.0
    ensures x >= 0.0 ==> 0.0 <= r < m
    ensures x < 0.0 ==> -m < r <= 0.0
    ensures x >= 0.0 ==> r == x - m * ((x / m).Floor as real)
  {
    RemainderBounds(x, m);
    x - m * (TruncatedQuotient(x, m) as real)
  }

  lemma RemainderBounds(x: real, m: real)
    requires m > 0.0
    ensures x >= 0.0 ==> 0.0 <= x - m * (TruncatedQuotient(x, m) as real) < m
    ensures x < 0.0 ==> -m < x - m * (TruncatedQuotient(x, m) as real) <= 0.0
    ensures x >= 0.0 ==> TruncatedQuotient(x, m) == (x / m).Floor
  {
    var q := x / m;
    var t := TruncatedQuotient(x, m) as real;
    if x >= 0.0 {
      DivideMonotone(0.0, x, m);
      assert 0.0 <= q - t < 1.0;
    } else {
      assert q != 0.0;
      DivideMonotone(x, 0.0, m);
      assert -1.0 < q - t <= 0.0;
    }
    FractionOfModulus(x, m, q, t);
  }

  /** With `x == m * q` and `q - t` strictly below one whole, `x - m * t` lies strictly within `m` of zero. */
  lemma FractionOfModulus(x: real, m: real, q: real, t: real)
    requires m > 0.0 && m * q == x
    ensures 0.0 <= q - t < 1.0 ==> 0.0 <= x - m * t < m
    ensures -1.0 < q - t <= 0.0 ==> -m < x - m * t <= 0.0
  {
    var d := q - t;
    assert x - m * t == m * d;
    if 0.0 <= d < 1.0 {
      ScaleMonotone(0.0, d, m);
      assert d * m == m * d;
      PositiveProduct(m, 1.0 - d);
      assert m * (1.0 - d) == m - m * d;
    } else if -1.0 < d <= 0.0 {
      ScaleMonotone(d, 0.0, m);
      assert 0.0 * m == 0.0;
      assert m * d == d * m <= 0.0;
      PositiveProduct(m, 1.0 + d);
      assert m * (1.0 + d) == m + m * d;
      assert -m < m * d;
    }
  }

  /** `padStart(2, "0")`. */
  function PadStart2(s: string): (r: string)
    ensures |r| == if |s| >= 2 then |s| else 2
    ensures |s| >= 2 ==> r == s
    ensures Numbers.AllDigits(s) ==> Numbers.AllDigits(r)
  {
    if |s| >= 2 then s else if |s| == 1 then "0" + s else "00"
  }

  /** The minutes and seconds fields of the time label. */
  function Minutes(seconds: real): int {
    (seconds / 60.0).Floor
  }

  function Seconds(seconds: real): int {
    JsRemainder(seconds, 60.0).Floor
  }

  /** `formatTime`: zero-padded minutes, a colon, zero-padded seconds. */
  function FormatTime(seconds: real): (text: string)
    ensures seconds >= 0.0 ==> |text| >= 5 && text[|text| - 3] == ':'
    ensures seconds >= 0.0 ==> Numbers.AllDigits(text[..|text| - 3]) && Numbers.AllDigits(text[|text| - 2..])
  {
    var mins := PadStart2(Numbers.IntToString(Minutes(seconds)));
    var secs := PadStart2(Numbers.IntToString(Seconds(seconds)));
    assert seconds >= 0.0 ==> |mins| >= 2 && Numbers.AllDigits(mins) && |secs| == 2 && Numbers.AllDigits(secs) by {
      if seconds >= 0.0 {
        TimeFields(seconds);
        PaddedValue(Seconds(seconds));
      }
    }
    var text := mins + ":" + secs;
    assert |secs| == 2 ==> text[..|text| - 3] == mins && text[|text| - 2..] == secs;
    text
  }

  /** For a non-negative time the seconds field is 0..59 and the two fields rebuild the whole seconds. */
  lemma TimeFields(seconds: real)
    requires seconds >= 0.0
    ensures 0 <= Seconds(seconds) <= 59
    ensures Minutes(seconds) >= 0
    ensures Minutes(seconds) * 60 + Seconds(seconds) == seconds.Floor
  {
    var m := Minutes(seconds);
    var q := seconds / 60.0;
    assert m as real <= q < m as real + 1.0;
    assert 60.0 * (m as real) <= seconds < 60.0 * (m as real) + 60.0;
    var rem := JsRemainder(seconds, 60.0);
    assert rem == seconds - 60.0 * (m as real);
    var sec := rem.Floor;
    assert (m * 60 + sec) as real <= seconds < (m * 60 + sec) as real + 1.0;
  }

  /** Reading the label of a time under 100 minutes back as "MM:SS" gives its whole seconds. */
  lemma FormatTimeRoundTrip(seconds: real)
    requires 0.0 <= seconds < 6000.0
    ensures |FormatTime(seconds)| == 5 && FormatTime(seconds)[2] == ':'
    ensures Numbers.AllDigits(FormatTime(seconds)[..2]) && Numbers.AllDigits(FormatTime(seconds)[3..])
    ensures Numbers.DigitsValue(FormatTime(seconds)[..2]) * 60
            + Numbers.DigitsValue(FormatTime(seconds)[3..]) == seconds.Floor
  {
    TimeFields(seconds);
    var m := Minutes(seconds);
    var s := Seconds(seconds);
    assert m < 100 by {
      assert m * 60 <= seconds.Floor;
      assert seconds.Floor < 6000;
    }
    var text := FormatTime(seconds);
    assert text[..2] == PadStart2(Numbers.NatToString(m));
    assert text[3..] == PadStart2(Numbers.NatToString(s));
    PaddedValue(m);
    PaddedValue(s);
  }

  lemma PaddedValue(n: nat)
    requires n < 100
    ensures |PadStart2(Numbers.NatToString(n))| == 2
    ensures Numbers.AllDigits(PadStart2(Numbers.NatToString(n)))
    ensures Numbers.DigitsValue(PadStart2(Numbers.NatToString(n))) == n
  {
    Numbers.NatToStringValue(n);
    var t := Numbers.NatToString(n);
    if n < 10 {
      var p := PadStart2(t);
      assert p == ['0'] + t;
      assert p[..1] == ['0'];
      assert Numbers.DigitsValue(['0']) == 0 by {
        assert ['0'][..0] == [];
      }
      assert Numbers.DigitsValue(t) == Numbers.DigitsValue(t[..0]) * 10 + Numbers.DigitValue(t[0]);
      assert t[..0] == [];
    }
  }

  // ---------------------------------------------------------------------
  // The player's state machine
  // ---------------------------------------------------------------------

  /** What the toggle asks of the media element. */
  datatype MediaCommand = Play | Pause

  /** Result of fetching and decoding the audio resource. */
  datatype LoadOutcome =
    | Decoded(channelData: array<real>, bufferDuration: real)
    | FetchFailed
    | DecodeFailed

  /** The media element's `duration` as `loadedmetadata` reports it. */
  datatype MediaDuration = Known(value: real) | NotANumber

  class Player {
    /** React state of the component. */
    var isPlaying: bool
    var currentTime: real
    var duration: real
    var waveformData: seq<real>
    var isLoading: bool
    var error: Option<string>
    var isDragging: bool
    /** `audioRef.current.currentTime`: the media element's transport position. */
    var elementTime: real
    /** Whether `audioRef.current` is attached. */
    const hasAudioElement: bool

    ghost predicate Valid()
      reads this
    {
      && duration >= 0.0
      && (|waveformData| == 0 || |waveformData| == BarCount)
    }

    /** The waveform area (and its ref) exists only when neither loading nor failed. */
    predicate WaveformShown()
      reads this
    {
      !isLoading && error.None?
    }

    constructor (hasAudioElement: bool)
      ensures Valid()
      ensures this.hasAudioElement == hasAudioElement
      ensures !isPlaying && currentTime == 0.0 && duration == 0.0 && waveformData == []
      ensures isLoading && error == None && !isDragging && elementTime == 0.0
    {
      this.hasAudioElement := hasAudioElement;
      isPlaying, currentTime, duration, waveformData := false, 0.0, 0.0, [];
      isLoading, error, isDragging, elementTime := true, None, false, 0.0;
    }

    /**
     * `generateWaveformFromAudio` once its fetch and decode have settled:
     * the envelope and the decoded duration on success; the error message
     * and 200 random bars on failure, keeping the previous duration.
     */
    method LoadWaveform(outcome: LoadOutcome, sqrt: real -> real, randoms: seq<real>)
      requires Valid()
      requires outcome.Decoded? ==> outcome.bufferDuration >= 0.0
      requires |randoms| == BarCount
      requires forall k :: 0 <= k < |randoms| ==> 0.0 <= randoms[k] < 1.0
      modifies this
      ensures Valid()
      ensures !isLoading
      ensures outcome.Decoded? ==>
        && waveformData == Waveform(old(outcome.channelData[..]), sqrt)
        && duration == outcome.bufferDuration
        && error == None
      ensures !outcome.Decoded? ==>
        && waveformData == FallbackWaveform(randoms)
        && duration == old(duration)
        && error == Some(LoadErrorMessage)
      ensures isPlaying == old(isPlaying) && currentTime == old(currentTime)
      ensures isDragging == old(isDragging) && elementTime == old(elementTime)
    {
      isLoading := true;
      error := None;
      if outcome.Decoded? {
        var waveform := ComputeWaveform(outcome.channelData, sqrt);
        waveformData := waveform;
        duration := outcome.bufferDuration;
        isLoading := false;
      } else {
        error := Some(LoadErrorMessage);
        isLoading := false;
        waveformData := FallbackWaveform(randoms);
      }
    }

    /**
     * `togglePlayPause`: pause if playing, play otherwise, and flip the flag.
     * Its button is disabled while loading or after an error, so it is only
     * reached while the waveform is shown.
     */
    method TogglePlayPause() returns (command: Option<MediaCommand>)
      requires WaveformShown()
      modifies this`isPlaying
      ensures !hasAudioElement ==> command == None && isPlaying == old(isPlaying)
      ensures hasAudioElement ==>
        && command == Some(if old(isPlaying) then Pause else Play)
        && isPlaying == !old(isPlaying)
    {
      command := None;
      if hasAudioElement {
        if isPlaying {
          command := Some(Pause);
        } else {
          command := Some(Play);
        }
        isPlaying := !isPlaying;
      }
    }

    /** `handleWaveformClick`: seek to the clicked fraction of the duration. */
    method ClickSeek(clickX: real, width: real)
      requires width > 0.0
      modifies this`currentTime, this`elementTime
      ensures !hasAudioElement || duration == 0.0 ==>
        currentTime == old(currentTime) && elementTime == old(elementTime)
      ensures hasAudioElement && duration != 0.0 ==>
        currentTime == elementTime == ClickTime(clickX, width, duration)
    {
      if !hasAudioElement || duration == 0.0 {
        return;
      }
      var percentage := clickX / width;
      var newTime := percentage * duration;
      elementTime := newTime;
      currentTime := newTime;
    }

    /** Mouse-down or touch-start on the playhead. */
    method StartDrag()
      modifies this`isDragging
      ensures isDragging
    {
      isDragging := true;
    }

    /**
     * A window-level mouse or touch move. The move listeners exist only
     * while dragging; `handleDrag` then seeks to the clamped fraction.
     */
    method DragMove(clientX: real, left: real, width: real)
      requires Valid()
      requires width > 0.0
      modifies this`currentTime, this`elementTime
      ensures isDragging && WaveformShown() && hasAudioElement && duration != 0.0 ==>
        currentTime == elementTime == DragTime(clientX, left, width, duration)
        && 0.0 <= currentTime <= duration
      ensures !(isDragging && WaveformShown() && hasAudioElement && duration != 0.0) ==>
        currentTime == old(currentTime) && elementTime == old(elementTime)
    {
      if !isDragging {
        return;
      }
      if !WaveformShown() || !hasAudioElement || duration == 0.0 {
        return;
      }
      var percentage := Clamp01((clientX - left) / width);
      var newTime := percentage * duration;
      elementTime := newTime;
      currentTime := newTime;
    }

    /** Window-level mouse-up or touch-end while dragging. */
    method StopDrag()
      modifies this`isDragging
      ensures !isDragging
    {
      isDragging := false;
    }

    /**
     * `timeupdate`: the element's playback clock has reached `position`,
     * and the state mirrors it.
     */
    method OnTimeUpdate(position: real)
      requires Valid()
      requires position >= 0.0
      modifies this`currentTime, this`elementTime
      ensures Valid()
      ensures elementTime == position && currentTime == position
    {
      elementTime := position;
      currentTime := elementTime;
    }

    /** `loadedmetadata`: take the element's duration only if it is truthy and not NaN. */
    method OnLoadedMetadata(reported: MediaDuration)
      requires Valid()
      requires reported.Known? ==> reported.value >= 0.0
      modifies this`duration
      ensures Valid()
      ensures reported.Known? && reported.value != 0.0 ==> duration == reported.value
      ensures reported.NotANumber? || reported.value == 0.0 ==> duration == old(duration)
    {
      if reported.Known? && reported.value != 0.0 {
        duration := reported.value;
      }
    }

    /** `ended` and `pause` clear the playing flag; `play` sets it. */
    method OnPlaybackEvent(playing: bool)
      modifies this`isPlaying
      ensures isPlaying == playing
    {
      isPlaying := playing;
    }
  }
}

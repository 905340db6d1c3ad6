/** The sample loops of the playback sink: resampling, the background track, and decoding a frame. */
module PlaybackAudio {
  import opened Frames

  newtype int16 = x: int | -32768 <= x < 32768

  /** Division as Go does it: towards zero. */
  function TruncDiv(n: int, d: int): int
    requires d > 0
  {
    if n >= 0 then n / d else -(-n / d)
  }

  // ---- Resampling ----

  predicate Resamples(len: nat, source: int, target: int) {
    len > 0 && source > 0 && target > 0 && source != target
  }

  function OutLen(len: nat, source: int, target: int): int
    requires source > 0
  {
    (len * target + source / 2) / source
  }

  lemma MulMono(x: int, y: int, k: int)
    requires x <= y && k >= 0
    ensures x * k <= y * k
  {
  }

  lemma OutLenIsLength(len: nat, source: int, target: int)
    requires source > 0 && target > 0
    ensures OutLen(len, source, target) >= 0
  {
    MulMono(0, len, target);
  }

  /** A weighted mean of two samples, rounded towards zero. */
  function Interpolate(a: int, b: int, rem: int, target: int): int
    requires target > 0
  {
    TruncDiv(a * (target - rem) + b * rem, target)
  }

  lemma TruncBetween(n: int, d: int, low: int, high: int)
    requires d > 0 && low * d <= n <= high * d
    ensures low <= TruncDiv(n, d) <= high
  {
    if n >= 0 {
      DivBetween(n, d, low, high);
    } else {
      DivBetween(-n, d, -high, -low);
    }
  }

  lemma Cancel(x: int, y: int, d: int)
    requires d > 0 && x * d < y * d + d
    ensures x <= y
  {
    assert (y + 1) * d == y * d + d;
    if x > y {
      MulMono(y + 1, x, d);
    }
  }

  lemma DivBetween(n: int, d: int, low: int, high: int)
    requires d > 0 && low * d <= n <= high * d
    ensures low <= n / d <= high
  {
    var q := n / d;
    assert q * d <= n < q * d + d;
    Cancel(low, q, d);
    Cancel(q, high, d);
  }

  /** An interpolated sample lies between its two neighbours, so it fits where they fit. */
  lemma InterpolatedIsBetween(a: int, b: int, rem: int, target: int)
    requires 0 <= rem < target
    ensures (if a < b then a else b) <= Interpolate(a, b, rem, target) <= (if a < b then b else a)
  {
    var low, high := if a < b then a else b, if a < b then b else a;
    MulMono(low, a, target - rem);
    MulMono(low, b, rem);
    MulMono(a, high, target - rem);
    MulMono(b, high, rem);
    assert low * (target - rem) + low * rem == low * target;
    assert high * (target - rem) + high * rem == high * target;
    TruncBetween(a * (target - rem) + b * rem, target, low, high);
  }

  /**
   * It is the weighted mean, cut off towards zero: the sample at the position where it falls on one, and
   * otherwise within one of the line between its neighbours.
   */
  lemma InterpolatedIsOnLine(a: int, b: int, rem: int, target: int)
    requires 0 <= rem < target
    ensures var line := a * (target - rem) + b * rem;
      var x := Interpolate(a, b, rem, target) * target;
      && (line >= 0 ==> 0 <= x <= line < x + target)
      && (line <= 0 ==> x - target < line <= x <= 0)
    ensures rem == 0 ==> Interpolate(a, b, rem, target) == a
  {
    var line := a * (target - rem) + b * rem;
    TruncIs(line, target);
    if rem == 0 {
      assert line == a * target;
      TruncBetween(a * target, target, a, a);
    }
  }

  lemma DivIs(n: int, d: int)
    requires n >= 0 && d > 0
    ensures 0 <= n / d * d <= n < n / d * d + d
  {
    var q := n / d;
    assert q * d + n % d == n;
    MulMono(0, q, d);
  }

  lemma Negated(q: int, d: int)
    ensures (-q) * d == -(q * d)
  {
  }

  lemma TruncIs(n: int, d: int)
    requires d > 0
    ensures n >= 0 ==> 0 <= TruncDiv(n, d) * d <= n < TruncDiv(n, d) * d + d
    ensures n <= 0 ==> TruncDiv(n, d) * d - d < n <= TruncDiv(n, d) * d <= 0
  {
    if n >= 0 {
      DivIs(n, d);
    } else {
      DivIs(-n, d);
      Negated(-n / d, d);
    }
  }

  /** The duration is kept to within half a source sample. */
  lemma DurationIsKept(len: nat, source: int, target: int)
    requires source > 0 && target > 0
    ensures var d := OutLen(len, source, target) * source - len * target;
      -(source / 2) <= d <= source / 2
  {
    var n := len * target + source / 2;
    assert n == (n / source) * source + n % source;
  }

  /** Sample i of the result, for a source that is resampled. */
  function ResampledAt(samples: seq<int16>, source: int, target: int, i: nat): int
    requires Resamples(|samples|, source, target)
  {
    var idx, rem := (i * source) / target, (i * source) % target;
    if idx >= |samples| - 1 then samples[|samples| - 1] as int
    else Interpolate(samples[idx] as int, samples[idx + 1] as int, rem, target)
  }

  /** A value from a to b, whichever is larger. */
  predicate Between(x: int, a: int, b: int) {
    a <= x <= b || b <= x <= a
  }

  /** Sample i lies between the source samples around its position; beyond the last one it repeats that. */
  predicate FollowsSource(samples: seq<int16>, source: int, target: int, i: nat, x: int)
    requires Resamples(|samples|, source, target)
  {
    var idx := i * source / target;
    PositionInRange(i, source, target);
    if idx + 1 < |samples| then Between(x, samples[idx] as int, samples[idx + 1] as int)
    else x == samples[|samples| - 1] as int
  }

  lemma PositionInRange(i: nat, source: int, target: int)
    requires source > 0 && target > 0
    ensures (i * source) / target >= 0 && 0 <= (i * source) % target < target
  {
    MulMono(0, i, source);
  }

  lemma ResampledFollows(samples: seq<int16>, source: int, target: int, i: nat)
    requires Resamples(|samples|, source, target)
    ensures FollowsSource(samples, source, target, i, ResampledAt(samples, source, target, i))
  {
    hide Interpolate;
    PositionInRange(i, source, target);
    var idx, rem := i * source / target, i * source % target;
    if idx + 1 < |samples| {
      InterpolatedIsBetween(samples[idx] as int, samples[idx + 1] as int, rem, target);
    }
  }

  lemma ResampledIs(samples: seq<int16>, source: int, target: int, i: nat, idx: int, rem: int)
    requires Resamples(|samples|, source, target) && idx == i * source / target && rem == i * source % target
    ensures 0 <= idx && 0 <= rem < target
    ensures var r := ResampledAt(samples, source, target, i);
      if idx >= |samples| - 1 then r == samples[|samples| - 1] as int
      else r == Interpolate(samples[idx] as int, samples[idx + 1] as int, rem, target)
  {
    hide Interpolate;
    PositionInRange(i, source, target);
  }

  method ResampleMonoPCM(samples: array<int16>, source: int, target: int) returns (out: array<int16>)
    ensures !Resamples(samples.Length, source, target) ==> out == samples
    ensures Resamples(samples.Length, source, target) ==>
      && fresh(out) && out.Length == OutLen(samples.Length, source, target)
      && forall i :: 0 <= i < out.Length ==>
           && out[i] as int == ResampledAt(samples[..], source, target, i)
           && FollowsSource(samples[..], source, target, i, out[i] as int)
  {
    hide FollowsSource, Interpolate, ResampledAt, OutLen;
    if samples.Length == 0 || source <= 0 || target <= 0 || source == target {
      return samples;
    }
    var outLen := OutLen(samples.Length, source, target);
    OutLenIsLength(samples.Length, source, target);
    out := new int16[outLen](_ => 0);
    for i := 0 to outLen
      invariant forall k :: 0 <= k < i ==> out[k] as int == ResampledAt(samples[..], source, target, k)
    {
      var posNum := i * source;
      var idx := posNum / target;
      ResampledIs(samples[..], source, target, i, idx, posNum % target);
      if idx >= samples.Length - 1 {
        out[i] := samples[samples.Length - 1];
        continue;
      }
      var rem := posNum % target;
      var a, b := samples[idx] as int, samples[idx + 1] as int;
      InterpolatedIsBetween(a, b, rem, target);
      out[i] := Interpolate(a, b, rem, target) as int16;
    }
    forall i | 0 <= i < outLen ensures FollowsSource(samples[..], source, target, i, out[i] as int) {
      ResampledFollows(samples[..], source, target, i);
    }
  }

  // ---- The background track ----

  class BackgroundTrack {
    const pcm: seq<int16>
    const frameSamples: nat
    var pos: nat

    ghost predicate Valid()
      reads this
    {
      pcm != [] ==> pos < |pcm|
    }

    constructor (pcm: seq<int16>, frameSamples: nat)
      ensures Valid() && this.pcm == pcm && this.frameSamples == frameSamples && pos == 0
    {
      this.pcm, this.frameSamples, pos := pcm, frameSamples, 0;
    }

    /** One frame of the track, which starts again when it ends. */
    method GetBgFrame() returns (frame: seq<int16>)
      requires Valid()
      modifies this
      ensures Valid()
      ensures pcm == [] ==> frame == []
      ensures pcm != [] ==> frame == Loop(pcm, old(pos), frameSamples) && pos == Position(|pcm|, old(pos), frameSamples)
    {
      frame := [];
      if |pcm| == 0 {
        return;
      }
      for i := 0 to frameSamples
        invariant pos < |pcm| && pos == Position(|pcm|, old(pos), i)
        invariant frame == Loop(pcm, old(pos), i)
      {
        frame := frame + [pcm[pos]];
        pos := pos + 1;
        if pos >= |pcm| {
          pos := 0;
        }
      }
    }
  }

  /** Where the track stands `count` samples after `from`. */
  function Position(length: nat, from: nat, count: nat): (p: nat)
    requires from < length
    ensures p < length
  {
    if count == 0 then from
    else
      var p := Position(length, from, count - 1);
      if p + 1 < length then p + 1 else 0
  }

  /** `count` samples of the endless repetition of a track, from a position on. */
  function Loop(pcm: seq<int16>, from: nat, count: nat): (s: seq<int16>)
    requires from < |pcm|
    ensures |s| == count
  {
    if count == 0 then [] else Loop(pcm, from, count - 1) + [pcm[Position(|pcm|, from, count - 1)]]
  }

  /** Two frames in a row are one longer stretch of the track: no sample is skipped or repeated. */
  lemma {:induction false} LoopContinues(pcm: seq<int16>, from: nat, m: nat, n: nat)
    requires from < |pcm|
    ensures Position(|pcm|, Position(|pcm|, from, m), n) == Position(|pcm|, from, m + n)
    ensures Loop(pcm, from, m) + Loop(pcm, Position(|pcm|, from, m), n) == Loop(pcm, from, m + n)
    decreases n
  {
    if n == 0 {
      assert Loop(pcm, Position(|pcm|, from, m), 0) == [];
    } else {
      LoopContinues(pcm, from, m, n - 1);
    }
  }

  /** Up to its end the track is played as it is, and then it starts again. */
  lemma {:induction false} LoopPlaysTrack(pcm: seq<int16>, from: nat, count: nat)
    requires from < |pcm| && count <= |pcm| - from
    ensures Loop(pcm, from, count) == pcm[from..from + count]
    ensures Position(|pcm|, from, count) == if from + count < |pcm| then from + count else 0
  {
    if count > 0 {
      LoopPlaysTrack(pcm, from, count - 1);
    }
  }

  // ---- Decoding a bot frame ----

  /** Two bytes, least significant first, as a signed sample. */
  function Decode(low: byte, high: byte): int16 {
    var u := low as int + 256 * high as int;
    (if u < 32768 then u else u - 65536) as int16
  }

  function LowByte(s: int16): byte {
    ((s as int + 65536) % 256) as byte
  }

  function HighByte(s: int16): byte {
    (((s as int + 65536) / 256) % 256) as byte
  }

  /** Writing a sample and reading it back gives the sample. */
  lemma SampleRoundTrip(s: int16)
    ensures Decode(LowByte(s), HighByte(s)) == s
  {
    var u := s as int + 65536;
    assert u == 256 * (u / 256) + u % 256;
    if s < 0 {
      assert u / 256 < 256;
    } else {
      assert 256 <= u / 256 < 384;
      assert (u / 256) % 256 == u / 256 - 256;
    }
  }

  /** A frame of the expected size: missing samples are silence, surplus ones are dropped. */
  method BotPCMFrame(pcmBytes: seq<byte>, frameSamples: nat) returns (pcm: seq<int16>)
    ensures pcmBytes == [] ==> pcm == []
    ensures pcmBytes != [] ==> |pcm| == frameSamples
    ensures forall i :: 0 <= i < |pcm| ==>
      pcm[i] == if 2 * i + 1 < |pcmBytes| then Decode(pcmBytes[2 * i], pcmBytes[2 * i + 1]) else 0
  {
    if |pcmBytes| == 0 {
      return [];
    }
    var samples := |pcmBytes| / 2;
    if samples > frameSamples {
      samples := frameSamples;
    }
    pcm := seq(frameSamples, _ => 0);
    for i := 0 to samples
      invariant |pcm| == frameSamples
      invariant forall k :: 0 <= k < i ==> pcm[k] == Decode(pcmBytes[2 * k], pcmBytes[2 * k + 1])
      invariant forall k :: i <= k < frameSamples ==> pcm[k] == 0
    {
      pcm := pcm[i := Decode(pcmBytes[2 * i], pcmBytes[2 * i + 1])];
    }
  }
}

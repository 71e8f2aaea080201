/** 24 kHz to 16 kHz PCM (mobile/lib/use-direct-gemini.ts, downsample24to16) on 16-bit samples
    in little-endian bytes; the base64 around it is not part of this model. */
module Resampler {
  type Byte = b: int | 0 <= b < 256
  type Sample = v: int | -32768 <= v <= 32767

  function GetInt16(lo: Byte, hi: Byte): Sample {
    var u := lo + 256 * hi;
    if u >= 32768 then u - 65536 else u
  }

  function LowByte(v: Sample): Byte {
    v % 256
  }

  function HighByte(v: Sample): Byte {
    (v % 65536) / 256
  }

  lemma Int16RoundTrip(v: Sample)
    ensures GetInt16(LowByte(v), HighByte(v)) == v
  {
    var u := v % 65536;
    assert v % 256 == u % 256;
    assert u == u % 256 + 256 * (u / 256);
  }

  /** Math.round: the nearest integer, ties upwards. */
  function Round(x: real): int {
    (x + 0.5).Floor
  }

  /** The samples of a byte buffer; an odd last byte is left out. */
  function Samples(bytes: seq<Byte>): (s: seq<Sample>)
    ensures |s| == |bytes| / 2
  {
    seq(|bytes| / 2, i requires 0 <= i < |bytes| / 2 => GetInt16(bytes[2 * i], bytes[2 * i + 1]))
  }

  /** The half-up average. */
  function Average(a: Sample, b: Sample): Sample {
    (a as int + b as int + 1) / 2
  }

  /** Of every three samples two are left: the first, and the average of the other two. */
  function Down(s: seq<Sample>): (r: seq<Sample>)
    decreases |s|
  {
    if |s| < 2 then []
    else if |s| == 2 then [s[0]]
    else [s[0], Average(s[1], s[2])] + Down(s[3..])
  }

  /** floor(2n / 3). */
  function OutputSamples(n: nat): nat {
    2 * (n / 3) + if n % 3 == 2 then 1 else 0
  }

  lemma OutputSamplesIsTwoThirds(n: nat)
    ensures OutputSamples(n) == 2 * n / 3 == n * 16000 / 24000
  {
    assert n == 3 * (n / 3) + n % 3;
  }

  lemma {:induction false} DownLength(s: seq<Sample>)
    ensures |Down(s)| == OutputSamples(|s|)
    decreases |s|
  {
    if |s| >= 3 {
      DownLength(s[3..]);
      assert |s[3..]| / 3 == |s| / 3 - 1;
    }
  }

  /** Where output i starts in the source. */
  function Source(i: nat): nat {
    3 * (i / 2) + i % 2
  }

  lemma SourceInBounds(n: nat, i: nat)
    requires i < OutputSamples(n)
    ensures Source(i) + 1 < n
  {
    assert n == 3 * (n / 3) + n % 3;
    assert i == 2 * (i / 2) + i % 2;
  }

  /** The integer form of output i: a sample kept, or the average of two. */
  function At(s: seq<Sample>, i: nat): Sample
    requires Source(i) + 1 < |s|
  {
    if i % 2 == 0 then s[Source(i)] else Average(s[Source(i)], s[Source(i) + 1])
  }

  lemma {:induction false} DownAt(s: seq<Sample>, i: nat)
    requires i < OutputSamples(|s|)
    ensures Source(i) + 1 < |s| && |Down(s)| == OutputSamples(|s|)
    ensures Down(s)[i] == At(s, i)
    decreases |s|
  {
    DownLength(s);
    SourceInBounds(|s|, i);
    if |s| >= 3 && i >= 2 {
      assert |s[3..]| / 3 == |s| / 3 - 1;
      DownAt(s[3..], i - 2);
      assert (i - 2) / 2 == i / 2 - 1;
    }
  }

  /** Cutting the input after a whole number of triples cuts the output. */
  lemma {:induction false} DownConcat(a: seq<Sample>, b: seq<Sample>)
    requires |a| % 3 == 0
    ensures Down(a + b) == Down(a) + Down(b)
    decreases |a|
  {
    if a == [] {
      assert a + b == b;
    } else {
      assert (a + b)[3..] == a[3..] + b;
      DownConcat(a[3..], b);
    }
  }

  /** Every output lies between its two source samples, both of which exist. */
  lemma BetweenSources(s: seq<Sample>, i: nat)
    requires i < OutputSamples(|s|)
    ensures Source(i) + 1 < |s| && |Down(s)| == OutputSamples(|s|)
    ensures var s0, s1 := s[Source(i)], s[Source(i) + 1]; s0 <= Down(s)[i] <= s1 || s1 <= Down(s)[i] <= s0
  {
    DownAt(s, i);
  }

  /** Splitting the bytes where both samples and triples are whole. */
  lemma DownsampleSplits(a: seq<Byte>, b: seq<Byte>)
    requires |a| % 6 == 0
    ensures Down(Samples(a + b)) == Down(Samples(a)) + Down(Samples(b))
  {
    assert Samples(a + b) == Samples(a) + Samples(b);
    DownConcat(Samples(a), Samples(b));
  }

  const RATIO := 1.5

  function Fraction(i: nat): real {
    i as real * RATIO - (i as real * RATIO).Floor as real
  }

  lemma PositionIsExact(i: nat)
    ensures (i as real * RATIO).Floor == Source(i)
    ensures Fraction(i) == if i % 2 == 0 then 0.0 else 0.5
  {
    var k := i / 2;
    assert i as real * RATIO == (3 * k) as real + if i % 2 == 0 then 0.0 else 1.5;
  }

  lemma RoundingIsExact(s0: Sample, s1: Sample)
    ensures Round(s0 as real * 1.0 + s1 as real * 0.0) == s0
    ensures Round(s0 as real * 0.5 + s1 as real * 0.5) == Average(s0, s1)
  {
    var sum := s0 as int + s1 as int + 1;
    var q := sum / 2;
    assert s0 as real * 0.5 + s1 as real * 0.5 + 0.5 == sum as real / 2.0;
    assert q as real <= sum as real / 2.0 < (q + 1) as real;
  }

  lemma WeightedIsExact(s0: Sample, s1: Sample, frac: real)
    requires frac == 0.0 || frac == 0.5
    ensures Round(s0 as real * (1.0 - frac) + s1 as real * frac) == if frac == 0.0 then s0 as int else Average(s0, s1)
  {
    RoundingIsExact(s0, s1);
    if frac == 0.0 {
      assert s0 as real * (1.0 - frac) + s1 as real * frac == s0 as real * 1.0 + s1 as real * 0.0;
    } else {
      assert s0 as real * (1.0 - frac) + s1 as real * frac == s0 as real * 0.5 + s1 as real * 0.5;
    }
  }

  /** The weighted sample, rounded; the clamp never applies. */
  method Blend(s0: Sample, s1: Sample, frac: real) returns (sample: Sample)
    requires frac == 0.0 || frac == 0.5
    ensures sample == if frac == 0.0 then s0 else Average(s0, s1)
  {
    WeightedIsExact(s0, s1, frac);
    var rounded := Round(s0 as real * (1.0 - frac) + s1 as real * frac);
    if rounded > 32767 {
      rounded := 32767;
    } else if rounded < -32768 {
      rounded := -32768;
    }
    sample := rounded;
  }

  method Position(i: nat) returns (srcIdx: nat, frac: real)
    ensures srcIdx == Source(i) && frac == if i % 2 == 0 then 0.0 else 0.5
  {
    PositionIsExact(i);
    var srcPos := i as real * RATIO;
    srcIdx := srcPos.Floor;
    frac := srcPos - srcIdx as real;
  }

  method ReadInt16(bytes: array<Byte>, k: nat) returns (v: Sample)
    requires 2 * k + 1 < bytes.Length
    ensures v == Samples(bytes[..])[k]
  {
    v := GetInt16(bytes[k * 2], bytes[k * 2 + 1]);
  }

  method WriteInt16(bytes: array<Byte>, k: nat, v: Sample)
    requires 2 * k + 1 < bytes.Length
    modifies bytes
    ensures Samples(bytes[..]) == old(Samples(bytes[..]))[k := v]
  {
    Int16RoundTrip(v);
    ghost var before := bytes[..];
    bytes[2 * k] := LowByte(v);
    bytes[2 * k + 1] := HighByte(v);
    assert forall j | 0 <= j < |before| / 2 && j != k ::
        bytes[..][2 * j] == before[2 * j] && bytes[..][2 * j + 1] == before[2 * j + 1];
  }

  /** One output sample, as the loop computes it; the neighbour is always there. */
  method Interpolate(bytes: array<Byte>, inputSamples: nat, i: nat, ghost source: seq<Sample>) returns (sample: Sample)
    requires source == Samples(bytes[..]) && inputSamples == |source|
    requires Source(i) + 1 < inputSamples
    ensures sample == At(source, i)
  {
    var srcIdx, frac := Position(i);
    var s0 := ReadInt16(bytes, srcIdx);
    var s1 := s0;
    if srcIdx + 1 < inputSamples {
      s1 := ReadInt16(bytes, srcIdx + 1);
    }
    sample := Blend(s0, s1, frac);
  }

  method Downsample24To16(bytes: array<Byte>) returns (out: array<Byte>)
    ensures fresh(out)
    ensures out.Length == 2 * (2 * (bytes.Length / 2) / 3)
    ensures Samples(out[..]) == Down(Samples(bytes[..]))
  {
    var inputSamples := bytes.Length / 2;
    var outputSamples := inputSamples * 16000 / 24000;
    OutputSamplesIsTwoThirds(inputSamples);
    out := new Byte[outputSamples * 2];
    ghost var source := Samples(bytes[..]);
    ghost var result := Down(source);
    DownLength(source);

    ghost var written := Samples(out[..]);

    for i := 0 to outputSamples
      invariant source == Samples(bytes[..]) && written == Samples(out[..])
      invariant forall k | 0 <= k < i :: written[k] == result[k]
    {
      assert Source(i) + 1 < |source| && result[i] == At(source, i) by { DownAt(source, i); }
      var sample := Interpolate(bytes, inputSamples, i, source);
      WriteInt16(out, i, sample);
      written := written[i := sample];
    }
    assert written == result;
  }
}

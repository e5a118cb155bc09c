/**
 * The buffer arithmetic of the Crunker audio library: mixing decoded
 * buffers by addition (mergeAudio), laying them end to end (concatAudio),
 * and duplicating a mono channel into an interleaved left/right stream
 * (_interleave).
 *
 * A decoded buffer is modelled by the samples of its first channel, the
 * only channel any of these operations reads. Every buffer is assumed to
 * be at the library's fixed sample rate, so its duration is its length
 * divided by that rate.
 */
module AudioBuffers {
  import opened Wrappers

  /** The library-wide sample rate in Hz. */
  const SampleRate: nat := 48000

  /** A decoded audio buffer, reduced to getChannelData(0). */
  datatype AudioBuffer = AudioBuffer(channelData: seq<real>) {
    /** The buffer's `length`, in sample frames. */
    function Length(): nat { |channelData| }

    /** The buffer's `duration`, in seconds. */
    function Duration(): real { |channelData| as real / SampleRate as real }
  }

  /** createBuffer refuses a buffer of length 0 with a NotSupportedError. */
  datatype AudioError = NotSupportedError

  datatype Result<T> = Ok(value: T) | Err(error: AudioError)

  // ---------------------------------------------------------------------
  // Durations and lengths

  /**
   * _maxDuration: the largest duration among the inputs. Math.max over an
   * empty list is -Infinity, which is modelled as None.
   */
  function MaxDuration(buffers: seq<AudioBuffer>): (d: Option<real>)
    ensures d.None? <==> buffers == []
    ensures d.Some? ==> forall k :: 0 <= k < |buffers| ==> buffers[k].Duration() <= d.value
    ensures d.Some? ==> exists k :: 0 <= k < |buffers| && buffers[k].Duration() == d.value
  {
    if buffers == [] then None
    else
      var rest := MaxDuration(buffers[1..]);
      var first := buffers[0].Duration();
      if rest.None? || rest.value <= first then
        assert buffers[0].Duration() == first;
        Some(first)
      else
        ghost var k :| 0 <= k < |buffers[1..]| && buffers[1..][k].Duration() == rest.value;
        assert buffers[k + 1].Duration() == rest.value;
        rest
  }

  /**
   * The length mergeAudio asks createBuffer for: sampleRate times the
   * maximum duration. WebIDL converts -Infinity (no inputs) to 0.
   * At the fixed rate this is exactly the length of the longest input.
   */
  function MergeLength(buffers: seq<AudioBuffer>): (n: nat)
    ensures buffers == [] ==> n == 0
    ensures forall k :: 0 <= k < |buffers| ==> buffers[k].Length() <= n
    ensures buffers != [] ==> exists k :: 0 <= k < |buffers| && buffers[k].Length() == n
  {
    match MaxDuration(buffers)
    case None => 0
    case Some(d) =>
      ghost var w :| 0 <= w < |buffers| && buffers[w].Duration() == d;
      LengthFromDuration(buffers[w]);
      forall k | 0 <= k < |buffers|
        ensures buffers[k].Length() <= (SampleRate as real * d).Floor
      {
        LengthFromDuration(buffers[k]);
        DurationOrder(buffers[k], buffers[w]);
      }
      (SampleRate as real * d).Floor
  }

  /** Scaling a duration back by the sample rate gives the length exactly. */
  lemma LengthFromDuration(b: AudioBuffer)
    ensures SampleRate as real * b.Duration() == b.Length() as real
    ensures (SampleRate as real * b.Duration()).Floor == b.Length()
  {
  }

  /** Durations compare as lengths do. */
  lemma DurationOrder(a: AudioBuffer, b: AudioBuffer)
    requires a.Duration() <= b.Duration()
    ensures a.Length() <= b.Length()
  {
  }

  /**
   * _totalLength: the sum of the inputs' lengths, folded from the left
   * starting at 0 as map/reduce does.
   */
  function TotalLength(buffers: seq<AudioBuffer>): (n: nat)
    ensures buffers == [] ==> n == 0
    ensures forall k :: 0 <= k < |buffers| ==> buffers[k].Length() <= n
  {
    if buffers == [] then 0
    else TotalLength(buffers[..|buffers| - 1]) + buffers[|buffers| - 1].Length()
  }

  /** Where concatAudio places input k: the total length of the inputs before it. */
  function Offset(buffers: seq<AudioBuffer>, k: nat): nat
    requires k <= |buffers|
  {
    TotalLength(buffers[..k])
  }

  // ---------------------------------------------------------------------
  // Merge

  /** What input b adds at position i: its sample if it has one there, else nothing. */
  function Contribution(b: AudioBuffer, i: nat): real
  {
    if i < |b.channelData| then b.channelData[i] else 0.0
  }

  /** The mix at position i: the sum over the inputs of their contributions, in input order. */
  function SumAt(buffers: seq<AudioBuffer>, i: nat): real
  {
    if buffers == [] then 0.0
    else SumAt(buffers[..|buffers| - 1], i) + Contribution(buffers[|buffers| - 1], i)
  }

  /**
   * The channel mergeAudio leaves in an output buffer of n samples: the mix
   * at every position below n. An addition at n or beyond falls outside the
   * Float32Array and is dropped.
   */
  function MixedInto(buffers: seq<AudioBuffer>, n: nat): (r: seq<real>)
    ensures |r| == n
  {
    seq(n, i requires 0 <= i => SumAt(buffers, i))
  }

  /** The channel mergeAudio produces when the output is exactly MergeLength samples long. */
  function Mixed(buffers: seq<AudioBuffer>): (r: seq<real>)
    ensures |r| == MergeLength(buffers)
  {
    MixedInto(buffers, MergeLength(buffers))
  }

  /**
   * When rounding of sampleRate × duration makes the output shorter than the
   * longest input, the output is the exact mix cut short, and some input has
   * a sample at a position the output does not have.
   */
  lemma ShortOutputDropsSamples(buffers: seq<AudioBuffer>, n: nat)
    requires n < MergeLength(buffers)
    ensures MixedInto(buffers, n) == Mixed(buffers)[..n]
    ensures exists k :: 0 <= k < |buffers| && n < buffers[k].Length()
  {
  }

  /** Mixing two lists of inputs one after the other adds their mixes. */
  lemma {:induction false} SumAtSplit(a: seq<AudioBuffer>, b: seq<AudioBuffer>, i: nat)
    ensures SumAt(a + b, i) == SumAt(a, i) + SumAt(b, i)
  {
    if b == [] {
      assert a + b == a;
    } else {
      var b' := b[..|b| - 1];
      assert (a + b)[..|a + b| - 1] == a + b';
      assert (a + b)[|a + b| - 1] == b[|b| - 1];
      SumAtSplit(a, b', i);
    }
  }

  /** The mix does not depend on which of two groups of inputs comes first. */
  lemma MixedSwap(a: seq<AudioBuffer>, b: seq<AudioBuffer>)
    ensures Mixed(a + b) == Mixed(b + a)
  {
    var n := MergeLength(a + b);
    forall k | 0 <= k < |b + a|
      ensures (b + a)[k].Length() <= n
    {
      if k < |b| {
        assert (b + a)[k] == (a + b)[|a| + k];
      } else {
        assert (b + a)[k] == (a + b)[k - |b|];
      }
    }
    assert MergeLength(b + a) == n by {
      var m := MergeLength(b + a);
      if a + b != [] {
        var w :| 0 <= w < |a + b| && (a + b)[w].Length() == n;
        var w' := if w < |a| then |b| + w else w - |a|;
        assert (b + a)[w'] == (a + b)[w];
        var v :| 0 <= v < |b + a| && (b + a)[v].Length() == m;
        var v' := if v < |b| then |a| + v else v - |b|;
        assert (a + b)[v'] == (b + a)[v];
      }
    }
    forall i | 0 <= i < n
      ensures SumAt(a + b, i) == SumAt(b + a, i)
    {
      SumAtSplit(a, b, i);
      SumAtSplit(b, a, i);
    }
  }

  /**
   * Merging a single buffer gives back its samples; into an output of n
   * samples, only its first n, so with an output one short its last sample
   * is lost.
   */
  lemma MixedSingle(b: AudioBuffer, n: nat)
    requires n <= b.Length()
    ensures MixedInto([b], n) == b.channelData[..n]
    ensures Mixed([b]) == b.channelData
  {
    assert [b][0] == b;
    assert MergeLength([b]) == b.Length();
    forall i | 0 <= i < b.Length()
      ensures SumAt([b], i) == b.channelData[i]
    {
      assert [b][..0] == [];
      assert SumAt([b], i) == SumAt([], i) + Contribution(b, i);
    }
  }

  /**
   * Two inputs of the same length each holding 0.5 mix to 1.0 at every
   * position: the samples are added, not averaged.
   */
  lemma MixedAddsNotAverages(x: AudioBuffer, y: AudioBuffer)
    requires x.Length() == y.Length()
    requires forall i :: 0 <= i < x.Length() ==> x.channelData[i] == 0.5
    requires forall i :: 0 <= i < y.Length() ==> y.channelData[i] == 0.5
    ensures |Mixed([x, y])| == x.Length()
    ensures forall i :: 0 <= i < x.Length() ==> Mixed([x, y])[i] == 1.0
  {
    var m := Mixed([x, y]);
    assert [x, y][0] == x && [x, y][1] == y;
    assert MergeLength([x, y]) == x.Length();
    forall i | 0 <= i < x.Length()
      ensures m[i] == 1.0
    {
      assert [x, y][..1] == [x];
      assert [x][..0] == [];
      assert SumAt([x], i) == SumAt([], i) + Contribution(x, i);
      assert SumAt([x, y], i) == SumAt([x], i) + Contribution(y, i);
    }
  }

  /**
   * mergeAudio: allocate a zeroed single-channel buffer of `outLength`
   * samples, then for each input, from its last sample down to its first,
   * add the input's sample into the output; an addition past the output's
   * end does nothing. `outLength` is createBuffer's truncation of the double
   * sampleRate × _maxDuration: MergeLength, or one less when the product
   * rounds just below it.
   */
  method MergeAudio(buffers: seq<AudioBuffer>, outLength: nat) returns (r: Result<array<real>>)
    requires outLength <= MergeLength(buffers) <= outLength + 1
    ensures r.Err? <==> outLength == 0
    ensures r.Ok? ==> fresh(r.value) && r.value[..] == MixedInto(buffers, outLength)
    ensures r.Ok? && outLength == MergeLength(buffers) ==> r.value[..] == Mixed(buffers)
  {
    var n := outLength;
    if n == 0 {
      return Err(NotSupportedError);
    }
    var output := new real[n](_ => 0.0);
    for k := 0 to |buffers|
      invariant forall p :: 0 <= p < n ==> output[p] == SumAt(buffers[..k], p)
    {
      var channel := buffers[k].channelData;
      assert buffers[..k + 1][..k] == buffers[..k];
      var i := |channel| - 1;
      while i >= 0
        invariant -1 <= i < |channel|
        invariant forall p :: 0 <= p < n ==>
          output[p] == SumAt(buffers[..k], p) + (if i < p < |channel| then channel[p] else 0.0)
      {
        if i < output.Length {
          output[i] := output[i] + channel[i];
        }
        i := i - 1;
      }
    }
    assert buffers[..|buffers|] == buffers;
    return Ok(output);
  }

  // ---------------------------------------------------------------------
  // Concatenation

  /** The channel concatAudio produces: every input's samples, in input order. */
  function Concatenated(buffers: seq<AudioBuffer>): (r: seq<real>)
    ensures |r| == TotalLength(buffers)
  {
    if buffers == [] then []
    else Concatenated(buffers[..|buffers| - 1]) + buffers[|buffers| - 1].channelData
  }

  /** Each input's region starts where the previous one ends. */
  lemma OffsetStep(buffers: seq<AudioBuffer>, k: nat)
    requires k < |buffers|
    ensures Offset(buffers, k + 1) == Offset(buffers, k) + buffers[k].Length()
  {
    assert buffers[..k + 1][..k] == buffers[..k];
  }

  /** Offsets grow with the input index and the last region ends at the total length. */
  lemma {:induction false} OffsetMonotone(buffers: seq<AudioBuffer>, k: nat, l: nat)
    requires k < l <= |buffers|
    ensures Offset(buffers, k) + buffers[k].Length() <= Offset(buffers, l)
  {
    OffsetStep(buffers, k);
    if k + 1 < l {
      OffsetStep(buffers, l - 1);
      OffsetMonotone(buffers, k, l - 1);
    }
  }

  /** Input k's samples appear unchanged at [Offset(k), Offset(k) + length of k). */
  lemma {:induction false} ConcatenatedPlacement(buffers: seq<AudioBuffer>, k: nat, j: nat)
    requires k < |buffers| && j < buffers[k].Length()
    ensures Offset(buffers, k) + buffers[k].Length() <= TotalLength(buffers)
    ensures Concatenated(buffers)[Offset(buffers, k) + j] == buffers[k].channelData[j]
  {
    var last := |buffers| - 1;
    var front := buffers[..last];
    assert buffers[..|buffers|] == buffers;
    if k == last {
      assert front == buffers[..k];
    } else {
      OffsetMonotone(buffers, k, last);
      assert front[..k] == buffers[..k];
      ConcatenatedPlacement(front, k, j);
    }
  }

  /** Every position of the output belongs to some input's region. */
  function {:induction false} Locate(buffers: seq<AudioBuffer>, p: nat): (kj: (nat, nat))
    requires p < TotalLength(buffers)
    ensures kj.0 < |buffers| && kj.1 < buffers[kj.0].Length()
    ensures Offset(buffers, kj.0) + kj.1 == p
  {
    var last := |buffers| - 1;
    var front := buffers[..last];
    assert buffers[..|buffers|] == buffers;
    if p < TotalLength(front) then
      var kj := Locate(front, p);
      assert front[..kj.0] == buffers[..kj.0];
      kj
    else
      assert buffers[..last] == front;
      (last, p - TotalLength(front))
  }

  /** No position belongs to two regions: the regions are disjoint. */
  lemma RegionsDisjoint(buffers: seq<AudioBuffer>, k: nat, j: nat, k': nat, j': nat)
    requires k < |buffers| && j < buffers[k].Length()
    requires k' < |buffers| && j' < buffers[k'].Length()
    requires Offset(buffers, k) + j == Offset(buffers, k') + j'
    ensures k == k' && j == j'
  {
    if k < k' {
      OffsetMonotone(buffers, k, k');
    } else if k' < k {
      OffsetMonotone(buffers, k', k);
    }
  }

  /** A 10-sample input followed by a 20-sample input gives 30 samples, in that order. */
  lemma ConcatenatedTenTwenty(x: AudioBuffer, y: AudioBuffer)
    requires x.Length() == 10 && y.Length() == 20
    ensures |Concatenated([x, y])| == 30
    ensures Concatenated([x, y])[..10] == x.channelData
    ensures Concatenated([x, y])[10..] == y.channelData
  {
  }

  /**
   * concatAudio: allocate a zeroed single-channel buffer of TotalLength
   * samples, then copy each input's samples in at a running offset that
   * advances by the input's length.
   */
  method ConcatAudio(buffers: seq<AudioBuffer>) returns (r: Result<array<real>>)
    ensures r.Err? <==> TotalLength(buffers) == 0
    ensures r.Ok? ==> fresh(r.value) && r.value[..] == Concatenated(buffers)
  {
    var n := TotalLength(buffers);
    if n == 0 {
      return Err(NotSupportedError);
    }
    var output := new real[n](_ => 0.0);
    var offset := 0;
    for k := 0 to |buffers|
      invariant offset == TotalLength(buffers[..k]) <= n
      invariant output[..offset] == Concatenated(buffers[..k])
    {
      var channel := buffers[k].channelData;
      assert buffers[..k + 1][..k] == buffers[..k];
      OffsetMonotone(buffers, k, |buffers|);
      assert buffers[..|buffers|] == buffers;
      forall j | 0 <= j < |channel| {
        output[offset + j] := channel[j];
      }
      assert output[..offset + |channel|] == output[..offset] + channel;
      offset := offset + buffers[k].Length();
    }
    assert buffers[..|buffers|] == buffers;
    assert output[..] == output[..offset];
    return Ok(output);
  }

  // ---------------------------------------------------------------------
  // Interleaving

  /** The stereo stream _interleave produces: each sample twice in a row. */
  function Interleaved(s: seq<real>): (r: seq<real>)
    ensures |r| == 2 * |s|
  {
    if s == [] then [] else Interleaved(s[..|s| - 1]) + [s[|s| - 1], s[|s| - 1]]
  }

  /** Frame j of the interleaved stream holds sample j on both sides. */
  lemma {:induction false} InterleavedAt(s: seq<real>, j: nat)
    requires j < |s|
    ensures Interleaved(s)[2 * j] == s[j] && Interleaved(s)[2 * j + 1] == s[j]
  {
    var front := s[..|s| - 1];
    if j < |s| - 1 {
      InterleavedAt(front, j);
    }
  }

  /** One side of an interleaved stream: every other sample, starting at `side`. */
  function Channel(r: seq<real>, side: nat): (c: seq<real>)
    requires side < 2 && |r| % 2 == 0
    ensures |c| == |r| / 2
  {
    seq(|r| / 2, j requires 0 <= j < |r| / 2 => r[2 * j + side])
  }

  /** Taking either side of the interleaved stream gives back the mono input. */
  lemma DeinterleaveRoundTrip(s: seq<real>)
    ensures Channel(Interleaved(s), 0) == s
    ensures Channel(Interleaved(s), 1) == s
  {
  }

  /**
   * _interleave: fill a new array twice as long as the input's channel,
   * writing each input sample to two consecutive slots.
   */
  method Interleave(input: AudioBuffer) returns (result: array<real>)
    ensures fresh(result)
    ensures result.Length == 2 * input.Length()
    ensures forall j :: 0 <= j < input.Length() ==>
      result[2 * j] == input.channelData[j] && result[2 * j + 1] == input.channelData[j]
    ensures result[..] == Interleaved(input.channelData)
  {
    var buffer := input.channelData;
    var length := |buffer| * 2;
    result := new real[length](_ => 0.0);
    var index, inputIndex := 0, 0;
    while index < length
      invariant index == 2 * inputIndex <= length
      invariant forall j :: 0 <= j < inputIndex ==>
        result[2 * j] == buffer[j] && result[2 * j + 1] == buffer[j]
    {
      result[index] := buffer[inputIndex];
      index := index + 1;
      result[index] := buffer[inputIndex];
      index := index + 1;
      inputIndex := inputIndex + 1;
    }
    forall q | 0 <= q < length
      ensures result[q] == Interleaved(buffer)[q]
    {
      InterleavedAt(buffer, q / 2);
    }
  }
}

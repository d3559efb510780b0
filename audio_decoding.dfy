/** `decode` and `decodeAudioData`: the bytes of a decoded base64 string, their view as
    little-endian 16-bit samples, and the split of interleaved samples into one row
    per channel, each sample scaled by 1/32768. */
module AudioDecoding {
  import opened Outcomes

  newtype uint8 = x: int | 0 <= x < 256

  /** A UTF-16 code unit, what `charCodeAt` returns. */
  newtype uint16 = x: int | 0 <= x < 65536

  /** Fills a byte array with the code units of an already base64-decoded string; the
      store into a `Uint8Array` keeps the low 8 bits. */
  method Decode(binary: seq<uint16>) returns (bytes: array<uint8>)
    ensures bytes.Length == |binary|
    ensures forall i :: 0 <= i < |binary| ==> bytes[i] as int == binary[i] as int % 256
    ensures forall i :: 0 <= i < |binary| && binary[i] < 256 ==> bytes[i] as int == binary[i] as int
  {
    bytes := new uint8[|binary|];
    for i := 0 to |binary|
      invariant forall j :: 0 <= j < i ==> bytes[j] as int == binary[j] as int % 256
    {
      bytes[i] := (binary[i] as int % 256) as uint8;
    }
  }

  // ---------------------------------------------------------------- 16-bit samples

  /** The signed 16-bit value stored little-endian in two bytes. */
  function Int16At(lo: uint8, hi: uint8): (v: int)
    ensures -32768 <= v < 32768
  {
    var u := lo as int + 256 * hi as int;
    if u < 32768 then u else u - 65536
  }

  /** `new Int16Array(data.buffer)`: one sample per byte pair; an odd byte count is a
      RangeError. */
  function Int16View(data: seq<uint8>): (r: Outcome<seq<int>>)
    ensures r.Throws? <==> |data| % 2 == 1
    ensures r.Throws? ==> r.error == RangeError
    ensures r.Returns? ==> |r.value| == |data| / 2
    ensures r.Returns? ==> forall i :: 0 <= i < |r.value| ==> -32768 <= r.value[i] < 32768
  {
    if |data| % 2 == 1 then Throws(RangeError)
    else Returns(seq(|data| / 2, i requires 0 <= i < |data| / 2 => Int16At(data[2 * i], data[2 * i + 1])))
  }

  predicate IsInt16(v: int)
  {
    -32768 <= v < 32768
  }

  /** The two's-complement low and high byte of a 16-bit sample. */
  function LowByte(v: int): uint8
    requires IsInt16(v)
  {
    ((v + 65536) % 65536 % 256) as uint8
  }

  function HighByte(v: int): uint8
    requires IsInt16(v)
  {
    ((v + 65536) % 65536 / 256) as uint8
  }

  /** The little-endian bytes of a sequence of 16-bit samples. */
  function Int16Bytes(samples: seq<int>): (data: seq<uint8>)
    requires forall i :: 0 <= i < |samples| ==> IsInt16(samples[i])
    ensures |data| == 2 * |samples|
  {
    seq(2 * |samples|, k requires 0 <= k < 2 * |samples| =>
      if k % 2 == 0 then LowByte(samples[k / 2]) else HighByte(samples[k / 2]))
  }

  lemma Int16AtOfBytes(v: int)
    requires IsInt16(v)
    ensures Int16At(LowByte(v), HighByte(v)) == v
  {
  }

  /** Viewing the bytes of a sample sequence gives the samples back. */
  lemma ViewOfBytes(samples: seq<int>)
    requires forall i :: 0 <= i < |samples| ==> IsInt16(samples[i])
    ensures Int16View(Int16Bytes(samples)) == Returns(samples)
  {
    var view := Int16View(Int16Bytes(samples));
    forall i | 0 <= i < |samples| ensures view.Returns? && |view.value| == |samples| && view.value[i] == samples[i] {
      ViewAt(samples, i);
    }
    if |samples| == 0 {
      assert view.value == [];
    } else {
      assert view.value == samples;
    }
  }

  /** Sample i of the view over the bytes of a sample sequence is sample i. */
  lemma ViewAt(samples: seq<int>, i: nat)
    requires forall j :: 0 <= j < |samples| ==> IsInt16(samples[j])
    requires i < |samples|
    ensures Int16View(Int16Bytes(samples)).Returns?
    ensures |Int16View(Int16Bytes(samples)).value| == |samples|
    ensures Int16View(Int16Bytes(samples)).value[i] == samples[i]
  {
    BytePairOfSample(samples, i);
    Int16AtOfBytes(samples[i]);
  }

  /** Sample i is stored at byte positions 2i and 2i + 1. */
  lemma BytePairOfSample(samples: seq<int>, i: nat)
    requires forall j :: 0 <= j < |samples| ==> IsInt16(samples[j])
    requires i < |samples|
    ensures Int16Bytes(samples)[2 * i] == LowByte(samples[i])
    ensures Int16Bytes(samples)[2 * i + 1] == HighByte(samples[i])
  {
    assert (2 * i) / 2 == i && (2 * i + 1) / 2 == i;
    assert (2 * i) % 2 == 0 && (2 * i + 1) % 2 == 1;
  }

  /** Writing the viewed samples back as bytes gives the original bytes. */
  lemma BytesOfView(data: seq<uint8>)
    requires |data| % 2 == 0
    ensures Int16Bytes(Int16View(data).value) == data
  {
    var view := Int16View(data).value;
    var back := Int16Bytes(view);
    forall k | 0 <= k < |data| ensures back[k] == data[k] {
      var i := k / 2;
      var u := data[2 * i] as int + 256 * data[2 * i + 1] as int;
      assert view[i] == Int16At(data[2 * i], data[2 * i + 1]);
      assert (view[i] + 65536) % 65536 == u;
    }
  }

  // ---------------------------------------------------------------- deinterleaving

  /** Position in the interleaved input of frame `frame` of channel `channel`: each frame
      occupies numChannels consecutive positions. */
  function SampleIndex(channel: nat, frame: nat, numChannels: nat): nat
  {
    if frame == 0 then channel else numChannels + SampleIndex(channel, frame - 1, numChannels)
  }

  /** Channel and frame of input position k (k mod numChannels, k div numChannels). */
  function ChannelOf(k: nat, numChannels: nat): (c: nat)
    requires numChannels > 0
    ensures c < numChannels
    decreases k
  {
    if k < numChannels then k else ChannelOf(k - numChannels, numChannels)
  }

  function FrameOf(k: nat, numChannels: nat): nat
    requires numChannels > 0
    decreases k
  {
    if k < numChannels then 0 else 1 + FrameOf(k - numChannels, numChannels)
  }

  lemma {:induction false} SampleIndexIsAffine(channel: nat, frame: nat, numChannels: nat)
    ensures SampleIndex(channel, frame, numChannels) == frame * numChannels + channel
  {
    if frame > 0 {
      SampleIndexIsAffine(channel, frame - 1, numChannels);
    }
  }

  /** The input length, as a position: numChannels times the frame count. */
  lemma FrameCountSpansInput(len: nat, numChannels: nat)
    requires numChannels > 0 && len % numChannels == 0
    ensures SampleIndex(0, len / numChannels, numChannels) == len
  {
    SampleIndexIsAffine(0, len / numChannels, numChannels);
  }

  /** frameCount = floor(len / numChannels) whole frames start inside the input, and what
      they leave over is less than one frame. */
  lemma WholeFrames(len: nat, numChannels: nat)
    requires numChannels > 0
    ensures SampleIndex(0, len / numChannels, numChannels) <= len
    ensures len < SampleIndex(0, len / numChannels, numChannels) + numChannels
  {
    SampleIndexIsAffine(0, len / numChannels, numChannels);
  }

  /** Later frames sit at or after the start of earlier ones. */
  lemma {:induction false} SampleIndexMonotone(channel: nat, frame: nat, before: nat, numChannels: nat)
    requires before <= frame
    ensures SampleIndex(0, before, numChannels) <= SampleIndex(channel, frame, numChannels)
  {
    if before < frame {
      SampleIndexMonotone(channel, frame - 1, before, numChannels);
    } else if frame > 0 {
      SampleIndexMonotone(channel, frame - 1, before - 1, numChannels);
    }
  }

  lemma {:induction false} SampleIndexInRange(channel: nat, frame: nat, numChannels: nat, frames: nat)
    requires channel < numChannels && frame < frames
    ensures SampleIndex(channel, frame, numChannels) < SampleIndex(0, frames, numChannels)
  {
    if frame > 0 {
      SampleIndexInRange(channel, frame - 1, numChannels, frames - 1);
    }
  }

  lemma {:induction false} SampleIndexDecomposes(k: nat, numChannels: nat)
    requires numChannels > 0
    ensures SampleIndex(ChannelOf(k, numChannels), FrameOf(k, numChannels), numChannels) == k
    decreases k
  {
    if k >= numChannels {
      SampleIndexDecomposes(k - numChannels, numChannels);
    }
  }

  lemma {:induction false} SampleIndexInjective(c: nat, i: nat, c': nat, i': nat, numChannels: nat)
    requires c < numChannels && c' < numChannels
    requires SampleIndex(c, i, numChannels) == SampleIndex(c', i', numChannels)
    ensures c == c' && i == i'
  {
    if i > 0 && i' > 0 {
      SampleIndexInjective(c, i - 1, c', i' - 1, numChannels);
    }
  }

  /** The nested loops read every input sample exactly once: each (channel, frame) pair
      reads a position inside the input, every position is read by the pair
      (ChannelOf(k), FrameOf(k)), and no two pairs read the same position. */
  lemma EverySampleReadExactlyOnce(numChannels: nat, frames: nat)
    requires numChannels > 0
    ensures forall c, i :: 0 <= c < numChannels && 0 <= i < frames
              ==> SampleIndex(c, i, numChannels) < SampleIndex(0, frames, numChannels)
    ensures forall k :: 0 <= k < SampleIndex(0, frames, numChannels)
              ==> FrameOf(k, numChannels) < frames
                  && SampleIndex(ChannelOf(k, numChannels), FrameOf(k, numChannels), numChannels) == k
    ensures forall c, i, c', i' :: 0 <= c < numChannels && 0 <= c' < numChannels && 0 <= i && 0 <= i'
              && SampleIndex(c, i, numChannels) == SampleIndex(c', i', numChannels)
              ==> c == c' && i == i'
  {
    forall c, i | 0 <= c < numChannels && 0 <= i < frames
      ensures SampleIndex(c, i, numChannels) < SampleIndex(0, frames, numChannels)
    {
      SampleIndexInRange(c, i, numChannels, frames);
    }
    forall k | 0 <= k < SampleIndex(0, frames, numChannels)
      ensures FrameOf(k, numChannels) < frames
      ensures SampleIndex(ChannelOf(k, numChannels), FrameOf(k, numChannels), numChannels) == k
    {
      SampleIndexDecomposes(k, numChannels);
      if FrameOf(k, numChannels) >= frames {
        SampleIndexMonotone(ChannelOf(k, numChannels), FrameOf(k, numChannels), frames, numChannels);
      }
    }
    forall c, i, c', i' | 0 <= c < numChannels && 0 <= c' < numChannels && 0 <= i && 0 <= i'
              && SampleIndex(c, i, numChannels) == SampleIndex(c', i', numChannels)
      ensures c == c' && i == i'
    {
      SampleIndexInjective(c, i, c', i', numChannels);
    }
  }

  /** A 16-bit sample as the audio API stores it: divided by 32768. */
  function Scaled(sample: int): real
  {
    sample as real / 32768.0
  }

  /** The sample at position k, read only where k is inside the input. */
  function SampleAt(samples: seq<int>, k: nat): int
  {
    if k < |samples| then samples[k] else 0
  }

  /** Row `channel`, frame `frame` of the buffer holds input position SampleIndex(channel,
      frame) scaled by 1/32768, for every channel and frame below the given bounds. */
  ghost predicate HoldsScaled(buffer: array2<real>, samples: seq<int>, numChannels: nat, channels: nat, frames: nat)
    reads buffer
    requires channels <= buffer.Length0 && frames <= buffer.Length1
  {
    forall c, i :: 0 <= c < channels && 0 <= i < frames
      ==> buffer[c, i] == Scaled(SampleAt(samples, SampleIndex(c, i, numChannels)))
  }

  /** The nested loops of `decodeAudioData` over already-viewed samples: row `channel`
      of the buffer receives every numChannels-th sample starting at `channel`, divided
      by 32768. The buffer holds the whole frames; a trailing partial frame, shorter than
      numChannels, is left out (its writes fall past the end of each row). */
  method Deinterleave(samples: seq<int>, numChannels: nat) returns (buffer: array2<real>)
    requires numChannels > 0
    ensures buffer.Length0 == numChannels && buffer.Length1 == |samples| / numChannels
    ensures forall c, i :: 0 <= c < numChannels && 0 <= i < buffer.Length1
              ==> (SampleIndex(c, i, numChannels) < |samples|
                   && buffer[c, i] == Scaled(samples[SampleIndex(c, i, numChannels)]))
    ensures SampleIndex(0, buffer.Length1, numChannels) <= |samples|
            < SampleIndex(0, buffer.Length1, numChannels) + numChannels
    ensures |samples| % numChannels == 0 ==> SampleIndex(0, buffer.Length1, numChannels) == |samples|
    ensures forall k :: 0 <= k < SampleIndex(0, buffer.Length1, numChannels)
              ==> (FrameOf(k, numChannels) < buffer.Length1
                   && buffer[ChannelOf(k, numChannels), FrameOf(k, numChannels)] == Scaled(samples[k]))
  {
    var frameCount := |samples| / numChannels;
    WholeFrames(|samples|, numChannels);
    if |samples| % numChannels == 0 {
      FrameCountSpansInput(|samples|, numChannels);
    }
    buffer := new real[numChannels, frameCount];
    for channel := 0 to numChannels
      invariant HoldsScaled(buffer, samples, numChannels, channel, frameCount)
    {
      FillChannel(buffer, samples, numChannels, channel);
    }
    EverySampleReadExactlyOnce(numChannels, frameCount);
    DeinterleavedCoversInput(samples, numChannels, buffer);
  }

  /** The inner loop: `channelData[i] = dataInt16[i * numChannels + channel] / 32768`
      for every frame i of one channel, leaving the other channels as they were. */
  method FillChannel(buffer: array2<real>, samples: seq<int>, numChannels: nat, channel: nat)
    requires buffer.Length0 == numChannels && channel < numChannels
    requires SampleIndex(0, buffer.Length1, numChannels) <= |samples|
    requires HoldsScaled(buffer, samples, numChannels, channel, buffer.Length1)
    modifies buffer
    ensures HoldsScaled(buffer, samples, numChannels, channel + 1, buffer.Length1)
    ensures forall c, i :: channel < c < buffer.Length0 && 0 <= i < buffer.Length1
              ==> buffer[c, i] == old(buffer[c, i])
  {
    for i := 0 to buffer.Length1
      invariant forall c, j :: 0 <= c < buffer.Length0 && 0 <= j < buffer.Length1
                  ==> buffer[c, j] == (if c == channel && j < i
                                       then Scaled(SampleAt(samples, SampleIndex(channel, j, numChannels)))
                                       else old(buffer[c, j]))
    {
      SampleIndexInRange(channel, i, numChannels, buffer.Length1);
      SampleIndexIsAffine(channel, i, numChannels);
      buffer[channel, i] := Scaled(samples[i * numChannels + channel]);
    }
  }

  /** A buffer holding every (channel, frame) sample holds every input sample. */
  lemma DeinterleavedCoversInput(samples: seq<int>, numChannels: nat, buffer: array2<real>)
    requires numChannels > 0 && buffer.Length0 == numChannels
    requires SampleIndex(0, buffer.Length1, numChannels) <= |samples|
    requires HoldsScaled(buffer, samples, numChannels, numChannels, buffer.Length1)
    ensures forall k :: 0 <= k < SampleIndex(0, buffer.Length1, numChannels)
              ==> (FrameOf(k, numChannels) < buffer.Length1
                   && buffer[ChannelOf(k, numChannels), FrameOf(k, numChannels)] == Scaled(samples[k]))
  {
    EverySampleReadExactlyOnce(numChannels, buffer.Length1);
  }

  /** Multiplying each channel value back by 32768 and interleaving the channels again. */
  function Reinterleave(buffer: array2<real>, numChannels: nat, len: nat): (samples: seq<int>)
    reads buffer
    requires numChannels > 0 && buffer.Length0 == numChannels
    requires forall k :: 0 <= k < len ==> FrameOf(k, numChannels) < buffer.Length1
    ensures |samples| == len
  {
    seq(len, k requires 0 <= k < len reads buffer => (buffer[ChannelOf(k, numChannels), FrameOf(k, numChannels)] * 32768.0).Floor)
  }

  /** The deinterleaved buffer loses nothing: re-interleaving it gives back exactly the
      16-bit input samples. */
  lemma ReinterleaveRoundTrip(samples: seq<int>, numChannels: nat, buffer: array2<real>)
    requires numChannels > 0 && buffer.Length0 == numChannels
    requires forall k :: 0 <= k < |samples|
               ==> (FrameOf(k, numChannels) < buffer.Length1
                    && buffer[ChannelOf(k, numChannels), FrameOf(k, numChannels)] == Scaled(samples[k]))
    ensures Reinterleave(buffer, numChannels, |samples|) == samples
  {
  }

  /** `decodeAudioData` on a byte buffer: the 16-bit view, then `createBuffer` with
      frameCount = |samples| / numChannels truncated to whole frames, then the
      deinterleave; every value lies in [-1, 1). `maxChannels` is the audio context's
      channel limit: `createBuffer` refuses no channel, more than that, or no frame. */
  method DecodeAudioData(data: seq<uint8>, numChannels: nat, maxChannels: nat) returns (r: Outcome<array2<real>>)
    ensures |data| % 2 == 1 ==> r == Throws(RangeError)
    ensures |data| % 2 == 0 ==>
              (r.Throws? <==> numChannels == 0 || numChannels > maxChannels || |data| / 2 < numChannels)
    ensures |data| % 2 == 0 && r.Throws? ==> r.error == NotSupportedError
    ensures r.Returns? ==>
              var samples := Int16View(data).value;
              var buffer := r.value;
              && buffer.Length0 == numChannels && buffer.Length1 == |samples| / numChannels
              && buffer.Length1 > 0
              && (forall c, i :: 0 <= c < numChannels && 0 <= i < buffer.Length1
                    ==> (SampleIndex(c, i, numChannels) < |samples|
                         && buffer[c, i] == Scaled(samples[SampleIndex(c, i, numChannels)])
                         && -1.0 <= buffer[c, i] < 1.0))
              && SampleIndex(0, buffer.Length1, numChannels) <= |samples|
              && (forall k :: 0 <= k < SampleIndex(0, buffer.Length1, numChannels)
                    ==> (FrameOf(k, numChannels) < buffer.Length1
                         && buffer[ChannelOf(k, numChannels), FrameOf(k, numChannels)] == Scaled(samples[k])))
  {
    var view := Int16View(data);
    if view.Throws? {
      return Throws(view.error);
    }
    var samples := view.value;
    if numChannels == 0 || numChannels > maxChannels || |samples| / numChannels == 0 {
      return Throws(NotSupportedError);
    }
    var buffer := Deinterleave(samples, numChannels);
    return Returns(buffer);
  }
}

/** Decoded audio as the component holds it: a buffer of channels of
    samples, and the copy played backwards when the tape rewinds
    (`reverseBuffer`, src/App.jsx:856-866). */
module AudioBuffers {

  /** The sequence read from its last element back to its first. */
  function Reversed<T>(s: seq<T>): (r: seq<T>)
    ensures |r| == |s|
    decreases |s|
  {
    if s == [] then [] else Reversed(s[1..]) + [s[0]]
  }

  /** Element i of the reversal is element |s| - 1 - i of the original. */
  lemma {:induction false} ReversedAt<T>(s: seq<T>, i: int)
    requires 0 <= i < |s|
    ensures Reversed(s)[i] == s[|s| - 1 - i]
    decreases |s|
  {
    if i < |s| - 1 {
      ReversedAt(s[1..], i);
    }
  }

  /** A sequence equals the reversal of s exactly when it mirrors s index by
      index. */
  lemma ReversedIff<T>(s: seq<T>, t: seq<T>)
    ensures t == Reversed(s) <==> |t| == |s| && forall i :: 0 <= i < |s| ==> t[i] == s[|s| - 1 - i]
  {
    forall i | 0 <= i < |s| {
      ReversedAt(s, i);
    }
  }

  /** Reversing twice gives back the original samples. */
  lemma ReversedTwice<T>(s: seq<T>)
    ensures Reversed(Reversed(s)) == s
  {
    var r := Reversed(s);
    forall i | 0 <= i < |s|
      ensures Reversed(r)[i] == s[i]
    {
      ReversedAt(r, i);
      ReversedAt(s, |s| - 1 - i);
    }
  }

  /** An AudioBuffer: a sample rate and a number of channels, each an array
      of `length` samples, no two channels sharing storage. */
  class AudioBuffer {
    const sampleRate: real
    const length: nat
    const channels: seq<array<real>>

    predicate Valid() {
      && (forall c :: 0 <= c < |channels| ==> channels[c].Length == length)
      && (forall c, d :: 0 <= c < d < |channels| ==> channels[c] != channels[d])
    }

    /** `createBuffer`: a new buffer of silent channels. */
    constructor (numberOfChannels: nat, length: nat, sampleRate: real)
      ensures Valid()
      ensures |channels| == numberOfChannels && this.length == length && this.sampleRate == sampleRate
      ensures forall c :: 0 <= c < |channels| ==> fresh(channels[c])
      ensures forall c :: 0 <= c < |channels| ==> channels[c][..] == seq(length, _ => 0.0)
    {
      var chs: seq<array<real>> := [];
      while |chs| < numberOfChannels
        invariant |chs| <= numberOfChannels
        invariant forall c :: 0 <= c < |chs| ==> chs[c].Length == length && fresh(chs[c])
        invariant forall c :: 0 <= c < |chs| ==> chs[c][..] == seq(length, _ => 0.0)
        invariant forall c, d :: 0 <= c < d < |chs| ==> chs[c] != chs[d]
      {
        var samples := new real[length](_ => 0.0);
        chs := chs + [samples];
      }
      this.sampleRate := sampleRate;
      this.length := length;
      channels := chs;
    }
  }

  /** A new buffer with the same shape as `buf` whose every channel holds the
      samples of the matching channel of `buf` in reverse order. */
  method ReverseBuffer(buf: AudioBuffer) returns (rev: AudioBuffer)
    requires buf.Valid()
    ensures rev.Valid()
    ensures |rev.channels| == |buf.channels| && rev.length == buf.length && rev.sampleRate == buf.sampleRate
    ensures forall ch :: 0 <= ch < |buf.channels| ==> rev.channels[ch][..] == Reversed(buf.channels[ch][..])
    ensures forall ch, i :: 0 <= ch < |buf.channels| && 0 <= i < buf.length ==>
              rev.channels[ch][i] == buf.channels[ch][buf.length - 1 - i]
  {
    rev := new AudioBuffer(|buf.channels|, buf.length, buf.sampleRate);
    for ch := 0 to |buf.channels|
      invariant forall c :: 0 <= c < ch ==> rev.channels[c][..] == Reversed(buf.channels[c][..])
    {
      var src := buf.channels[ch];
      var dst := rev.channels[ch];
      var i, j := 0, src.Length - 1;
      while i < src.Length
        invariant 0 <= i <= src.Length && j == src.Length - 1 - i
        invariant forall k :: 0 <= k < i ==> dst[k] == src[src.Length - 1 - k]
        invariant forall c :: 0 <= c < ch ==> rev.channels[c][..] == Reversed(buf.channels[c][..])
      {
        dst[i] := src[j];
        i, j := i + 1, j - 1;
      }
      ReversedIff(src[..], dst[..]);
    }
    forall ch, i | 0 <= ch < |buf.channels| && 0 <= i < buf.length
      ensures rev.channels[ch][i] == buf.channels[ch][buf.length - 1 - i]
    {
      ReversedAt(buf.channels[ch][..], i);
    }
  }
}

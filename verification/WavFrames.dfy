/** How a complete WAV segment is cut into frames for the sender. */
module WavFrames {
  import opened VoiceTypes

  function Concat(frames: seq<Bytes>): Bytes {
    if frames == [] then [] else Concat(frames[..|frames| - 1]) + frames[|frames| - 1]
  }

  function Zeros(n: nat): Bytes {
    seq(n, _ => 0)
  }

  /** Zero bytes added behind `n` bytes of PCM: two for each byte missing from the last frame. */
  function Padding(n: nat, target: nat): nat
    requires target > 0
  {
    if n % target == 0 then 0 else 2 * (target - n % target)
  }

  lemma ConcatSnoc(frames: seq<Bytes>, last: Bytes)
    ensures Concat(frames + [last]) == Concat(frames) + last
  {
    assert (frames + [last])[..|frames|] == frames;
  }

  /** `frames` are the first `i` bytes in whole frames, or all of them with the padding. */
  ghost predicate Cut(pcm: Bytes, target: nat, i: nat, frames: seq<Bytes>)
    requires target > 0
  {
    && i < |pcm| + target && i % target == 0 && (i == 0 <==> frames == [])
    && Concat(frames) == (if i <= |pcm| then pcm[..i] else pcm + Zeros(2 * (i - |pcm|)))
    && (forall k :: 0 <= k < |frames| - 1 ==> |frames[k]| == target)
    && (frames != [] ==> |frames[|frames| - 1]| == if i <= |pcm| then target else target + i - |pcm|)
  }

  function FrameAt(pcm: Bytes, target: nat, i: nat): Bytes
    requires i <= |pcm|
  {
    var frame := if i + target <= |pcm| then pcm[i..i + target] else pcm[i..];
    if |frame| < target then frame + Zeros(2 * (target - |frame|)) else frame
  }

  lemma CutNext(pcm: Bytes, target: nat, i: nat, frames: seq<Bytes>)
    requires target > 0 && i < |pcm| && Cut(pcm, target, i, frames)
    ensures Cut(pcm, target, i + target, frames + [FrameAt(pcm, target, i)])
  {
    var frame := FrameAt(pcm, target, i);
    ConcatSnoc(frames, frame);
    NextMultiple(i, target);
    if i + target <= |pcm| {
      assert pcm[..i] + frame == pcm[..i + target];
    } else {
      assert pcm[..i] + frame == pcm + Zeros(2 * (i + target - |pcm|));
    }
  }

  lemma NextMultiple(i: nat, target: nat)
    requires target > 0 && i % target == 0
    ensures (i + target) % target == 0
  {
    Division(i + target, i / target + 1, 0, target);
  }

  lemma CutEnds(pcm: Bytes, target: nat, i: nat, frames: seq<Bytes>)
    requires target > 0 && i >= |pcm| && Cut(pcm, target, i, frames)
    ensures Concat(frames) == pcm + Zeros(Padding(|pcm|, target))
    ensures (forall k :: 0 <= k < |frames| ==> |frames[k]| == target) <==> |pcm| % target == 0
  {
    if i > |pcm| {
      Division(|pcm|, i / target - 1, |pcm| - (i - target), target);
    } else {
      assert pcm[..i] == pcm && Zeros(0) == [];
    }
  }

  /** The frames of a segment, joined, are its PCM followed only by silence. They
      all have the target size exactly when the PCM divides evenly; otherwise the
      last one is longer, not equal. */
  method SplitFrames(pcm: Bytes, target: nat) returns (frames: seq<Bytes>)
    requires target > 0
    ensures Concat(frames) == pcm + Zeros(Padding(|pcm|, target))
    ensures forall k :: 0 <= k < |frames| - 1 ==> |frames[k]| == target
    ensures (forall k :: 0 <= k < |frames| ==> |frames[k]| == target) <==> |pcm| % target == 0
  {
    frames := [];
    var i := 0;
    while i < |pcm|
      invariant 0 <= i && Cut(pcm, target, i, frames)
      decreases |pcm| - i
    {
      CutNext(pcm, target, i, frames);
      var frame := if i + target <= |pcm| then pcm[i..i + target] else pcm[i..];
      if |frame| < target {
        frame := frame + Zeros(2 * (target - |frame|));
      }
      frames := frames + [frame];
      i := i + target;
    }
    CutEnds(pcm, target, i, frames);
  }

  lemma Division(n: int, q: int, r: int, d: int)
    requires 0 <= r < d && n == q * d + r
    ensures n % d == r
  {
    assert n == d * (n / d) + n % d;
    assert d * (n / d - q) == r - n % d;
    Multiple(d, n / d - q);
  }

  lemma Multiple(d: int, k: int)
    requires d > 0
    ensures k >= 1 ==> d * k >= d
    ensures k <= -1 ==> d * k <= -d
  {}
}

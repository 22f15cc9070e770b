/**
 * `ensure_3d_tensor` on the shape of a waveform tensor. The samples play no
 * part in the rule, so a tensor is modelled by its shape: one size per
 * dimension, outermost first.
 */
module TensorShape {

  type Shape = seq<nat>

  /** `tensor.unsqueeze(0)`: a new leading dimension of size 1. */
  function Unsqueeze(s: Shape): (r: Shape)
    ensures |r| == |s| + 1 && r[0] == 1 && r[1..] == s
    ensures NumElements(r) == NumElements(s)
  {
    assert ([1] + s)[1..] == s;
    [1] + s
  }

  /** `tensor.squeeze()`: every dimension of size 1 removed, the others kept in order. */
  function Squeeze(s: Shape): (r: Shape)
    ensures 1 !in r
    ensures |r| <= |s|
  {
    if s == [] then []
    else if s[0] == 1 then Squeeze(s[1..])
    else [s[0]] + Squeeze(s[1..])
  }

  /** `tensor.squeeze(0)`: the leading dimension removed only when its size is 1. */
  function SqueezeLeading(s: Shape): (r: Shape)
    ensures |r| < |s| <==> s != [] && s[0] == 1
    ensures |r| < |s| ==> s == [1] + r
    ensures |r| >= |s| ==> r == s
    ensures NumElements(r) == NumElements(s)
  {
    if s != [] && s[0] == 1 then s[1..] else s
  }

  /** `tensor.numel()`: the number of samples; a rank-0 tensor holds one. */
  function NumElements(s: Shape): nat
  {
    if s == [] then 1 else s[0] * NumElements(s[1..])
  }

  /** `ensure_3d_tensor`. */
  function Ensure3D(s: Shape): (r: Shape)
    ensures NumElements(r) == NumElements(s)
    ensures |r| == 3 <==> (1 <= |s| <= 3 || (|s| > 3 && |Squeeze(s)| == 2))
  {
    if |s| == 1 then
      Unsqueeze(Unsqueeze(s))
    else if |s| == 2 then
      Unsqueeze(s)
    else if |s| > 3 then
      SqueezeKeepsElements(s);
      Unsqueeze(Squeeze(s))
    else
      s
  }

  /** Squeezing distributes over concatenation, so it keeps the order of the dimensions it keeps. */
  lemma {:induction false} SqueezeAppend(s: Shape, t: Shape)
    ensures Squeeze(s + t) == Squeeze(s) + Squeeze(t)
    decreases |s|
  {
    if s != [] {
      assert (s + t)[0] == s[0];
      assert (s + t)[1..] == s[1..] + t;
      SqueezeAppend(s[1..], t);
    } else {
      assert s + t == t;
    }
  }

  /** A shape with no dimension of size 1 is left as it is. */
  lemma {:induction false} SqueezeWithoutUnitDimensions(s: Shape)
    requires 1 !in s
    ensures Squeeze(s) == s
    decreases |s|
  {
    if s != [] {
      assert s[0] in s;
      assert forall x :: x in s[1..] ==> x in s;
      SqueezeWithoutUnitDimensions(s[1..]);
      assert [s[0]] + s[1..] == s;
    }
  }

  /** Dropping a dimension of size 1 never changes the number of samples. */
  lemma {:induction false} SqueezeKeepsElements(s: Shape)
    ensures NumElements(Squeeze(s)) == NumElements(s)
    decreases |s|
  {
    if s != [] {
      SqueezeKeepsElements(s[1..]);
      if s[0] != 1 {
        assert ([s[0]] + Squeeze(s[1..]))[1..] == Squeeze(s[1..]);
      }
    }
  }

  /** A rank-1 waveform `[n]` becomes `[1, 1, n]`. */
  lemma Ensure3DRank1(n: nat)
    ensures Ensure3D([n]) == [1, 1, n]
  {
  }

  /** A rank-2 waveform `[a, b]` becomes `[1, a, b]`. */
  lemma Ensure3DRank2(a: nat, b: nat)
    ensures Ensure3D([a, b]) == [1, a, b]
  {
  }

  /** Rank-0 and rank-3 tensors pass through unchanged. */
  lemma Ensure3DKeepsRank0And3(s: Shape)
    requires |s| == 0 || |s| == 3
    ensures Ensure3D(s) == s
  {
  }

  /**
   * Above rank 3 the result is a leading 1 followed by the dimensions other
   * than 1 in their original order; its rank is one more than their number.
   */
  lemma {:induction false} Ensure3DHighRank(s: Shape, t: Shape)
    requires |s + t| > 3
    ensures Ensure3D(s + t) == [1] + Squeeze(s) + Squeeze(t)
    ensures |Ensure3D(s + t)| == 1 + |Squeeze(s)| + |Squeeze(t)|
  {
    SqueezeAppend(s, t);
    assert Ensure3D(s + t) == [1] + Squeeze(s + t);
  }

  /** The rule does not reach rank 3 for every input of rank above 3. */
  lemma Ensure3DNotAlwaysRank3()
    ensures Ensure3D([2, 2, 2, 2]) == [1, 2, 2, 2, 2]
    ensures Ensure3D([1, 1, 1, 1]) == [1]
  {
    var s: Shape := [2, 2, 2, 2];
    assert s[1..] == [2, 2, 2];
    assert s[1..][1..] == [2, 2];
    assert s[1..][1..][1..] == [2];
    assert s[1..][1..][1..][1..] == [];
    var u: Shape := [1, 1, 1, 1];
    assert u[1..] == [1, 1, 1];
    assert u[1..][1..] == [1, 1];
    assert u[1..][1..][1..] == [1];
    assert u[1..][1..][1..][1..] == [];
  }

  /**
   * Applying the rule twice is the same as applying it once exactly when its
   * first result is not of rank 1 or 2 (which only a rank above 3 can give).
   */
  lemma Ensure3DIdempotent(s: Shape)
    ensures Ensure3D(Ensure3D(s)) == Ensure3D(s) <==> |Ensure3D(s)| != 1 && |Ensure3D(s)| != 2
  {
    var r := Ensure3D(s);
    if |s| > 3 && |r| > 3 {
      var q := Squeeze(s);
      SqueezeWithoutUnitDimensions(q);
      assert Squeeze(r) == Squeeze(q) by {
        assert r == [1] + q;
        assert r[1..] == q;
      }
    }
  }

  /**
   * What `generate_speech` hands to the WAV encoder on the speech-to-speech
   * path, `ensure_3d_tensor(w).squeeze(0)`: a waveform of rank 1 or 2 arrives
   * as a (channels, frames) pair.
   */
  lemma EncoderShapeOfLowRanks(s: Shape)
    requires |s| == 1 || |s| == 2
    ensures |SqueezeLeading(Ensure3D(s))| == 2
    ensures |s| == 1 ==> SqueezeLeading(Ensure3D(s)) == [1, s[0]]
    ensures |s| == 2 ==> SqueezeLeading(Ensure3D(s)) == s
  {
  }
}

/** Two-component vectors as the renderer's `[f32; 2]` fields hold them.
    Coordinates are exact reals: f32 rounding is not part of the model. */
module Coords {

  /** A `[f32; 2]`: exactly two components, x first. */
  type Float2 = s: seq<real> | |s| == 2 witness [0.0, 0.0]

  /** The array `[p.0, p.1]` built from a tuple argument. */
  function FromPair(p: (real, real)): (v: Float2)
    ensures ToPair(v) == p
  {
    [p.0, p.1]
  }

  /** The tuple view of an array, the inverse of FromPair. */
  function ToPair(v: Float2): (p: (real, real))
  {
    (v[0], v[1])
  }

  lemma PairRoundTrip(v: Float2)
    ensures FromPair(ToPair(v)) == v
  {
  }
}

/** The Werner-state factory, the unilateral y rotation and the probabilistic BXOR. */
module Operations {
  import opened Results
  import opened RealSeq
  import opened EntangledState

  /** The slot a Python list index names: a negative index counts back from the end. */
  function Slot(bellState: int): (i: nat)
    requires -4 <= bellState < 4
    ensures i < 4 && (i == bellState || i == bellState + 4)
  {
    if bellState < 0 then bellState + 4 else bellState
  }

  /**
   * `werner_norm(F, bell_state)`: the weights of a Werner state that is mostly the given
   * Bell state. The slot `bell_state` holds F, the other three share 1 - F equally,
   * so the weights sum to exactly 1 for every F.
   */
  function WernerNorm(F: real, bellState: int): (norm: Weights)
    requires -4 <= bellState < 4
    ensures norm[Slot(bellState)] == F
    ensures forall j :: 0 <= j < 4 && j != Slot(bellState) ==> norm[j] == (1.0 - F) / 3.0
    ensures Sum(norm) == 1.0
  {
    var rest := (1.0 - F) / 3.0;
    var norm := [rest, rest, rest, rest][Slot(bellState) := F];
    Sum4(norm);
    norm
  }

  /** Werner weights pass the initializer's sum check for every F and every accepted epsilon. */
  lemma {:induction false} WernerNormValidates(F: real, bellState: int, epsilon: real)
    requires -4 <= bellState < 4
    requires 0.0 <= epsilon <= MAX_EPSILON
    ensures Validate(WernerNorm(F, bellState), epsilon) == Pass
  {
    var norm := WernerNorm(F, bellState);
    assert Sum(norm) == 1.0;
  }

  /** The weights after `uni_y_rot`: slots 0 and 2 trade places, and so do slots 1 and 3. */
  function YRotated(w: Weights): Weights
  {
    [w[2], w[3], w[0], w[1]]
  }

  /** Rotating twice restores the original weights. */
  lemma {:induction false} YRotatedInvolution(w: Weights)
    ensures YRotated(YRotated(w)) == w
  {
  }

  /** The rotation only permutes the weights: same multiset, same sum, same validation outcome. */
  lemma {:induction false} YRotatedPermutes(w: Weights, epsilon: real)
    ensures multiset(YRotated(w)) == multiset(w)
    ensures Sum(YRotated(w)) == Sum(w)
    ensures Validate(YRotated(w), epsilon) == Validate(w, epsilon)
  {
    var r := YRotated(w);
    assert w == [w[0], w[1], w[2], w[3]];
    calc {
      multiset(r);
      multiset{w[2], w[3], w[0], w[1]};
      multiset{w[0], w[1], w[2], w[3]};
      multiset(w);
    }
    Sum4(w);
    Sum4(r);
  }

  /** Rotating the mostly-psi- Werner state gives the mostly-phi+ Werner state, and back. */
  lemma {:induction false} YRotatedWerner(F: real)
    ensures YRotated(WernerNorm(F, 0)) == WernerNorm(F, 2)
    ensures YRotated(WernerNorm(F, 2)) == WernerNorm(F, 0)
  {
    var a, b := WernerNorm(F, 0), WernerNorm(F, 2);
    assert a[0] == F && a[1] == a[2] == a[3] == (1.0 - F) / 3.0;
    assert b[2] == F && b[0] == b[1] == b[3] == (1.0 - F) / 3.0;
  }

  /** The pure psi+ state rotates to the pure phi- state. */
  lemma {:induction false} YRotatedPsiPlus()
    ensures YRotated([0.0, 1.0, 0.0, 0.0]) == [0.0, 0.0, 0.0, 1.0]
  {
  }

  /** `uni_y_rot(state)`: swaps the state's own weight list in place. */
  method UniYRot(state: DiagonalState)
    requires state.Valid()
    modifies state.normalization
    ensures state.normalization[..] == YRotated(old(state.normalization[..]))
    ensures state.Normalized() <==> old(state.Normalized())
  {
    var n := state.normalization;
    ghost var before: Weights := n[..];
    n[1], n[3] := n[3], n[1];
    n[0], n[2] := n[2], n[0];
    assert n[..] == YRotated(before);
    YRotatedPermutes(before, state.epsilon);
  }

  /** The BXOR acceptance rule: the draw falls below the product of the two triplet2 weights. */
  predicate Keeps(source: Weights, target: Weights, draw: real)
  {
    draw < source[2] * target[2]
  }

  /**
   * `bxor(source, target)` given its random draw: the source object itself when the pair
   * survives, otherwise None. Neither operand is changed, and the target is never returned.
   */
  function Bxor(source: DiagonalState, target: DiagonalState, draw: real): (kept: Option<DiagonalState>)
    requires source.Valid() && target.Valid()
    reads source.normalization, target.normalization
    ensures kept.Some? <==> draw < source.normalization[2] * target.normalization[2]
    ensures kept.Some? ==> kept.value == source
  {
    if Keeps(source.normalization[..], target.normalization[..], draw) then Some(source) else None
  }

  /** A pair in which either state has no triplet2 weight never survives. */
  lemma {:induction false} KeepsNeverWithoutTriplet2(source: Weights, target: Weights, draw: real)
    requires 0.0 <= draw
    requires source[2] == 0.0 || target[2] == 0.0
    ensures !Keeps(source, target, draw)
  {
  }

  /** A pair of pure triplet2 states always survives, because every draw is below 1. */
  lemma {:induction false} KeepsCertain(source: Weights, target: Weights, draw: real)
    requires draw < 1.0
    requires source[2] == 1.0 && target[2] == 1.0
    ensures Keeps(source, target, draw)
  {
  }
}

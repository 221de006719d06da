/**
 * A two-qubit state that is diagonal in the Bell basis: four mixture weights over
 * [singlet psi-, triplet1 psi+, triplet2 phi+, triplet3 phi-], validated on construction.
 */
module EntangledState {
  import opened Results
  import opened RealSeq
  import opened QuantumErrors

  /** Four Bell-basis weights, in the order [singlet, triplet1, triplet2, triplet3]. */
  type Weights = w: seq<real> | |w| == 4 witness [1.0, 0.0, 0.0, 0.0]

  /** The largest epsilon the initializer accepts (the check is `epsilon > 0.1`). */
  const MAX_EPSILON: real := 0.1

  /** The initializer's default tolerance. */
  const DEFAULT_EPSILON: real := 0.01

  /** The initializer's default weights: the pure singlet. */
  const SINGLET: Weights := [1.0, 0.0, 0.0, 0.0]

  /**
   * The checks the initializer makes, in its order: the length first, then epsilon,
   * then the sum of the weights against the closed window [1 - epsilon, 1 + epsilon].
   * The individual weights are not range-checked.
   */
  function Validate(normalization: seq<real>, epsilon: real): Outcome<StateError>
  {
    if |normalization| != 4 then Fail(NormalizationError(WrongLength))
    else if epsilon > MAX_EPSILON then Fail(ToleranceError)
    else if 1.0 + epsilon < Sum(normalization) || Sum(normalization) < 1.0 - epsilon then
      Fail(NormalizationError(OutsideTolerance))
    else Pass
  }

  /** Fidelity with the singlet: for a Bell-diagonal state, the singlet weight. */
  function SingletWeight(w: Weights): real
  {
    w[0]
  }

  class DiagonalState {
    /** The weight list, held by reference: the caller's list is stored, not a copy. */
    const normalization: array<real>
    const epsilon: real

    /** Every constructed state holds exactly four weights. */
    predicate Valid()
    {
      normalization.Length == 4
    }

    /** The weights still pass the initializer's sum check (in-place updates may change them). */
    ghost predicate Normalized()
      reads normalization
    {
      Validate(normalization[..], epsilon) == Pass
    }

    /** The initializer once validation has passed: stores the given list and epsilon. */
    constructor Init(normalization: array<real>, epsilon: real)
      requires Validate(normalization[..], epsilon) == Pass
      ensures this.normalization == normalization && this.epsilon == epsilon
      ensures Valid() && Normalized()
    {
      this.normalization := normalization;
      this.epsilon := epsilon;
    }

    /**
     * `DiagonalState(normalization, epsilon)`: validates, then stores the list itself;
     * a failed check yields the error the initializer raises.
     */
    static method Create(normalization: array<real>, epsilon: real)
      returns (r: Result<DiagonalState, StateError>)
      ensures r.Ok? <==> Validate(normalization[..], epsilon) == Pass
      ensures r.Err? ==> Validate(normalization[..], epsilon) == Fail(r.error)
      ensures r.Ok? ==> fresh(r.value) && r.value.Valid() && r.value.Normalized()
      ensures r.Ok? ==> r.value.normalization == normalization && r.value.epsilon == epsilon
      ensures r.Ok? ==> r.value.Fidelity() == normalization[0]
    {
      var outcome := Validate(normalization[..], epsilon);
      if outcome.Fail? {
        r := Err(outcome.error);
      } else {
        var s := new DiagonalState.Init(normalization, epsilon);
        r := Ok(s);
      }
    }

    /**
     * `DiagonalState()` with each call receiving its own singlet list; this is what the
     * defaults evidently intend (see DefaultArgument for the code as written).
     */
    static method Default() returns (s: DiagonalState)
      ensures fresh(s) && fresh(s.normalization) && s.Valid() && s.Normalized()
      ensures s.normalization[..] == SINGLET && s.epsilon == DEFAULT_EPSILON
      ensures s.Fidelity() == 1.0
    {
      var list := new real[4][1.0, 0.0, 0.0, 0.0];
      assert list[..] == SINGLET;
      Sum4(list[..]);
      s := new DiagonalState.Init(list, DEFAULT_EPSILON);
    }

    /** Fidelity with the singlet: the current singlet weight. */
    function Fidelity(): real
      requires Valid()
      reads normalization
    {
      SingletWeight(normalization[..])
    }
  }

  /** The length is checked before epsilon: a wrong length is reported whatever epsilon is. */
  lemma {:induction false} LengthCheckedFirst(normalization: seq<real>, epsilon: real)
    ensures |normalization| != 4 <==> Validate(normalization, epsilon) == Fail(NormalizationError(WrongLength))
  {
  }

  /** ToleranceError exactly when the length is right and epsilon is above 0.1. */
  lemma {:induction false} ToleranceErrorExactly(normalization: seq<real>, epsilon: real)
    ensures Validate(normalization, epsilon) == Fail(ToleranceError)
        <==> |normalization| == 4 && epsilon > MAX_EPSILON
  {
  }

  /** A four-weight list is accepted iff 1 - epsilon <= sum <= 1 + epsilon, both bounds inclusive. */
  lemma {:induction false} AcceptedIff(normalization: seq<real>, epsilon: real)
    requires |normalization| == 4 && epsilon <= MAX_EPSILON
    ensures Validate(normalization, epsilon) == Pass
        <==> 1.0 - epsilon <= normalization[0] + normalization[1] + normalization[2] + normalization[3] <= 1.0 + epsilon
    ensures Validate(normalization, epsilon) != Pass
        ==> Validate(normalization, epsilon) == Fail(NormalizationError(OutsideTolerance))
  {
    Sum4(normalization);
  }

  /** A negative epsilon leaves an empty window: every four-weight list is rejected. */
  lemma {:induction false} NegativeEpsilonRejects(normalization: Weights, epsilon: real)
    requires epsilon < 0.0
    ensures Validate(normalization, epsilon) == Fail(NormalizationError(OutsideTolerance))
  {
  }

  /** Concrete cases: a five-weight list with epsilon 0.3, epsilon 0.1 and 0.15, sums 1.2 and
      an out-of-range but summing-to-one list. */
  lemma {:induction false} ValidationExamples()
    ensures Validate([1.0, 0.0, 0.0, 1.0, 2.0], 0.3) == Fail(NormalizationError(WrongLength))
    ensures Validate(SINGLET, MAX_EPSILON) == Pass
    ensures Validate(SINGLET, 0.15) == Fail(ToleranceError)
    ensures Validate([1.2, 0.0, 0.0, 0.0], DEFAULT_EPSILON) == Fail(NormalizationError(OutsideTolerance))
    ensures Validate([1.5, -0.5, 0.0, 0.0], DEFAULT_EPSILON) == Pass
  {
    Sum4(SINGLET);
    Sum4([1.2, 0.0, 0.0, 0.0]);
    Sum4([1.5, -0.5, 0.0, 0.0]);
  }

  /** The default singlet has fidelity 1, the pure triplet1 state fidelity 0. */
  lemma {:induction false} FidelityExamples()
    ensures SingletWeight(SINGLET) == 1.0
    ensures SingletWeight([0.0, 1.0, 0.0, 0.0]) == 0.0
  {
  }
}

/**
 * The initializer's default weight list as the code has it. A default argument value is
 * evaluated once, when the initializer is defined, so every `DiagonalState()` call that
 * omits the list receives the same list object, and the state stores it by reference.
 * Rotating one default state in place therefore changes the defaults of every later one.
 */
module DefaultArgument {
  import opened Results
  import opened RealSeq
  import opened QuantumErrors
  import opened EntangledState
  import opened Operations

  /** The initializer's default values: one weight list, allocated once and then shared. */
  class InitializerDefaults {
    const normalization: array<real>

    constructor ()
      ensures fresh(normalization) && normalization[..] == SINGLET
    {
      normalization := new real[4][1.0, 0.0, 0.0, 0.0];
    }
  }

  /** `DiagonalState()` as written: validates and stores the shared default list itself. */
  method CreateWithSharedDefault(defaults: InitializerDefaults) returns (r: Result<DiagonalState, StateError>)
    ensures r.Ok? <==> Validate(defaults.normalization[..], DEFAULT_EPSILON) == Pass
    ensures r.Ok? ==> fresh(r.value) && r.value.Valid() && r.value.epsilon == DEFAULT_EPSILON
    ensures r.Ok? ==> r.value.normalization == defaults.normalization
    ensures r.Ok? ==> r.value.Fidelity() == defaults.normalization[0]
  {
    r := DiagonalState.Create(defaults.normalization, DEFAULT_EPSILON);
  }

  /**
   * As written: a default state has fidelity 1, but once it is rotated the next default
   * state is built from the rotated list, the pure phi+ state, and has fidelity 0.
   */
  method SharedDefaultWitness() returns (first: real, second: real)
    ensures first == 1.0 && second == 0.0
  {
    var defaults := new InitializerDefaults();
    Sum4(SINGLET);
    var ra := CreateWithSharedDefault(defaults);
    var a := ra.value;
    first := a.Fidelity();
    UniYRot(a);
    assert defaults.normalization[..] == [0.0, 0.0, 1.0, 0.0];
    Sum4([0.0, 0.0, 1.0, 0.0]);
    var rb := CreateWithSharedDefault(defaults);
    second := rb.value.Fidelity();
  }

  /**
   * Corrected: every default state gets its own singlet list, so rotating one leaves the
   * next default state a singlet with fidelity 1.
   */
  method FreshDefaultWitness() returns (first: real, second: real)
    ensures first == 1.0 && second == 1.0
  {
    var a := DiagonalState.Default();
    first := a.Fidelity();
    UniYRot(a);
    var b := DiagonalState.Default();
    second := b.Fidelity();
  }
}

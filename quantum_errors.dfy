/** The two exception classes a Bell-diagonal state's constructor raises. */
module QuantumErrors {

  /** Which of the two `NormalizationError` raises fired. */
  datatype NormalizationCause =
    | WrongLength        // the weight list does not have four entries
    | OutsideTolerance   // the weights do not sum to 1 within epsilon

  datatype StateError =
    | NormalizationError(cause: NormalizationCause)
    | ToleranceError     // epsilon is above 0.1
}

/** Definitions by products and congruences that proofs use only on demand: each of them holds its meaning behind a
    quantifier that is instantiated where Open is mentioned for it. */
module Notions {

  /** One for each such definition, named after it. */
  datatype Topic =
    OfCongruent | OfIs | OfProd | OfWithin | OfAt | OfScaled | OfTangent | OfTangentLaw | OfPowersOfK | OfChordLaw |
    OfAtGe | OfAtGeZ | OfReciprocal | OfOnCurve | OfChordQuotient | OfUnifiedQuotient | OfNumerator | OfLineLaw |
    OfFourth | OfModProd | OfFold | OfReached | OfAfter | OfCheck | OfOnChord

  /** Names a use of a definition; always true. */
  predicate Open(k: Topic, u: int) {
    true
  }

  /** Names a use of all of them. */
  predicate Opened() {
    && Open(OfCongruent, 0) && Open(OfIs, 0) && Open(OfProd, 0) && Open(OfWithin, 0) && Open(OfAt, 0)
    && Open(OfScaled, 0) && Open(OfTangent, 0) && Open(OfTangentLaw, 0) && Open(OfPowersOfK, 0) && Open(OfChordLaw, 0)
    && Open(OfAtGe, 0) && Open(OfAtGeZ, 0) && Open(OfReciprocal, 0) && Open(OfOnCurve, 0) && Open(OfChordQuotient, 0)
    && Open(OfUnifiedQuotient, 0) && Open(OfNumerator, 0) && Open(OfLineLaw, 0) && Open(OfFourth, 0)
    && Open(OfModProd, 0) && Open(OfFold, 0) && Open(OfReached, 0) && Open(OfAfter, 0) && Open(OfCheck, 0) && Open(OfOnChord, 0)
  }
}

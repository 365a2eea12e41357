/**
 * The value class that carries one recognition result through the scanner
 * screens (demo2's com.moodstocks.android.Result), and the result-type codes
 * of the com.moodstocks.android demo apps (MSResultType).
 */
module Results {

  /** MSResultType: the type code of a scanning result. */
  const NONE: int := -1
  const IMAGE: int := 0
  const EAN8: int := 1
  const EAN13: int := 2
  const QRCODE: int := 3

  /**
   * A result is a type code and the recognised value (an image id or the
   * decoded barcode text). Both are set once, by the constructor, and the
   * accessors `kind` and `value` return them unchanged.
   */
  datatype Result = Result(kind: int, value: string)

  /** `self.equals(other)`: same type code and the same value string. */
  predicate Equals(self: Result, other: Result)
  {
    other.kind == self.kind && other.value == self.value
  }

  /** equals compares exactly the two fields, so it is value identity. */
  lemma EqualsIsStructural(a: Result, b: Result)
    ensures Equals(a, b) <==> a == b
  {
  }

  lemma EqualsIsReflexive(a: Result)
    ensures Equals(a, a)
  {
  }

  lemma EqualsIsSymmetric(a: Result, b: Result)
    ensures Equals(a, b) <==> Equals(b, a)
  {
  }

  lemma EqualsIsTransitive(a: Result, b: Result, c: Result)
    requires Equals(a, b) && Equals(b, c)
    ensures Equals(a, c)
  {
  }

  /** The accessors give back what the constructor was given. */
  lemma AccessorsReturnArguments(kind: int, value: string)
    ensures Result(kind, value).kind == kind
    ensures Result(kind, value).value == value
    ensures Equals(Result(kind, value), Result(kind, value))
  {
  }
}

/**
 * What the host's G-code parser hands to an M-code plugin: the parameter
 * words of one block (a presence flag and a float value per letter), the
 * M-code numbers and the status codes a plugin may return or raise as alarms.
 */
module GCode {

  /** A parameter value as the parser stores it: a C float. Infinities are not modelled. */
  datatype Float = NaN | Num(x: real)

  /** `isintf`: the value is a whole number, which converting it to an integer leaves unchanged (false for NaN). */
  predicate IsInt(f: Float): (b: bool)
    ensures b <==> f.Num? && Trunc(f) as real == f.x
  {
    match f
    case NaN => false
    case Num(x) => TruncExact(x); x.Floor as real == x
  }

  /** A number is whole exactly when truncating it loses nothing. */
  lemma TruncExact(x: real)
    ensures x.Floor as real == x <==> Trunc(Num(x)) as real == x
  {
    if x < 0.0 {
      var k := (-x).Floor;
      assert Trunc(Num(x)) == -k;
      if x.Floor as real == x {
        assert (-x).Floor == -x.Floor;
      }
      if (-k) as real == x {
        assert x.Floor == -k;
      }
    }
  }

  /** `isnanf`: the one value that is neither below, above nor equal to zero. */
  predicate IsNaN(f: Float): (b: bool)
    ensures b <==> !Below(f, 0.0) && !Above(f, 0.0) && !Equals(f, 0.0)
  {
    f.NaN?
  }

  /** The C comparison `f < c`, false when f is NaN. */
  predicate Below(f: Float, c: real) {
    f.Num? && f.x < c
  }

  /** The C comparison `f > c`, false when f is NaN. */
  predicate Above(f: Float, c: real) {
    f.Num? && f.x > c
  }

  /** The C comparison `f == c`, false when f is NaN. */
  predicate Equals(f: Float, c: real) {
    f.Num? && f.x == c
  }

  /** Passes a C range test written `f < lo || f > hi`; a NaN passes it, as in C. */
  predicate Within(f: Float, lo: real, hi: real): (b: bool)
    ensures b <==> IsNaN(f) || lo <= f.x <= hi
  {
    !(Below(f, lo) || Above(f, hi))
  }

  /**
   * The C conversion of a float to an integer type: truncation toward zero.
   * Converting NaN is undefined in C; the model picks 0.
   */
  function Trunc(f: Float): (n: int)
    ensures f.Num? && 0.0 <= f.x ==> 0 <= n && n as real <= f.x < n as real + 1.0
    ensures f.Num? && f.x < 0.0 ==> n <= 0 && n as real - 1.0 < f.x <= n as real
  {
    match f
    case NaN => 0
    case Num(x) => if x >= 0.0 then x.Floor else -((-x).Floor)
  }

  /** Status codes of the host (status_code_t) that this engine returns or raises. */
  datatype Status =
    | OK
    | BadNumberFormat
    | GcodeValueWordMissing
    | GcodeValueOutOfRange
    | Unhandled
    | GCodeTimeout
    | ExpressionInvalidResult

  /** User M-codes (user_mcode_t): M101 and M102 are the two this engine owns. */
  const Generic1: int := 101
  const Generic2: int := 102
  /** UserMCode_Ignore: "no plugin handles this M-code". */
  const Ignore: int := 0

  /** Presence flags of the parameter words this engine reads (parameter_words_t). */
  datatype Words = Words(d: bool, e: bool, p: bool, q: bool, r: bool)

  /** The values of those words (gc_values_t); a value is kept even when its word is absent. */
  datatype Values = Values(d: Float, e: Float, p: Float, q: Float, r: Float)

  /** The parser's block (parser_block_t): validation claims words and may rewrite Q in place. */
  class ParserBlock {
    var userMCode: int
    var words: Words
    var values: Values

    constructor (mcode: int, words: Words, values: Values)
      ensures userMCode == mcode && this.words == words && this.values == values
    {
      userMCode := mcode;
      this.words := words;
      this.values := values;
    }
  }
}

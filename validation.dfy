/**
 * What mbio_validate decides for a block: a status, the words it claims and
 * the values it rewrites; and the handlers a previously installed plugin
 * left, to which any other M-code is passed on.
 */
module Validation {
  import opened Wrappers
  import opened GCode

  /** The outcome of validating a block: status, words and values afterwards. */
  datatype Verdict = Verdict(status: Status, words: Words, values: Values)

  /** A previously installed validator, seen through what it can read and change of the block. */
  type Validator = (int, Words, Values) -> Verdict

  /**
   * The check/validate/execute handlers this engine passes other M-codes to
   * (user_mcode). Only the executor's presence matters here: what it does is
   * outside this model.
   */
  datatype Handlers = Handlers(check: Option<int -> int>, validate: Option<Validator>, execute: bool)

  /** A zero-initialised user_mcode: no previous handler of any kind. */
  const NoHandlers: Handlers := Handlers(None, None, false)

  /** The M-codes this engine owns. */
  predicate Owned(mcode: int) {
    mcode == Generic1 || mcode == Generic2
  }

  /** M101's structural test: D, E and P present whole numbers, and Q, if present, a whole number. */
  predicate M101Malformed(w: Words, v: Values) {
    !w.d || !IsInt(v.d) || !w.e || !IsInt(v.e) || !w.p || !IsInt(v.p) || (w.q && !IsInt(v.q))
  }

  /** E names one of the six supported functions. */
  predicate IsSupportedFunction(e: Float) {
    e == Num(1.0) || e == Num(2.0) || e == Num(3.0) || e == Num(4.0) || e == Num(5.0) || e == Num(6.0)
  }

  /**
   * M101's ranges: D in [0, 247], a supported E, P in [1, 9999] and the
   * value of Q in [0, 65535]. Q's value is tested even when the word is
   * absent, and a NaN there passes, as the C comparisons do.
   */
  predicate M101InRange(v: Values) {
    Within(v.d, 0.0, 247.0) && IsSupportedFunction(v.e) && Within(v.p, 1.0, 9999.0) && Within(v.q, 0.0, 65535.0)
  }

  /** M102's structural test: D, P and Q present whole numbers, R present and not NaN. */
  predicate M102Malformed(w: Words, v: Values) {
    !w.d || !IsInt(v.d) || !w.p || !IsInt(v.p) || !w.q || !IsInt(v.q) || !w.r || IsNaN(v.r)
  }

  /** M102's ranges: D in [0, 247], P in [1, 9999], Q in [0, 1] and R (seconds) in [0, 3600]. */
  predicate M102InRange(v: Values) {
    Within(v.d, 0.0, 247.0) && Within(v.p, 1.0, 9999.0) && Within(v.q, 0.0, 1.0) && Within(v.r, 0.0, 3600.0)
  }

  /** This engine's own verdict, before any previous validator is consulted. */
  function OwnVerdict(mcode: int, w: Words, v: Values): (r: Verdict)
    ensures r.status == Unhandled <==> !Owned(mcode)
    ensures r.status in {OK, BadNumberFormat, GcodeValueOutOfRange, Unhandled}
    ensures r.status == Unhandled || r.status == BadNumberFormat ==> r.words == w && r.values == v
    ensures (r.words.d ==> w.d) && (r.words.e ==> w.e) && (r.words.p ==> w.p) && (r.words.q ==> w.q) && (r.words.r ==> w.r)
    ensures r.values == v.(q := r.values.q)
    ensures r.values.q != v.q ==> mcode == Generic1 && r.status == OK && r.values.q == Num(1.0)
  {
    if mcode == Generic1 then
      if M101Malformed(w, v) then Verdict(BadNumberFormat, w, v)
      else
        var claimed := w.(d := false, e := false, p := false, q := false);
        if !M101InRange(v) then Verdict(GcodeValueOutOfRange, claimed, v)
        else if v.e == Num(2.0) || v.e == Num(4.0) then Verdict(OK, claimed, v.(q := Num(1.0)))
        else Verdict(OK, claimed, v)
    else if mcode == Generic2 then
      if M102Malformed(w, v) then Verdict(BadNumberFormat, w, v)
      else
        var claimed := w.(d := false, p := false, q := false, r := false);
        Verdict(if M102InRange(v) then OK else GcodeValueOutOfRange, claimed, v)
    else Verdict(Unhandled, w, v)
  }

  /** The verdict of the whole chain: an unhandled M-code goes to the previous validator, if any. */
  function ValidateChain(mcode: int, w: Words, v: Values, prev: Option<Validator>): (r: Verdict)
    ensures Owned(mcode) ==> r.status != Unhandled && r == OwnVerdict(mcode, w, v)
    ensures !Owned(mcode) && prev.None? ==> r == Verdict(Unhandled, w, v)
  {
    var own := OwnVerdict(mcode, w, v);
    if own.status == Unhandled && prev.Some? then prev.value(mcode, w, v) else own
  }

  /**
   * What the executor may rely on for M101: D, E and P whole numbers in
   * range and Q's value within [0, 65535] (possibly fractional or NaN when
   * the Q word was absent).
   */
  predicate M101Ready(v: Values) {
    && IsInt(v.d) && 0.0 <= v.d.x <= 247.0
    && IsSupportedFunction(v.e)
    && IsInt(v.p) && 1.0 <= v.p.x <= 9999.0
    && Within(v.q, 0.0, 65535.0)
  }

  /** What the executor may rely on for M102: D, P and Q whole numbers in range, R a number of seconds in [0, 3600]. */
  predicate M102Ready(v: Values) {
    && IsInt(v.d) && 0.0 <= v.d.x <= 247.0
    && IsInt(v.p) && 1.0 <= v.p.x <= 9999.0
    && (v.q == Num(0.0) || v.q == Num(1.0))
    && v.r.Num? && 0.0 <= v.r.x <= 3600.0
  }

  /** The contract between validation and execution: what a block that passed validation satisfies. */
  predicate Ready(mcode: int, v: Values) {
    (mcode == Generic1 ==> M101Ready(v)) && (mcode == Generic2 ==> M102Ready(v))
  }

  /**
   * For M101 and M102 the chain never delegates and never reports a missing
   * word: a format error comes first, otherwise the words are claimed and
   * the result is OK exactly when the values are in range, else out of range.
   */
  lemma OwnedCodesStayHere(mcode: int, w: Words, v: Values, prev: Option<Validator>)
    requires Owned(mcode)
    ensures var r := ValidateChain(mcode, w, v, prev);
      && r.status in {OK, BadNumberFormat, GcodeValueOutOfRange}
      && (r.status == BadNumberFormat <==> (if mcode == Generic1 then M101Malformed(w, v) else M102Malformed(w, v)))
      && (r.status == OK <==> !(if mcode == Generic1 then M101Malformed(w, v) else M102Malformed(w, v)) && Ready(mcode, v))
      && (r.status == BadNumberFormat ==> r.words == w && r.values == v)
      && (r.status != BadNumberFormat ==> !r.words.d && !r.words.p && !r.words.q)
      && (mcode == Generic1 && r.status != BadNumberFormat ==> !r.words.e && r.words.r == w.r)
      && (mcode == Generic2 && r.status != BadNumberFormat ==> !r.words.r && r.words.e == w.e)
  {
    if mcode == Generic2 && !M102Malformed(w, v) {
      assert v.q.x.Floor as real == v.q.x;
      assert M102InRange(v) <==> Ready(mcode, v);
    }
  }

  /**
   * A block that validates OK is ready to execute; for E = 2 and E = 4 its
   * Q now holds 1, and otherwise every value is as the parser left it.
   */
  lemma ValidatedBlockIsReady(mcode: int, w: Words, v: Values, prev: Option<Validator>)
    requires Owned(mcode) && ValidateChain(mcode, w, v, prev).status == OK
    ensures var r := ValidateChain(mcode, w, v, prev);
      && Ready(mcode, r.values)
      && (mcode == Generic1 && (v.e == Num(2.0) || v.e == Num(4.0)) ==> r.values == v.(q := Num(1.0)))
      && (mcode == Generic2 || !(v.e == Num(2.0) || v.e == Num(4.0)) ==> r.values == v)
  {
    if mcode == Generic2 {
      assert v.q.x.Floor as real == v.q.x;
      assert v.q.x.Floor == 0 || v.q.x.Floor == 1;
    }
  }

  /** Any other M-code is the previous validator's business, or unhandled when there is none. */
  lemma OtherCodesDelegate(mcode: int, w: Words, v: Values, prev: Option<Validator>)
    requires !Owned(mcode)
    ensures prev.Some? ==> ValidateChain(mcode, w, v, prev) == prev.value(mcode, w, v)
    ensures prev.None? ==> ValidateChain(mcode, w, v, prev) == Verdict(Unhandled, w, v)
  {
  }
}

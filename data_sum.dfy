/**
 * The data-file page: fetches a text of numbers a_1 .. a_11 and computes
 *   S = sum over i = 1..11 of cos(2*a_i) / (1 - sin(2*a_i)),
 * giving up at the first term whose denominator is within 1e-12 of zero or
 * whose value is not finite.
 */
module DataSum {
  import opened JsRuntime
  import opened JsStrings
  import SingleFormula

  /** What the message of a failed calculation reports. */
  datatype Fault =
    | HttpFailure(status: int)
    | WrongCount(count: nat)
    | NonFiniteData
    | SingularTerm(index: nat, value: real)
    | NonFiniteTerm(index: nat)

  /** The fetched response, reduced to what `getData` reads of it. */
  datatype Response = Response(ok: bool, status: int, text: string)

  /** The number of values the file must hold. */
  const Count: nat := 11

  /** The tolerance under which a denominator counts as zero. */
  const Eps: real := 0.000000000001

  /**
   * `text.trim().split(/\s+/)`. Text that is empty or all white space gives
   * one empty token; any other text gives non-empty tokens free of white
   * space that, joined, are exactly the text's other characters, in order.
   * The cuts fall exactly at the white-space runs of the trimmed text: one
   * token more than there are runs, and tokens and runs interleaved give the
   * trimmed text back.
   */
  function Tokens(text: string): (t: seq<string>)
    ensures AllWhiteSpace(text) ==> t == [[]]
    ensures !AllWhiteSpace(text) ==> forall k :: 0 <= k < |t| ==> t[k] != [] && NoWhiteSpace(t[k])
    ensures Concat(t) == RemoveWhiteSpace(text)
    ensures |t| == |WhiteSpaceRuns(Trim(text))| + 1
    ensures Interleave(t, WhiteSpaceRuns(Trim(text))) == Trim(text)
  {
    var s := Trim(text);
    TokensFacts(text);
    SplitOnWhiteSpace(s)
  }

  lemma TokensFacts(text: string)
    ensures AllWhiteSpace(text) ==> SplitOnWhiteSpace(Trim(text)) == [[]]
    ensures !AllWhiteSpace(text) ==> forall k :: 0 <= k < |SplitOnWhiteSpace(Trim(text))| ==>
              SplitOnWhiteSpace(Trim(text))[k] != [] && NoWhiteSpace(SplitOnWhiteSpace(Trim(text))[k])
    ensures Concat(SplitOnWhiteSpace(Trim(text))) == RemoveWhiteSpace(text)
    ensures |SplitOnWhiteSpace(Trim(text))| == |WhiteSpaceRuns(Trim(text))| + 1
    ensures Interleave(SplitOnWhiteSpace(Trim(text)), WhiteSpaceRuns(Trim(text))) == Trim(text)
  {
    var s := Trim(text);
    SplitKeepsContent(s);
    SplitRoundTrip(s);
    if AllWhiteSpace(text) {
      WhiteSpaceTextIsOnePiece(text);
    } else {
      TrimSpec(text);
      SplitTrimmedHasNoEmptyPiece(s);
    }
    TrimmedKeepsContent(text);
  }

  lemma TrimmedKeepsContent(text: string)
    ensures RemoveWhiteSpace(Trim(text)) == RemoveWhiteSpace(text)
  {
    var i := |text| - |TrimStart(text)|;
    TrimParts(text);
    RemoveWhiteSpacePadding(text[..i], Trim(text), text[i + |Trim(text)|..]);
  }

  lemma RemoveWhiteSpacePadding(p: string, s: string, q: string)
    requires AllWhiteSpace(p) && AllWhiteSpace(q)
    ensures RemoveWhiteSpace(p + s + q) == RemoveWhiteSpace(s)
  {
    RemoveWhiteSpaceAppend(p + s, q);
    RemoveWhiteSpaceAppend(p, s);
    RemoveWhiteSpaceOfWhiteSpace(p);
    RemoveWhiteSpaceOfWhiteSpace(q);
  }

  /** `parts.map(parseFloat)`. */
  function ParseAll(parts: seq<string>, parseFloat: string -> Number): (a: seq<Number>)
    ensures |a| == |parts| && forall k :: 0 <= k < |parts| ==> a[k] == parseFloat(parts[k])
  {
    seq(|parts|, k requires 0 <= k < |parts| => parseFloat(parts[k]))
  }

  /**
   * `getData` after the fetch: a failed response is an Error with its
   * status; then the token count must be exactly 11 (a RangeError reporting
   * the count otherwise), and only then must every parsed value be finite (a
   * TypeError otherwise). On success the values come in file order.
   */
  function GetData(res: Response, parseFloat: string -> Number): (r: Result<seq<real>, Fault>)
    ensures !res.ok ==> r == Err(Error, HttpFailure(res.status))
    ensures res.ok && |Tokens(res.text)| != Count ==> r == Err(RangeError, WrongCount(|Tokens(res.text)|))
    ensures res.ok && |Tokens(res.text)| == Count ==>
              (r.Err? <==> exists k :: 0 <= k < Count && ParseAll(Tokens(res.text), parseFloat)[k].NonFinite?)
    ensures res.ok && |Tokens(res.text)| == Count && r.Err? ==> r == Err(TypeError, NonFiniteData)
    ensures r.Ok? ==> |r.value| == Count && forall k :: 0 <= k < Count ==> parseFloat(Tokens(res.text)[k]) == Finite(r.value[k])
  {
    if !res.ok then Err(Error, HttpFailure(res.status))
    else
      var parts := Tokens(res.text);
      var a := ParseAll(parts, parseFloat);
      if |a| != Count then Err(RangeError, WrongCount(|a|))
      else if exists k :: 0 <= k < |a| && a[k].NonFinite? then Err(TypeError, NonFiniteData)
      else Ok(seq(|a|, k requires 0 <= k < |a| => a[k].r))
  }

  /** An empty or blank file is reported as holding one value, not zero. */
  lemma BlankFileCountsOne(text: string, status: int, parseFloat: string -> Number)
    requires AllWhiteSpace(text)
    ensures GetData(Response(true, status, text), parseFloat) == Err(RangeError, WrongCount(1))
  {
  }

  /** The i-th term, as the loop evaluates it, or why it stops there. */
  datatype Term = Singular | Unbounded | Value(t: real)

  function TermOf(ai: real, m: HostMath): Term
  {
    var denom := 1.0 - m.sin(2.0 * ai);
    if Abs(denom) < Eps then Singular
    else match m.div(m.cos(2.0 * ai), denom)
      case NonFinite => Unbounded
      case Finite(t) => Value(t)
  }

  /** The first `n` terms all have a value. */
  predicate Defined(a: seq<real>, n: nat, m: HostMath)
    requires n <= |a|
  {
    forall k :: 0 <= k < n ==> TermOf(a[k], m).Value?
  }

  /** The sum of the first `n` terms, in loop order. */
  function PartialSum(a: seq<real>, n: nat, m: HostMath): real
    requires n <= |a| && Defined(a, n, m)
  {
    if n == 0 then 0.0 else PartialSum(a, n - 1, m) + TermOf(a[n - 1], m).t
  }

  /**
   * The loop of `calculate`, for i = 1 .. 11 over a[i - 1]. It returns the
   * full sum when every term has a value; otherwise it stops at the first
   * index j that has none, with a RangeError naming j + 1 (and a_(j+1) when
   * the denominator is what failed). No partial sum is returned.
   */
  method Summation(a: seq<real>, m: HostMath) returns (r: Result<real, Fault>)
    requires |a| == Count
    ensures r.Ok? <==> Defined(a, Count, m)
    ensures r.Ok? ==> r.value == PartialSum(a, Count, m)
    ensures r.Err? ==> r.kind == RangeError
    ensures r.Err? ==> exists j :: 0 <= j < Count && Defined(a, j, m) && !TermOf(a[j], m).Value? &&
                         (TermOf(a[j], m).Singular? ==> r.info == SingularTerm(j + 1, a[j])) &&
                         (TermOf(a[j], m).Unbounded? ==> r.info == NonFiniteTerm(j + 1))
  {
    var s := 0.0;
    var i := 1;
    while i <= Count
      invariant 1 <= i <= Count + 1
      invariant Defined(a, i - 1, m)
      invariant s == PartialSum(a, i - 1, m)
    {
      var ai := a[i - 1];
      var denom := 1.0 - m.sin(2.0 * ai);
      if Abs(denom) < Eps {
        return Err(RangeError, SingularTerm(i, ai));
      }
      var term := m.div(m.cos(2.0 * ai), denom);
      if term.NonFinite? {
        return Err(RangeError, NonFiniteTerm(i));
      }
      s := s + term.r;
      i := i + 1;
    }
    return Ok(s);
  }

  /**
   * The message prefix, chosen by an else-if chain of `instanceof` tests:
   * the class name for the three named classes and for a plain Error, the
   * generic prefix for a thrown value that is not an Error.
   */
  function ErrorPrefix(e: ErrorClass): (p: string)
    ensures e == RangeError ==> p == "RangeError"
    ensures e == TypeError ==> p == "TypeError"
    ensures e == ReferenceError ==> p == "ReferenceError"
    ensures e == Error ==> p == "Error"
    ensures e == NotAnError ==> p == GenericErrorPrefix
  {
    if InstanceOf(e, RangeError) then "RangeError"
    else if InstanceOf(e, TypeError) then "TypeError"
    else if InstanceOf(e, ReferenceError) then "ReferenceError"
    else if InstanceOf(e, Error) then "Error"
    else GenericErrorPrefix
  }

  /** This page and the calculator page label every error alike except a plain Error. */
  lemma PrefixesDifferOnlyForPlainError(e: ErrorClass)
    ensures ErrorPrefix(e) == SingleFormula.ErrorPrefix(e) <==> e != Error
  {
  }

  /** What the result element shows when `calculate` has finished. */
  datatype View = Shown(s: real) | ErrorShown(prefix: string, info: Fault)

  /**
   * `calculate`: the data, then the loop, then the display. The sum is shown
   * only when the data is valid and all 11 terms have a value; every earlier
   * stop shows its error instead.
   */
  method Calculate(res: Response, parseFloat: string -> Number, m: HostMath) returns (v: View)
    ensures var g := GetData(res, parseFloat);
      && (v.Shown? <==> g.Ok? && Defined(g.value, Count, m))
      && (v.Shown? ==> v.s == PartialSum(g.value, Count, m))
      && (g.Err? ==> v == ErrorShown(ErrorPrefix(g.kind), g.info))
      && (g.Ok? && v.ErrorShown? ==> v.prefix == "RangeError" && (v.info.SingularTerm? || v.info.NonFiniteTerm?))
      && (g.Ok? && v.ErrorShown? ==>
            exists j :: 0 <= j < Count && Defined(g.value, j, m) && !TermOf(g.value[j], m).Value?
                     && (TermOf(g.value[j], m).Singular? ==> v.info == SingularTerm(j + 1, g.value[j]))
                     && (TermOf(g.value[j], m).Unbounded? ==> v.info == NonFiniteTerm(j + 1)))
  {
    var g := GetData(res, parseFloat);
    if g.Err? {
      return ErrorShown(ErrorPrefix(g.kind), g.info);
    }
    var r := Summation(g.value, m);
    match r
    case Ok(s) => v := Shown(s);
    case Err(kind, info) => v := ErrorShown(ErrorPrefix(kind), info);
  }

  /** The sum the page sets out to compute, over the first `n` values. */
  function FormulaSum(a: seq<real>, n: nat, m: HostMath): real
    requires n <= |a|
    requires forall k :: 0 <= k < n ==> 1.0 - m.sin(2.0 * a[k]) != 0.0
  {
    if n == 0 then 0.0 else FormulaSum(a, n - 1, m) + m.cos(2.0 * a[n - 1]) / (1.0 - m.sin(2.0 * a[n - 1]))
  }

  /**
   * With exact division the defensive finiteness test never fires: a term
   * fails only on the tolerance test, and when none fails the loop's sum is
   * the formula's sum.
   */
  lemma {:induction false} ExactDivisionSum(a: seq<real>, n: nat, m: HostMath)
    requires ExactDivision(m) && n <= |a|
    ensures forall k :: 0 <= k < n ==> !TermOf(a[k], m).Unbounded?
    ensures Defined(a, n, m) <==> forall k :: 0 <= k < n ==> Abs(1.0 - m.sin(2.0 * a[k])) >= Eps
    ensures Defined(a, n, m) ==> PartialSum(a, n, m) == FormulaSum(a, n, m)
  {
    if n > 0 {
      ExactDivisionSum(a, n - 1, m);
      var d := 1.0 - m.sin(2.0 * a[n - 1]);
      if Abs(d) >= Eps {
        assert m.div(m.cos(2.0 * a[n - 1]), d) == Finite(m.cos(2.0 * a[n - 1]) / d);
      }
    }
  }
}

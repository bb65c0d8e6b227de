/**
 * The calculator page: reads x, y and z from the input fields editX, editY
 * and editZ and evaluates
 *   S = (x - 2.24*y*z/x - 5) / (x - y + 1.6*z) + 12*x,
 * throwing a RangeError before either division by zero. Thrown errors are
 * `Err` results here; the caught error becomes a prefixed message.
 */
module SingleFormula {
  import opened JsRuntime
  import opened JsStrings

  /** What the message of a failed calculation reports. */
  datatype Fault = NoSuchElement(id: string) | NotANumber(id: string) | XIsZero | DenominatorIsZero

  /** The page's input elements, by id, with the text each one holds. */
  type Document = map<string, string>

  const FieldX: string := "editX"
  const FieldY: string := "editY"
  const FieldZ: string := "editZ"

  /**
   * Reads the number in input `id`: a missing element is a ReferenceError
   * naming the id, text that does not convert to a finite number is a
   * TypeError naming the id. Empty or blank text converts to 0 and passes.
   */
  function Num(doc: Document, id: string, literal: string -> Number): (r: Result<real, Fault>)
    ensures (r.Err? && r.kind == ReferenceError) <==> id !in doc
    ensures (r.Err? && r.kind == TypeError) <==> id in doc && StringToNumber(doc[id], literal).NonFinite?
    ensures r.Err? ==> r.info == (if r.kind == ReferenceError then NoSuchElement(id) else NotANumber(id))
    ensures r.Ok? ==> id in doc && StringToNumber(doc[id], literal) == Finite(r.value)
    ensures id in doc && AllWhiteSpace(doc[id]) ==> r == Ok(0.0)
  {
    if id !in doc then Err(ReferenceError, NoSuchElement(id))
    else match StringToNumber(doc[id], literal)
      case NonFinite => Err(TypeError, NotANumber(id))
      case Finite(v) => Ok(v)
  }

  datatype Inputs = Inputs(x: real, y: real, z: real)

  /**
   * Reads x, then y, then z. A failure is that of the first field, in this
   * order, that fails, so it is always an input error.
   */
  function ReadInputs(doc: Document, literal: string -> Number): (r: Result<Inputs, Fault>)
    ensures var nx, ny, nz := Num(doc, FieldX, literal), Num(doc, FieldY, literal), Num(doc, FieldZ, literal);
      && (r.Ok? <==> nx.Ok? && ny.Ok? && nz.Ok?)
      && (r.Ok? ==> r.value == Inputs(nx.value, ny.value, nz.value))
      && (nx.Err? ==> r == Err(nx.kind, nx.info))
      && (nx.Ok? && ny.Err? ==> r == Err(ny.kind, ny.info))
      && (nx.Ok? && ny.Ok? && nz.Err? ==> r == Err(nz.kind, nz.info))
    ensures r.Err? ==> r.kind == ReferenceError || r.kind == TypeError
  {
    var x :- Num(doc, FieldX, literal);
    var y :- Num(doc, FieldY, literal);
    var z :- Num(doc, FieldZ, literal);
    Ok(Inputs(x, y, z))
  }

  function Denominator(x: real, y: real, z: real): real
  {
    x - y + 1.6 * z
  }

  /** The closed-form value of S, where both divisions are defined. */
  function Formula(x: real, y: real, z: real): real
    requires x != 0.0 && Denominator(x, y, z) != 0.0
  {
    (x - (2.24 * y * z) / x - 5.0) / Denominator(x, y, z) + 12.0 * x
  }

  /**
   * S is the solution of the formula with its divisions cleared: multiplying
   * S - 12x by both divisors gives x*x - 2.24*y*z - 5*x.
   */
  lemma FormulaClearsDivisors(x: real, y: real, z: real)
    requires x != 0.0 && Denominator(x, y, z) != 0.0
    ensures (Formula(x, y, z) - 12.0 * x) * Denominator(x, y, z) * x == x * x - 2.24 * y * z - 5.0 * x
  {
    var d := Denominator(x, y, z);
    var n := x - (2.24 * y * z) / x - 5.0;
    assert Formula(x, y, z) - 12.0 * x == n / d;
    assert n / d * d == n;
    assert n * x == x * x - 2.24 * y * z - 5.0 * x by {
      assert (2.24 * y * z) / x * x == 2.24 * y * z;
    }
  }

  /**
   * The body of `calculate` up to the displayed result: input errors first,
   * then the x = 0 guard, then the zero-denominator guard, and only then S.
   */
  function Calculate(doc: Document, literal: string -> Number): (r: Result<real, Fault>)
    ensures var i := ReadInputs(doc, literal);
      && (i.Err? ==> r == Err(i.kind, i.info))
      && (r == Err(RangeError, XIsZero) <==> i.Ok? && i.value.x == 0.0)
      && (r == Err(RangeError, DenominatorIsZero) <==> i.Ok? && i.value.x != 0.0 && Denominator(i.value.x, i.value.y, i.value.z) == 0.0)
      && (r.Ok? <==> i.Ok? && i.value.x != 0.0 && Denominator(i.value.x, i.value.y, i.value.z) != 0.0)
      && (r.Ok? ==> r.value == Formula(i.value.x, i.value.y, i.value.z))
    ensures r.Err? && r.kind == RangeError ==> ReadInputs(doc, literal).Ok?
  {
    var v :- ReadInputs(doc, literal);
    if v.x == 0.0 then Err(RangeError, XIsZero)
    else if Denominator(v.x, v.y, v.z) == 0.0 then Err(RangeError, DenominatorIsZero)
    else Ok(Formula(v.x, v.y, v.z))
  }

  /**
   * An empty or blank X field is not an input error: it reads as 0, so once
   * Y and Z read, the calculation stops at the x = 0 guard.
   */
  lemma BlankXIsZeroDivisor(doc: Document, literal: string -> Number)
    requires FieldX in doc && AllWhiteSpace(doc[FieldX])
    requires Num(doc, FieldY, literal).Ok? && Num(doc, FieldZ, literal).Ok?
    ensures Calculate(doc, literal) == Err(RangeError, XIsZero)
  {
  }

  /** x = 2, y = 1, z = 1: the denominator is 2.6 and S = 1457/65 (about 22.4153846). */
  lemma ExampleTwoOneOne(literal: string -> Number)
    requires literal("2") == Finite(2.0) && literal("1") == Finite(1.0)
    ensures Calculate(map[FieldX := "2", FieldY := "1", FieldZ := "1"], literal) == Ok(1457.0 / 65.0)
  {
    var doc := map[FieldX := "2", FieldY := "1", FieldZ := "1"];
    assert !IsWhiteSpace('2') && !IsWhiteSpace('1');
    assert TrimStart("2") == "2" && TrimEnd("2") == "2";
    assert TrimStart("1") == "1" && TrimEnd("1") == "1";
    assert Num(doc, FieldX, literal) == Ok(2.0);
    assert Num(doc, FieldY, literal) == Ok(1.0) && Num(doc, FieldZ, literal) == Ok(1.0);
    assert Formula(2.0, 1.0, 1.0) == 1457.0 / 65.0;
  }

  /**
   * The message prefix chosen in the catch block by three independent
   * `instanceof` tests, each overriding the previous choice: the class name
   * for RangeError, TypeError and ReferenceError, the generic prefix for
   * anything else, a plain Error included.
   */
  function ErrorPrefix(e: ErrorClass): (p: string)
    ensures e == RangeError ==> p == "RangeError"
    ensures e == TypeError ==> p == "TypeError"
    ensures e == ReferenceError ==> p == "ReferenceError"
    ensures e == Error || e == NotAnError ==> p == GenericErrorPrefix
  {
    var p0 := GenericErrorPrefix;
    var p1 := if InstanceOf(e, RangeError) then "RangeError" else p0;
    var p2 := if InstanceOf(e, TypeError) then "TypeError" else p1;
    if InstanceOf(e, ReferenceError) then "ReferenceError" else p2
  }

  /** What the result element shows after a click. */
  datatype View = Shown(s: real) | ErrorShown(prefix: string, info: Fault)

  function CalculatorView(doc: Document, literal: string -> Number): (v: View)
    ensures v.Shown? <==> Calculate(doc, literal).Ok?
    ensures v.Shown? ==> v.s == Calculate(doc, literal).value
    ensures v.ErrorShown? ==> v.prefix == ErrorPrefix(Calculate(doc, literal).kind) && v.info == Calculate(doc, literal).info
  {
    match Calculate(doc, literal)
    case Ok(s) => Shown(s)
    case Err(kind, info) => ErrorShown(ErrorPrefix(kind), info)
  }
}

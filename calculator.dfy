// The rules of the Calculator app (src/components/apps/Calculator.tsx): the display string, the
// pending operand and operator, and the button handlers that update them. `parseFloat` and
// `String` on numbers are the `parse` and `show` parameters; a number is a real or NaN.
module Calculator {
  import opened Wrappers

  /** A JavaScript number without rounding: a real value or NaN. */
  datatype Value = Num(v: real) | NaN

  const Times: string := "×"
  const Divide: string := "÷"

  /** Towards zero, as JavaScript's `%` rounds its quotient. */
  function Trunc(x: real): int {
    if x >= 0.0 then x.Floor else -((-x).Floor)
  }

  /** JavaScript's `a % b`: the remainder takes the dividend's sign; division by zero is NaN. */
  function Remainder(a: real, b: real): Value {
    if b == 0.0 then NaN else Num(a - b * Trunc(a / b) as real)
  }

  /** Truncation moves towards zero by less than one. */
  lemma TruncBounds(x: real)
    ensures x >= 0.0 ==> Trunc(x) as real <= x < Trunc(x) as real + 1.0
    ensures x < 0.0 ==> Trunc(x) as real - 1.0 < x <= Trunc(x) as real
  {
    var f := x.Floor;
    assert f as real <= x < f as real + 1.0;
    var g := (-x).Floor;
    assert g as real <= -x < g as real + 1.0;
  }

  /** The remainder has the dividend's sign and is smaller than the divisor in magnitude. */
  lemma RemainderBounds(a: real, b: real)
    requires b != 0.0
    ensures var r := Remainder(a, b).v;
      && (a >= 0.0 ==> 0.0 <= r) && (a <= 0.0 ==> r <= 0.0)
      && (b > 0.0 ==> -b < r < b) && (b < 0.0 ==> b < r < -b)
  {
    var q := a / b;
    var t := Trunc(q) as real;
    TruncBounds(q);
    QuotientSign(a, b);
    var f := q - t;
    var p := RemainderAsProduct(a, b, t);
    assert Remainder(a, b).v == p;
    ProductBounds(b, f);
    if q >= 0.0 {
      assert 0.0 <= f < 1.0;
    } else {
      assert -1.0 < f <= 0.0;
    }
    if a == 0.0 {
      assert q == 0.0 && t == 0.0 && f == 0.0;
    }
    assert p == b * f;
    assert a >= 0.0 ==> 0.0 <= p;
    assert a <= 0.0 ==> p <= 0.0;
    assert b > 0.0 ==> -b < p < b;
    assert b < 0.0 ==> b < p < -b;
  }

  /** `a - b * t` is `b` times the fractional part `a / b - t`. */
  lemma RemainderAsProduct(a: real, b: real, t: real) returns (p: real)
    requires b != 0.0
    ensures p == a - b * t && p == b * (a / b - t)
  {
    p := a - b * t;
    assert a == b * (a / b);
  }

  lemma QuotientSign(a: real, b: real)
    requires b != 0.0
    ensures a == 0.0 ==> a / b == 0.0
    ensures (a > 0.0 && b > 0.0) || (a < 0.0 && b < 0.0) ==> a / b > 0.0
    ensures (a > 0.0 && b < 0.0) || (a < 0.0 && b > 0.0) ==> a / b < 0.0
  {
  }

  /** A factor in (-1, 1) shrinks `b`, the product taking the sign of both. */
  lemma ProductBounds(b: real, f: real)
    ensures b > 0.0 && 0.0 <= f < 1.0 ==> 0.0 <= b * f < b
    ensures b > 0.0 && -1.0 < f <= 0.0 ==> -b < b * f <= 0.0
    ensures b < 0.0 && 0.0 <= f < 1.0 ==> b < b * f <= 0.0
    ensures b < 0.0 && -1.0 < f <= 0.0 ==> 0.0 <= b * f < -b
  {
  }

  /** calculate: the four operators and `%`; division by zero gives 0 and any other operator `b`. */
  function Calculate(a: Value, b: Value, op: string): Value {
    if op == "+" || op == "-" || op == Times || op == Divide || op == "%" then
      if op == Divide && b == Num(0.0) then Num(0.0)
      else if a.NaN? || b.NaN? then NaN
      else if op == "+" then Num(a.v + b.v)
      else if op == "-" then Num(a.v - b.v)
      else if op == Times then Num(a.v * b.v)
      else if op == Divide then Num(a.v / b.v)
      else Remainder(a.v, b.v)
    else b
  }

  /** Division by zero gives 0 whatever the dividend; an unknown operator passes `b` through. */
  lemma CalculateEdges(a: Value, b: Value, op: string)
    ensures Calculate(a, Num(0.0), Divide) == Num(0.0)
    ensures op !in {"+", "-", Times, Divide, "%"} ==> Calculate(a, b, op) == b
    ensures Calculate(a, NaN, "+") == NaN && Calculate(NaN, b, "+") == NaN
    ensures a.Num? && b.Num? && b.v != 0.0 ==> Calculate(a, b, Divide) == Num(a.v / b.v)
  {
  }

  /** Subtraction undoes addition, and a nonzero division undoes multiplication. */
  lemma CalculateInverses(a: real, b: real)
    ensures Calculate(Calculate(Num(a), Num(b), "+"), Num(b), "-") == Num(a)
    ensures b != 0.0 ==> Calculate(Calculate(Num(a), Num(b), Times), Num(b), Divide) == Num(a)
  {
    if b != 0.0 {
      assert (a * b) / b == a;
    }
  }

  /** How many decimal points a display shows. */
  function Dots(s: string): nat {
    if |s| == 0 then 0 else (if s[0] == '.' then 1 else 0) + Dots(s[1..])
  }

  lemma {:induction false} DotsAppend(s: string, c: char)
    ensures Dots(s + [c]) == Dots(s) + (if c == '.' then 1 else 0)
    decreases |s|
  {
    if |s| > 0 {
      assert (s + [c])[1..] == s[1..] + [c];
      DotsAppend(s[1..], c);
    }
  }

  lemma {:induction false} NoDots(s: string)
    ensures Dots(s) == 0 <==> '.' !in s
    decreases |s|
  {
    if |s| > 0 {
      NoDots(s[1..]);
      assert s == [s[0]] + s[1..];
    }
  }

  predicate IsDigit(c: char) {
    '0' <= c <= '9'
  }

  /** `if (operation)`: set and not the empty string. */
  predicate Pending(operation: Option<string>) {
    operation.Some? && operation.value != ""
  }

  /** What `String(number)` can produce: something, with at most one decimal point. */
  ghost predicate DisplayShape(show: Value -> string) {
    forall x :: |show(x)| > 0 && Dots(show(x)) <= 1
  }

  class CalculatorState {
    var display: string
    var previousValue: Option<Value>
    var operation: Option<string>
    var newNumber: bool

    /** The display is never empty and never shows two decimal points. */
    ghost predicate Valid()
      reads this
    {
      |display| > 0 && Dots(display) <= 1
    }

    constructor()
      ensures Valid() && display == "0" && previousValue.None? && operation.None? && newNumber
    {
      display := "0";
      previousValue := None;
      operation := None;
      newNumber := true;
    }

    /** handleNumber: a new number or a lone "0" is replaced by the digit, anything else extended. */
    method HandleNumber(digit: char)
      requires Valid() && IsDigit(digit)
      modifies this`display, this`newNumber
      ensures Valid() && Dots(display) == Dots(old(display)) - (if old(newNumber) || old(display) == "0" then Dots(old(display)) else 0)
      ensures old(newNumber) ==> display == [digit] && !newNumber
      ensures !old(newNumber) ==>
        display == (if old(display) == "0" then [digit] else old(display) + [digit]) && !newNumber
    {
      if newNumber {
        display := [digit];
        newNumber := false;
      } else {
        DotsAppend(display, digit);
        display := if display == "0" then [digit] else display + [digit];
      }
    }

    /** handleDecimal: "0." for a new number, otherwise a point is added only if there is none yet. */
    method HandleDecimal()
      requires Valid()
      modifies this`display, this`newNumber
      ensures Valid()
      ensures old(newNumber) ==> display == "0." && !newNumber
      ensures !old(newNumber) ==>
        display == (if '.' in old(display) then old(display) else old(display) + ".") && newNumber == old(newNumber)
      ensures Dots(display) == 1
    {
      NoDots(display);
      if newNumber {
        display := "0.";
        newNumber := false;
        assert display == "0" + ".";
        DotsAppend("0", '.');
      } else if '.' !in display {
        DotsAppend(display, '.');
        display := display + ".";
      }
    }

    /**
     * handleOperation: the first operator stores the shown value; a later one with an operator
     * pending computes, shows and stores the result. The operator is then pending and the next
     * digit starts a new number.
     */
    method HandleOperation(op: string, parse: string -> Value, show: Value -> string)
      requires Valid() && DisplayShape(show)
      modifies this
      ensures Valid() && operation == Some(op) && newNumber
      ensures old(previousValue).None? ==> previousValue == Some(parse(old(display))) && display == old(display)
      ensures old(previousValue).Some? && Pending(old(operation)) ==>
        var result := Calculate(old(previousValue).value, parse(old(display)), old(operation).value);
        display == show(result) && previousValue == Some(result)
      ensures old(previousValue).Some? && !Pending(old(operation)) ==>
        display == old(display) && previousValue == old(previousValue)
    {
      var current := parse(display);
      if previousValue.None? {
        previousValue := Some(current);
      } else if Pending(operation) {
        var result := Calculate(previousValue.value, current, operation.value);
        display := show(result);
        previousValue := Some(result);
      }
      operation := Some(op);
      newNumber := true;
    }

    /** handleEquals: nothing unless an operation is pending; then the result is shown and the pending state cleared. */
    method HandleEquals(parse: string -> Value, show: Value -> string)
      requires Valid() && DisplayShape(show)
      modifies this
      ensures Valid()
      ensures Pending(old(operation)) && old(previousValue).Some? ==>
        && display == show(Calculate(old(previousValue).value, parse(old(display)), old(operation).value))
        && previousValue.None? && operation.None? && newNumber
      ensures !(Pending(old(operation)) && old(previousValue).Some?) ==>
        display == old(display) && previousValue == old(previousValue) && operation == old(operation)
        && newNumber == old(newNumber)
    {
      if Pending(operation) && previousValue.Some? {
        var result := Calculate(previousValue.value, parse(display), operation.value);
        display := show(result);
        previousValue := None;
        operation := None;
        newNumber := true;
      }
    }

    /** handleClear: the four fields as at the start. */
    method HandleClear()
      requires Valid()
      modifies this
      ensures Valid() && display == "0" && previousValue.None? && operation.None? && newNumber
    {
      display := "0";
      previousValue := None;
      operation := None;
      newNumber := true;
    }

    /** handleBackspace: the last character goes; a single character becomes "0" and starts a new number. */
    method HandleBackspace()
      requires Valid()
      modifies this`display, this`newNumber
      ensures Valid() && Dots(display) <= Dots(old(display))
      ensures |old(display)| > 1 ==> display == old(display)[..|old(display)| - 1] && newNumber == old(newNumber)
      ensures |old(display)| <= 1 ==> display == "0" && newNumber
    {
      if |display| > 1 {
        var last := display[|display| - 1];
        assert display == display[..|display| - 1] + [last];
        DotsAppend(display[..|display| - 1], last);
        display := display[..|display| - 1];
      } else {
        display := "0";
        newNumber := true;
      }
    }

    /** The ± button: the display shows the negated value. */
    method Negate(parse: string -> Value, show: Value -> string)
      requires Valid() && DisplayShape(show)
      modifies this`display
      ensures Valid()
      ensures display == show(match parse(old(display)) case Num(v) => Num(-v) case NaN => NaN)
    {
      var current := parse(display);
      display := show(match current case Num(v) => Num(-v) case NaN => NaN);
    }
  }
}

/** JavaScript values and operators that the controller code relies on:
    the payloads handed to `onUpdate`, number division, the truncating
    `%` operator and the decimal rendering of template literals. */
module JsValues {

  datatype Option<+T> = None | Some(value: T)

  /** A value passed to an `onUpdate` callback. */
  datatype Payload =
    | Number(n: real)                  // a JavaScript number
    | Boolean(b: bool)                 // a JavaScript boolean
    | PressWithVelocity(velocity: real) // {press: true, velocity: v}
    | PressWithValue(value: real)       // {press: true, value: v}
    | Release                          // {press: false}
    | Other                            // any other value (string, object, undefined)

  /** What `typeof payload === 'number' ? payload : current` keeps. */
  function NumberOr(current: real, p: Payload): (r: real)
    ensures p.Number? ==> r == p.n
    ensures !p.Number? ==> r == current
  {
    if p.Number? then p.n else current
  }

  /** Applying the same payload twice keeps what applying it once keeps. */
  lemma NumberOrIdempotent(current: real, p: Payload)
    ensures NumberOr(NumberOr(current, p), p) == NumberOr(current, p)
  {
  }

  /** The result of `a / b` on numbers: finite, or NaN/Infinity when `b` is 0. */
  datatype Quotient = Finite(value: real) | ByZero

  function Divide(a: real, b: real): (q: Quotient)
    ensures q.Finite? <==> b != 0.0
    ensures q.Finite? ==> q.value * b == a
  {
    if b == 0.0 then ByZero else Finite(a / b)
  }

  /** JavaScript's `a % n`: the remainder of division truncated toward zero,
      which carries the sign of `a` (Dafny's own `%` never goes negative). */
  function TruncRem(a: int, n: int): (r: int)
    requires n != 0
    ensures a >= 0 ==> 0 <= r < Abs(n)
    ensures a < 0 ==> 0 < r + Abs(n) && r <= 0
    ensures Abs(a) % Abs(n) == Abs(r)
  {
    if a >= 0 then a % Abs(n) else -((-a) % Abs(n))
  }

  function Abs(n: int): (r: nat)
    ensures r == n || r == -n
  {
    if n < 0 then -n else n
  }

  /** The decimal digits '0' .. '9'. */
  predicate IsDigit(c: char) {
    '0' <= c <= '9'
  }

  function DigitChar(d: nat): (c: char)
    requires d < 10
    ensures IsDigit(c)
  {
    ['0', '1', '2', '3', '4', '5', '6', '7', '8', '9'][d]
  }

  function DigitValue(c: char): (d: nat)
    requires IsDigit(c)
    ensures d < 10 && DigitChar(d) == c
  {
    (c as int - '0' as int) as nat
  }

  /** `${n}` for a non-negative integer: its shortest decimal rendering. */
  function DecimalString(n: nat): (s: string)
    ensures 0 < |s|
    ensures forall i :: 0 <= i < |s| ==> IsDigit(s[i])
  {
    if n < 10 then [DigitChar(n)] else DecimalString(n / 10) + [DigitChar(n % 10)]
  }

  /** Reads a string of decimal digits back as a number. */
  function ParseDecimal(s: string): nat
    requires forall i :: 0 <= i < |s| ==> IsDigit(s[i])
  {
    if s == [] then 0 else ParseDecimal(s[..|s| - 1]) * 10 + DigitValue(s[|s| - 1])
  }

  /** Reading back the decimal rendering of `n` gives `n`. */
  lemma {:induction false} ParseDecimalString(n: nat)
    ensures ParseDecimal(DecimalString(n)) == n
  {
    var s := DecimalString(n);
    if n >= 10 {
      ParseDecimalString(n / 10);
      assert s[..|s| - 1] == DecimalString(n / 10);
      assert DigitValue(s[|s| - 1]) == n % 10;
    } else {
      assert s[..|s| - 1] == [];
    }
  }

  /** Distinct numbers have distinct decimal renderings. */
  lemma DecimalStringInjective(a: nat, b: nat)
    ensures DecimalString(a) == DecimalString(b) <==> a == b
  {
    if DecimalString(a) == DecimalString(b) {
      ParseDecimalString(a);
      ParseDecimalString(b);
    }
  }

  /** `${a}-${b}`: two decimal renderings joined by a dash. */
  function DashJoin(a: nat, b: nat): string {
    DecimalString(a) + "-" + DecimalString(b)
  }

  /** In `x + "-" + y` with `x` all digits, the first '-' stands right after
      `x`, and the parts on either side of it are `x` and `y`. */
  lemma DashFollowsDigits(x: string, y: string)
    requires forall i :: 0 <= i < |x| ==> IsDigit(x[i])
    ensures (x + "-" + y)[|x|] == '-'
    ensures forall i :: 0 <= i < |x| ==> (x + "-" + y)[i] != '-'
    ensures (x + "-" + y)[..|x|] == x && (x + "-" + y)[|x| + 1..] == y
  {
  }

  /** `${a}-${b}` splits back uniquely: digits never contain the separator. */
  lemma DashJoinInjective(a: nat, b: nat, c: nat, d: nat)
    ensures DashJoin(a, b) == DashJoin(c, d) <==> a == c && b == d
  {
    if DashJoin(a, b) == DashJoin(c, d) {
      var sa, sb, sc, sd := DecimalString(a), DecimalString(b), DecimalString(c), DecimalString(d);
      DashFollowsDigits(sa, sb);
      DashFollowsDigits(sc, sd);
      assert |sa| == |sc|;
      DecimalStringInjective(a, c);
      DecimalStringInjective(b, d);
    }
  }
}

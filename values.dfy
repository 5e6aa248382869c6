/** The Python values that flow through the camera's settings: what a YAML
    file or a keyword argument can hold (floats and mappings are not part of
    this model), the exceptions the code can raise, and the few built-ins the
    camera applies to them (`int(...)`, `str(int)`, indexing). */
module PyValues {

  /** The exceptions the modelled code raises or catches. */
  datatype PyError =
    | TypeError        // int(None), indexing an int, str + non-str, ...
    | ValueError       // int("abc")
    | IndexError       // a tuple setting with too few elements
    | AttributeError   // a call on the handle after it was set to None
    | HResultError     // the camera SDK rejected a call
    | OsError          // the output directory could not be created
    | WriteError       // the image could not be encoded or written
    | CvError          // OpenCV refused its input (an empty quadrant)
    | Stalled          // a busy-wait that can never end
    | NoCameraFound    // the enumeration found no camera

  datatype Option<T> = None | Some(value: T)

  datatype Result<T> = Ok(value: T) | Err(error: PyError)

  datatype Outcome = Pass | Fail(error: PyError)

  /** One element of a Python `bytes` object. */
  type Byte = b: int | 0 <= b < 256

  /** A dynamically typed Python value. */
  datatype Value =
    | VNone
    | VBool(b: bool)
    | VInt(i: int)
    | VStr(s: string)
    | VList(items: seq<Value>)
    | VTuple(items: seq<Value>)

  predicate IsDigit(c: char) {
    '0' <= c <= '9'
  }

  predicate AllDigits(s: string) {
    forall i :: 0 <= i < |s| ==> IsDigit(s[i])
  }

  function DigitChar(d: nat): (c: char)
    requires d < 10
    ensures IsDigit(c) && c as int - '0' as int == d
  {
    (('0' as int) + d) as char
  }

  /** Python's `str(n)` for a non-negative integer: decimal, no leading zeros. */
  function NatToString(n: nat): (s: string)
    ensures |s| > 0 && AllDigits(s)
    ensures s[0] == '0' ==> n == 0
    decreases n
  {
    if n < 10 then [DigitChar(n)] else NatToString(n / 10) + [DigitChar(n % 10)]
  }

  /** Python's `str(n)` for an integer. */
  function IntToString(n: int): string {
    if n < 0 then "-" + NatToString(-n) else NatToString(n)
  }

  /** The number a string of decimal digits denotes. */
  function DigitsValue(s: string): nat
    requires AllDigits(s)
  {
    if s == [] then 0
    else DigitsValue(s[..|s| - 1]) * 10 + (s[|s| - 1] as int - '0' as int)
  }

  /** Python's `int(s)` for a string: an optional sign followed by at least
      one decimal digit; anything else raises ValueError. */
  function ParseInt(s: string): Result<int> {
    var negative := |s| > 0 && s[0] == '-';
    var digits := if |s| > 0 && (s[0] == '-' || s[0] == '+') then s[1..] else s;
    if |digits| > 0 && AllDigits(digits) then
      Ok(if negative then -(DigitsValue(digits) as int) else DigitsValue(digits))
    else
      Err(ValueError)
  }

  /** Python's `int(v)` on the values of this model. */
  function ToInt(v: Value): Result<int> {
    match v
    case VBool(b) => Ok(if b then 1 else 0)
    case VInt(i) => Ok(i)
    case VStr(s) => ParseInt(s)
    case _ => Err(TypeError)
  }

  /** Python's `v[k]` for a non-negative index. */
  function Index(v: Value, k: nat): Result<Value> {
    match v
    case VList(items) => if k < |items| then Ok(items[k]) else Err(IndexError)
    case VTuple(items) => if k < |items| then Ok(items[k]) else Err(IndexError)
    case VStr(s) => if k < |s| then Ok(VStr([s[k]])) else Err(IndexError)
    case _ => Err(TypeError)
  }

  function Length(v: Value): nat {
    match v
    case VList(items) => |items|
    case VTuple(items) => |items|
    case VStr(s) => |s|
    case _ => 0
  }

  predicate Indexable(v: Value) {
    v.VList? || v.VTuple? || v.VStr?
  }

  /** The tuple `(v[0], ..., v[n-1])`; the first failing index raises. */
  function TupleOf(v: Value, n: nat): Result<Value> {
    if n == 0 then Ok(VTuple([]))
    else if !Indexable(v) then Err(TypeError)
    else if Length(v) < n then Err(IndexError)
    else Ok(VTuple(seq(n, i requires 0 <= i < n => Index(v, i).value)))
  }

  /** Building the tuple succeeds exactly when every index succeeds, and
      then holds the n indexed items in order. */
  lemma TupleOfIndexes(v: Value, n: nat)
    ensures TupleOf(v, n).Ok? <==> forall i :: 0 <= i < n ==> Index(v, i).Ok?
    ensures TupleOf(v, n).Ok? ==> TupleOf(v, n).value.VTuple? && |TupleOf(v, n).value.items| == n
    ensures TupleOf(v, n).Ok? ==> forall i :: 0 <= i < n ==> Index(v, i) == Ok(TupleOf(v, n).value.items[i])
  {
    if n > 0 && !Indexable(v) {
      assert !Index(v, 0).Ok?;
    } else if n > 0 && Length(v) < n {
      assert !Index(v, n - 1).Ok?;
    }
  }

  lemma {:induction false} DigitsValueAppend(s: string, c: char)
    requires AllDigits(s) && IsDigit(c)
    ensures AllDigits(s + [c])
    ensures DigitsValue(s + [c]) == DigitsValue(s) * 10 + (c as int - '0' as int)
  {
    assert (s + [c])[..|s|] == s;
  }

  /** Reading back the decimal form of n gives n. */
  lemma {:induction false} DigitsRoundTrip(n: nat)
    ensures DigitsValue(NatToString(n)) == n
    decreases n
  {
    if n >= 10 {
      DigitsRoundTrip(n / 10);
      DigitsValueAppend(NatToString(n / 10), DigitChar(n % 10));
    }
  }

  /** `int(str(n)) == n` for every integer n. */
  lemma ParseIntRoundTrip(n: int)
    ensures ParseInt(IntToString(n)) == Ok(n)
  {
    if n < 0 {
      var d, s := NatToString(-n), IntToString(n);
      assert s == "-" + d;
      assert s[0] == '-' && s[1..] == d;
      DigitsRoundTrip(-n);
    } else {
      var d := NatToString(n);
      assert IsDigit(d[0]);
      DigitsRoundTrip(n);
    }
  }

  /** Distinct non-negative integers have distinct decimal forms. */
  lemma NatToStringInjective(a: nat, b: nat)
    requires NatToString(a) == NatToString(b)
    ensures a == b
  {
    DigitsRoundTrip(a);
    DigitsRoundTrip(b);
  }
}

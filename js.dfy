/** JSON request values and the JavaScript coercions the handlers apply to them:
    truthiness (`!x`, `x || d`), `Number(x)` and `String(x)`. Numbers are whole
    numbers here; an absent property (`undefined`) is `None`. */
module Js {
  import opened Common
  import opened Text

  datatype Json =
    | JNull
    | JBool(b: bool)
    | JNum(n: int)
    | JStr(s: string)
    | JArr(elems: seq<Json>)
    | JObj(fields: map<string, Json>)

  /** The result of `Number(x)`: a whole number or NaN. */
  datatype Number = Finite(n: int) | NaN

  /** A property of a request body; `None` when the key is absent. */
  function Get(body: map<string, Json>, key: string): Option<Json>
  {
    if key in body then Some(body[key]) else None
  }

  /** JavaScript truthiness: undefined, null, false, 0 and "" are falsy. */
  predicate Truthy(v: Option<Json>)
  {
    match v
    case None => false
    case Some(JNull) => false
    case Some(JBool(b)) => b
    case Some(JNum(n)) => n != 0
    case Some(JStr(s)) => s != ""
    case Some(_) => true
  }

  /** `String(x)`. Array elements that are null print as the empty string. */
  function ToText(v: Option<Json>): string
  {
    match v
    case None => "undefined"
    case Some(j) => JsonText(j)
  }

  function JsonText(j: Json): string
    decreases j
  {
    match j
    case JNull => "null"
    case JBool(b) => if b then "true" else "false"
    case JNum(n) => IntToString(n)
    case JStr(s) => s
    case JArr(es) =>
      Join(seq(|es|, i requires 0 <= i < |es| => if es[i].JNull? then "" else JsonText(es[i])), ",")
    case JObj(_) => "[object Object]"
  }

  /** `Number(s)` for a string: surrounding white space is ignored, the empty
      string is 0, an optionally signed run of decimal digits is its value and
      anything else is NaN. */
  function StringToNumber(s: string): Number
  {
    TrimmedToNumber(Trim(s))
  }

  /** `Number` on text with no surrounding white space. */
  function TrimmedToNumber(t: string): Number
  {
    if t == [] then Finite(0)
    else if AllDigits(t) then Finite(DecimalValue(t))
    else if |t| > 1 && (t[0] == '-' || t[0] == '+') && AllDigits(t[1..]) then
      var v: int := DecimalValue(t[1..]);
      Finite(if t[0] == '-' then -v else v)
    else NaN
  }

  /** `Number(x)`. */
  function ToNumber(v: Option<Json>): Number
  {
    match v
    case None => NaN
    case Some(JNull) => Finite(0)
    case Some(JBool(b)) => Finite(if b then 1 else 0)
    case Some(JNum(n)) => Finite(n)
    case Some(JStr(s)) => StringToNumber(s)
    case Some(JArr(_)) => StringToNumber(ToText(v))
    case Some(JObj(_)) => NaN
  }

  /** `Number(x) || d`: NaN and 0 fall back to `d`. */
  function NumberOr(v: Option<Json>, d: int): int
  {
    match ToNumber(v)
    case Finite(n) => if n != 0 then n else d
    case NaN => d
  }

  /** `x < k` for a number k: the comparison converts x with Number, and any
      comparison with NaN is false. */
  predicate LessThan(v: Option<Json>, k: int)
  {
    ToNumber(v).Finite? && ToNumber(v).n < k
  }

  predicate GreaterThan(v: Option<Json>, k: int)
  {
    ToNumber(v).Finite? && ToNumber(v).n > k
  }

  /** Mongoose's cast of a value to a Number path: numbers stay, booleans become
      1 and 0, a string is read with `Number`; null, the empty string, NaN,
      arrays and objects give no number (a cast or required-field failure). */
  function MongooseNumber(v: Json): Option<int>
  {
    match v
    case JNum(n) => Some(n)
    case JBool(b) => Some(if b then 1 else 0)
    case JStr(s) => if s != "" && StringToNumber(s).Finite? then Some(StringToNumber(s).n) else None
    case _ => None
  }

  /** Mongoose's cast of a value to a String path: strings stay, numbers and
      booleans are printed; null, arrays and objects give no string. */
  function MongooseString(v: Json): Option<string>
  {
    match v
    case JStr(s) => Some(s)
    case JNum(n) => Some(IntToString(n))
    case JBool(b) => Some(if b then "true" else "false")
    case _ => None
  }

  /** A non-empty run of decimal digits reads back as its value. */
  lemma DigitsRead(s: string, m: nat)
    requires s != [] && AllDigits(s) && DecimalValue(s) == m
    ensures StringToNumber(s) == Finite(m)
  {
    TrimNoSpace(s);
  }

  /** A '-' before a non-empty run of decimal digits reads back as the
      negated value. */
  lemma NegatedDigitsRead(digits: string, m: nat)
    requires digits != [] && AllDigits(digits) && DecimalValue(digits) == m
    ensures StringToNumber("-" + digits) == Finite(-(m as int))
  {
    var s := "-" + digits;
    assert s[1..] == digits;
    assert !IsDigit(s[0]);
    assert TrimmedToNumber(s) == Finite(-(m as int));
    forall i | 0 <= i < |s| ensures !IsSpace(s[i]) {
      if i > 0 { assert s[i] == digits[i - 1]; }
    }
    TrimNoSpace(s);
  }

  /** Text without white space that starts with neither a digit nor a sign is
      not a number. */
  lemma WordIsNaN(s: string)
    requires s != [] && !IsDigit(s[0]) && s[0] != '-' && s[0] != '+'
    requires forall i :: 0 <= i < |s| ==> !IsSpace(s[i])
    ensures StringToNumber(s) == NaN
  {
    TrimNoSpace(s);
    assert !AllDigits(s);
    assert TrimmedToNumber(s) == NaN;
  }

  /** `Number` of a string value is the string's reading. */
  lemma NumberOfString(s: string)
    ensures ToNumber(Some(JStr(s))) == StringToNumber(s)
  {
  }

  /** `String` and `Number` are inverse on whole numbers: the decimal text of n
      reads back as n. */
  lemma NumberOfIntText(n: int)
    ensures StringToNumber(IntToString(n)) == Finite(n)
  {
    if n < 0 {
      NegatedDigitsRead(NatToString(-n), -n);
      assert IntToString(n) == "-" + NatToString(-n);
    } else {
      DigitsRead(NatToString(n), n);
      assert IntToString(n) == NatToString(n);
    }
  }
}

/** The Joi building blocks the request schemas use, as predicates over JSON.
    `Joi.string()` refuses the empty string and values of other types;
    `Joi.number()` takes numbers and, converting them, strings that hold a
    signed decimal number; `Joi.object({...})` refuses keys it does not list
    unless unknown keys are allowed. */
module Joi {
  import opened Common
  import opened Js
  import opened Text

  /** The reply to a body a schema refuses. The handlers send Joi's own message
      for the first failing rule; its wording is not part of this model. */
  const SchemaMessage := "request does not match the schema"

  predicate IsString(v: Json) { v.JStr? && v.s != "" }

  /** `Joi.string().min(lo).max(hi)`. */
  predicate StringLength(v: Json, lo: nat, hi: nat) { IsString(v) && lo <= Utf16Length(v.s) <= hi }

  /** `Joi.string().length(n).pattern(/^[0-9]+$/)`. */
  predicate DigitString(v: Json, n: nat) { v.JStr? && n > 0 && DigitsOfLength(v.s, n) }

  /** `Number.MAX_SAFE_INTEGER`, 2^53 - 1. */
  const MaxSafeInteger: int := 9007199254740991

  /** Joi refuses a number outside ±(2^53 - 1) as unsafe. */
  predicate SafeInteger(n: int) { -MaxSafeInteger <= n <= MaxSafeInteger }

  /** Text whose reading does not print back as it was written, which Joi
      refuses as unsafe: for whole numbers, a negative zero such as "-0". */
  predicate NegativeZeroText(s: string)
  {
    Trim(s) != [] && Trim(s)[0] == '-' && StringToNumber(s) == Finite(0)
  }

  /** The number `Joi.number()` accepts `v` as, if any. */
  function JoiNumber(v: Json): (r: Option<int>)
    ensures v.JNum? ==> r == (if SafeInteger(v.n) then Some(v.n) else None)
    ensures r.Some? ==> (v.JNum? || v.JStr?) && SafeInteger(r.value)
  {
    match v
    case JNum(n) => if SafeInteger(n) then Some(n) else None
    case JStr(s) =>
      if Trim(s) != [] && StringToNumber(s).Finite? && SafeInteger(StringToNumber(s).n) && !NegativeZeroText(s)
      then Some(StringToNumber(s).n) else None
    case _ => None
  }

  /** A number in the safe range written out as decimal text passes
      `Joi.number()` as that number, and so does the number itself; beyond the
      safe range both are refused. */
  lemma JoiNumberOfText(n: int)
    ensures SafeInteger(n) ==> JoiNumber(JStr(IntToString(n))) == Some(n) && JoiNumber(JNum(n)) == Some(n)
    ensures !SafeInteger(n) ==> JoiNumber(JStr(IntToString(n))).None? && JoiNumber(JNum(n)).None?
  {
    NumberOfIntText(n);
    TrimNoSpace(IntToString(n));
    if n == 0 {
      assert IntToString(0) == NatToString(0) == "0";
    } else if n > 0 {
      assert IntToString(n) == NatToString(n);
      assert IsDigit(IntToString(n)[0]);
    }
  }

  /** `Joi.number().min(lo)`. */
  predicate NumberAtLeast(v: Json, lo: int) { JoiNumber(v).Some? && JoiNumber(v).value >= lo }

  /** Only the listed keys. */
  predicate OnlyKeys(o: map<string, Json>, allowed: set<string>) { o.Keys <= allowed }
}

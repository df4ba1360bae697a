/**
 * JavaScript values as the modelled code sees them, with the coercions it
 * relies on: truthiness, `== null`, template-literal conversion to text,
 * `Number.parseInt(text, 10)` and `Number(text)` inside comparisons.
 * Numbers are the integers and the two infinities; fractions and NaN as a
 * stored value are not modelled (NaN only arises inside a comparison,
 * where it makes the comparison false).
 */
module JsValues {
  import opened Wrappers
  import opened Strings

  /** An integer-valued JS number, with -Infinity and Infinity. */
  datatype Numeric = NegInf | Fin(n: int) | PosInf

  /** The relational `<=` on two (non-NaN) numbers. */
  predicate NumLe(a: Numeric, b: Numeric) {
    match (a, b)
    case (NegInf, _) => true
    case (_, PosInf) => true
    case (Fin(x), Fin(y)) => x <= y
    case _ => false
  }

  predicate NumLt(a: Numeric, b: Numeric) {
    NumLe(a, b) && a != b
  }

  datatype JsValue =
    | Undefined
    | Null
    | Bool(b: bool)
    | Num(x: Numeric)
    | Str(s: string)
    | List(items: seq<JsValue>)
    | Obj(props: map<string, JsValue>)

  /** A plain JS object: own enumerable properties. */
  type Object = map<string, JsValue>

  /** `!!v`. */
  predicate Truthy(v: JsValue) {
    match v
    case Undefined => false
    case Null => false
    case Bool(b) => b
    case Num(x) => x != Fin(0)
    case Str(s) => s != ""
    case List(_) => true
    case Obj(_) => true
  }

  /** `v == null`, true of exactly undefined and null. */
  predicate IsNullish(v: JsValue) {
    v == Undefined || v == Null
  }

  /** `v.k` for a plain value: only objects carry the modelled properties. */
  function Prop(v: JsValue, k: string): JsValue {
    if v.Obj? && k in v.props then v.props[k] else Undefined
  }

  /** `o[k]` on an object value, undefined when the key is absent. */
  function Get(o: Object, k: string): JsValue {
    if k in o then o[k] else Undefined
  }

  function NumericText(x: Numeric): string {
    match x
    case NegInf => "-Infinity"
    case PosInf => "Infinity"
    case Fin(n) => IntToString(n)
  }

  /** The text `${v}` produces. */
  function ToText(v: JsValue): string
    decreases v
  {
    match v
    case Undefined => "undefined"
    case Null => "null"
    case Bool(b) => if b then "true" else "false"
    case Num(x) => NumericText(x)
    case Str(s) => s
    case List(items) =>
      Join(seq(|items|, i requires 0 <= i < |items| =>
             if IsNullish(items[i]) then "" else ToText(items[i])), ",")
    case Obj(_) => "[object Object]"
  }

  /**
   * `Number.parseInt(text, 10)`: skips leading whitespace, takes an optional
   * sign and the longest run of decimal digits; None stands for NaN.
   */
  function ParseInt(text: string): (r: Option<int>)
    ensures r.None? <==> DigitPrefix(SkipSign(TrimStart(text))) == []
  {
    var t := TrimStart(text);
    var digits := DigitPrefix(SkipSign(t));
    if digits == [] then None
    else if t[0] == '-' then Some(-(DigitsValue(digits) as int))
    else Some(DigitsValue(digits))
  }

  /** `Number.parseInt(String(n), 10) === n`: the integer round trip. */
  lemma ParseIntOfText(n: int)
    ensures ParseInt(IntToString(n)) == Some(n)
  {
    var text := IntToString(n);
    TrimStartNoop(text);
    var digits := if n < 0 then NatToString(-n) else NatToString(n);
    assert SkipSign(text) == digits;
    DigitPrefixOfDigits(digits);
    DigitsValueOfNat(if n < 0 then -n else n);
  }

  /** A text starting with neither space, sign nor digit parses to NaN. */
  lemma ParseIntNaN(text: string)
    requires text != [] && !IsSpace(text[0]) && !IsDigit(text[0])
    requires text[0] != '+' && text[0] != '-'
    ensures ParseInt(text) == None
  {
    TrimStartNoop(text);
  }

  function SkipSign(t: string): (r: string)
    ensures |r| <= |t|
  {
    if t != [] && (t[0] == '+' || t[0] == '-') then t[1..] else t
  }

  predicate AllDigits(s: string) {
    forall i :: 0 <= i < |s| ==> IsDigit(s[i])
  }

  /** The base a `0x`, `0o` or `0b` prefix (either case) selects, 0 for no such prefix. */
  function RadixOf(t: string): (base: nat)
    ensures base != 0 ==> |t| >= 2 && t[0] == '0'
  {
    if |t| < 2 || t[0] != '0' then 0
    else if t[1] == 'x' || t[1] == 'X' then 16
    else if t[1] == 'o' || t[1] == 'O' then 8
    else if t[1] == 'b' || t[1] == 'B' then 2
    else 0
  }

  /**
   * `Number(text)` as used when a string meets a number in `<`, `<=`, `>=`:
   * the trimmed text is empty (0), an unsigned `0x`/`0o`/`0b` integer, an
   * optionally signed run of decimal digits, or an optionally signed
   * "Infinity"; anything else is NaN (None).
   */
  function StringToNumber(text: string): (r: Option<Numeric>)
    ensures Trim(text) == "" ==> r == Some(Fin(0))
  {
    var t := Trim(text);
    var body := SkipSign(t);
    var negative := t != [] && t[0] == '-';
    var base := RadixOf(t);
    if t == [] then Some(Fin(0))
    else if base != 0 then
      if |t| > 2 && forall i :: 2 <= i < |t| ==> IsRadixDigit(t[i], base) then Some(Fin(RadixValue(t[2..], base)))
      else None
    else if body == "Infinity" then Some(if negative then NegInf else PosInf)
    else if body != [] && AllDigits(body) then
      Some(Fin(if negative then -(DigitsValue(body) as int) else DigitsValue(body)))
    else None
  }

  /**
   * A prefixed integer such as "0X1" converts to its value in that base,
   * whereas `parseInt(text, 10)` reads it as 0.
   */
  lemma RadixTextValue(t: string)
    requires RadixOf(t) != 0 && |t| > 2
    requires forall i :: 2 <= i < |t| ==> IsRadixDigit(t[i], RadixOf(t))
    ensures StringToNumber(t) == Some(Fin(RadixValue(t[2..], RadixOf(t))))
    ensures ParseInt(t) == Some(0)
  {
    TrimStartNoop(t);
    assert IsRadixDigit(t[|t| - 1], RadixOf(t));
    TrimEndNoop(t);
    assert SkipSign(t) == t;
    assert DigitPrefix(t[1..]) == [];
    assert DigitPrefix(t) == ['0'];
    assert DigitsValue(['0']) == 0;
  }

  /**
   * The number a value converts to when it meets a number in `<`, `<=`,
   * `>` or `>=`; None stands for NaN. An array converts through its text,
   * a plain object's text "[object Object]" is NaN.
   */
  function ToNumber(v: JsValue): Option<Numeric> {
    match v
    case Undefined => None
    case Null => Some(Fin(0))
    case Bool(b) => Some(Fin(if b then 1 else 0))
    case Num(x) => Some(x)
    case Str(s) => StringToNumber(s)
    case List(_) => StringToNumber(ToText(v))
    case Obj(_) => None
  }

  /** `a <= b` on converted operands: false as soon as either side is NaN. */
  predicate LessEq(a: Option<Numeric>, b: Option<Numeric>) {
    a.Some? && b.Some? && NumLe(a.value, b.value)
  }

  /** `a < b` on converted operands: false as soon as either side is NaN. */
  predicate Less(a: Option<Numeric>, b: Option<Numeric>) {
    a.Some? && b.Some? && NumLt(a.value, b.value)
  }

  /**
   * A text whose first letter is not a digit, sign or space, and which is
   * not "Infinity" once trailing space is trimmed, is NaN as a number.
   */
  lemma NonNumericText(text: string)
    requires text != [] && !IsSpace(text[0]) && !IsDigit(text[0])
    requires text[0] != '+' && text[0] != '-'
    requires TrimEnd(text) != "Infinity"
    ensures StringToNumber(text) == None
  {
    TrimStartNoop(text);
    var t := Trim(text);
    assert t == TrimEnd(text);
    TrimEndKeepsFirst(text);
    assert SkipSign(t) == t;
  }
}

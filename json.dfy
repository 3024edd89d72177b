/** Parsed JSON values and the JavaScript semantics the pipeline applies to them:
    property access, truthiness, `||`, `typeof`, `Object.keys`, `String(v)` and
    numeric coercion. `JSON.parse` itself is not modelled: callers receive values of
    this type. JavaScript's `undefined` is `None` wherever an `Option<JsonValue>` appears. */
module Json {
  import opened Wrappers
  import opened Strings

  /** An object keeps its members in source order, which drives every first-match
      search over `Object.keys`. */
  datatype JsonValue =
    | JNull
    | JBool(b: bool)
    | JNum(n: real)
    | JStr(s: string)
    | JArr(items: seq<JsonValue>)
    | JObj(fields: seq<(string, JsonValue)>)

  /** The value of the first member named `key`. */
  function FieldLookup(fields: seq<(string, JsonValue)>, key: string): Option<JsonValue> {
    if fields == [] then None
    else if fields[0].0 == key then Some(fields[0].1)
    else FieldLookup(fields[1..], key)
  }

  /** A member is found exactly when the object has one with that name, and the value
      found is the value of the first such member. */
  lemma {:induction false} FieldLookupSpec(fields: seq<(string, JsonValue)>, key: string)
    ensures FieldLookup(fields, key).Some? <==> exists i :: 0 <= i < |fields| && fields[i].0 == key
    ensures FieldLookup(fields, key).Some? ==>
              exists i :: 0 <= i < |fields| && fields[i] == (key, FieldLookup(fields, key).value)
                && forall j :: 0 <= j < i ==> fields[j].0 != key
  {
    if fields != [] && fields[0].0 != key {
      FieldLookupSpec(fields[1..], key);
      assert forall i :: 1 <= i < |fields| ==> fields[i] == fields[1..][i - 1];
      if FieldLookup(fields, key).Some? {
        var i :| 0 <= i < |fields[1..]| && fields[1..][i] == (key, FieldLookup(fields, key).value)
                 && forall j :: 0 <= j < i ==> fields[1..][j].0 != key;
        assert fields[i + 1] == (key, FieldLookup(fields, key).value);
        assert forall j :: 0 <= j < i + 1 ==> fields[j].0 != key by {
          forall j | 0 <= j < i + 1 ensures fields[j].0 != key {
            if j > 0 {
              assert fields[j] == fields[1..][j - 1];
            }
          }
        }
      }
    }
  }

  /** `v[key]` for a named key: the member's value on an object, `undefined` otherwise
      (index and prototype properties of arrays and strings are not modelled). */
  function Prop(v: JsonValue, key: string): Option<JsonValue> {
    if v.JObj? then FieldLookup(v.fields, key) else None
  }

  /** `v?.[key]` over a possibly undefined value (only used where the source cannot
      reach `undefined.key`). */
  function OptProp(v: Option<JsonValue>, key: string): Option<JsonValue> {
    if v.Some? then Prop(v.value, key) else None
  }

  /** JavaScript truthiness: `undefined`, `null`, `false`, `0` and `""` are falsy
      (NaN cannot arise from parsed JSON). */
  predicate Truthy(v: Option<JsonValue>) {
    match v
    case None => false
    case Some(JNull) => false
    case Some(JBool(b)) => b
    case Some(JNum(n)) => n != 0.0
    case Some(JStr(s)) => s != ""
    case Some(JArr(_)) => true
    case Some(JObj(_)) => true
  }

  /** `a || b` */
  function Or(a: Option<JsonValue>, b: Option<JsonValue>): (r: Option<JsonValue>)
    ensures Truthy(a) ==> r == a
    ensures !Truthy(a) ==> r == b
  {
    if Truthy(a) then a else b
  }

  /** `v.k0 || v.k1 || … || v.kn`: the first truthy member, else the last one's value. */
  function PropChain(v: JsonValue, keys: seq<string>): Option<JsonValue>
    requires |keys| >= 1
  {
    if |keys| == 1 then Prop(v, keys[0]) else Or(Prop(v, keys[0]), PropChain(v, keys[1..]))
  }

  /** The chain yields some member's value; it is truthy exactly when some member is,
      and when none is, it is the last member's value. */
  lemma {:induction false} PropChainSpec(v: JsonValue, keys: seq<string>)
    requires |keys| >= 1
    ensures Truthy(PropChain(v, keys)) ==> exists i :: 0 <= i < |keys| && PropChain(v, keys) == Prop(v, keys[i])
    ensures Truthy(PropChain(v, keys)) <==> exists i :: 0 <= i < |keys| && Truthy(Prop(v, keys[i]))
    ensures !Truthy(PropChain(v, keys)) ==> PropChain(v, keys) == Prop(v, keys[|keys| - 1])
  {
    if |keys| > 1 {
      PropChainSpec(v, keys[1..]);
      assert forall i :: 1 <= i < |keys| ==> keys[i] == keys[1..][i - 1];
    }
  }

  lemma {:induction false} PropChainFirstTruthy(v: JsonValue, keys: seq<string>, i: nat)
    requires i < |keys| && Truthy(Prop(v, keys[i]))
    requires forall j :: 0 <= j < i ==> !Truthy(Prop(v, keys[j]))
    ensures PropChain(v, keys) == Prop(v, keys[i])
  {
    if i > 0 {
      PropChainFirstTruthy(v, keys[1..], i - 1);
    }
  }

  predicate IsObjectType(v: JsonValue) {
    v.JNull? || v.JArr? || v.JObj?
  }

  /** `typeof v` */
  function TypeOf(v: Option<JsonValue>): (r: string)
    ensures r == "object" <==> v.Some? && IsObjectType(v.value)
  {
    match v
    case None => "undefined"
    case Some(JNull) => "object"
    case Some(JBool(_)) => "boolean"
    case Some(JNum(_)) => "number"
    case Some(JStr(_)) => "string"
    case Some(JArr(_)) => "object"
    case Some(JObj(_)) => "object"
  }

  function IndexKeys(n: nat): (r: seq<string>)
    ensures |r| == n
  {
    if n == 0 then [] else IndexKeys(n - 1) + [NatText(n - 1)]
  }

  /** `Object.keys(v)`; `Err` where JavaScript throws a TypeError (on `null`).
      Objects list their members in source order: the JavaScript rule that integer-like
      keys come first is not modelled. */
  function ObjectKeys(v: JsonValue): (r: Result<seq<string>>)
    ensures r.Err? <==> v.JNull?
    ensures v.JObj? ==> r == Ok(seq(|v.fields|, i requires 0 <= i < |v.fields| => v.fields[i].0))
  {
    match v
    case JNull => Err("Cannot convert undefined or null to object")
    case JBool(_) => Ok([])
    case JNum(_) => Ok([])
    case JStr(s) => Ok(IndexKeys(|s|))
    case JArr(items) => Ok(IndexKeys(|items|))
    case JObj(fields) => Ok(seq(|fields|, i requires 0 <= i < |fields| => fields[i].0))
  }

  /** The text JavaScript gives a number. Integers are rendered with every digit, which
      JavaScript does below 1e21 only (it writes `1e+21`); the shortest round-trip text of
      other doubles is supplied by the caller as `fracText`. */
  function NumberText(n: real, fracText: real -> string): string {
    if n == n.Floor as real then IntText(n.Floor) else fracText(n)
  }

  /** `String(v)` for a defined value. */
  function Text(v: JsonValue, fracText: real -> string): string {
    match v
    case JNull => "null"
    case JBool(b) => if b then "true" else "false"
    case JNum(n) => NumberText(n, fracText)
    case JStr(s) => s
    case JObj(_) => "[object Object]"
    case JArr(items) =>
      Join(seq(|items|, i requires 0 <= i < |items| =>
                 if items[i].JNull? then "" else Text(items[i], fracText)), ",")
  }

  /** `String(v)`, which is also what a template literal `${v}` produces. */
  function ToText(v: Option<JsonValue>, fracText: real -> string): string {
    if v.None? then "undefined" else Text(v.value, fracText)
  }

  lemma StringTextIsItself(s: string, fracText: real -> string)
    ensures ToText(Some(JStr(s)), fracText) == s
  {
  }

  function Pow10(k: nat): (r: nat)
    ensures r >= 1
  {
    if k == 0 then 1 else 10 * Pow10(k - 1)
  }

  /** The value of an unsigned decimal literal `ddd`, `ddd.ddd`, `ddd.` or `.ddd`. */
  function DecimalValue(t: string): Option<real> {
    var i := DigitRunEnd(t, 0);
    if i == |t| then
      if i > 0 then Some(DigitsValue(t[0..i]) as real) else None
    else if t[i] == '.' then
      var j := DigitRunEnd(t, i + 1);
      if j == |t| && (i > 0 || j > i + 1) then
        Some(DigitsValue(t[0..i]) as real + DigitsValue(t[i + 1..j]) as real / Pow10(j - i - 1) as real)
      else None
    else None
  }

  /** `Number(s)` for decimal text; `None` stands for NaN. Exponents, hexadecimal and
      `Infinity` are not modelled and read as NaN. */
  function StringToNumber(s: string): Option<real> {
    SignedDecimal(Trim(s))
  }

  /** `Number` of trimmed text: empty is 0, then an optional sign and a decimal literal. */
  function SignedDecimal(t: string): Option<real> {
    if t == "" then Some(0.0)
    else if t[0] == '-' then
      var d := DecimalValue(t[1..]);
      if d.Some? then Some(-d.value) else None
    else if t[0] == '+' then DecimalValue(t[1..])
    else DecimalValue(t)
  }

  /** The numeric coercion JavaScript applies to an operand of `>` or `*`; `None` is
      NaN. An array or object is read through its text: `[]` and `[null]` are 0, a
      one-element array reads as its element's text, and longer arrays and every object
      are NaN (`ArrayReadsItsText`). */
  function ToNumber(v: JsonValue): (r: Option<real>)
    ensures v.JNum? ==> r == Some(v.n)
    ensures v.JStr? ==> r == StringToNumber(v.s)
    ensures v.JArr? && |v.items| > 1 ==> r.None?
  {
    match v
    case JNull => Some(0.0)
    case JBool(b) => Some(if b then 1.0 else 0.0)
    case JNum(n) => Some(n)
    case JStr(s) => StringToNumber(s)
    case JArr(items) =>
      if |items| == 0 then Some(0.0)
      else if |items| > 1 then None
      else (match items[0]
        case JNull => Some(0.0)
        case JBool(_) => None
        case _ => ToNumber(items[0]))
    case JObj(_) => None
  }

  /** A character other than a digit or a point rules out a decimal literal. */
  lemma DecimalValueForeign(t: string, m: nat)
    requires m < |t| && !IsDigit(t[m]) && t[m] != '.'
    ensures DecimalValue(t).None?
  {
  }

  /** Text holding a character that is not a space, digit, sign or point is NaN. */
  lemma ForeignCharIsNaN(s: string, k: nat)
    requires k < |s| && !IsSpace(s[k]) && !IsDigit(s[k]) && s[k] !in {'.', '+', '-'}
    ensures StringToNumber(s).None?
  {
    var t := Trim(s);
    var a := TrimKeeps(s, k);
    var m := k - a;
    assert t[m] == s[k];
    SignedForeign(t, m);
    assert StringToNumber(s) == SignedDecimal(t);
  }

  /** The sign and decimal steps of `StringToNumber` on trimmed text with a foreign
      character at `m`. */
  lemma SignedForeign(t: string, m: nat)
    requires m < |t| && !IsDigit(t[m]) && t[m] !in {'.', '+', '-'}
    ensures SignedDecimal(t).None?
  {
    if t[0] == '-' || t[0] == '+' {
      assert t[1..][m - 1] == t[m];
      DecimalValueForeign(t[1..], m - 1);
    } else {
      DecimalValueForeign(t, m);
    }
  }

  /** `Number(String(i))` is `i` for every integer. */
  lemma IntTextReadsBack(i: int)
    ensures StringToNumber(IntText(i)) == Some(i as real)
  {
    if i < 0 {
      var d := NatText(-i);
      NatTextDecimal(-i);
      var t := "-" + d;
      assert t[|t| - 1] == d[|d| - 1];
      TrimmedIsItself(t);
      assert t[1..] == d;
    } else {
      NatTextDecimal(i);
      TrimmedIsItself(NatText(i));
    }
  }

  /** The decimal text of `m` reads back as `m`, and has no space at either end. */
  lemma NatTextDecimal(m: nat)
    ensures DecimalValue(NatText(m)) == Some(m as real)
    ensures !IsSpace(NatText(m)[0]) && !IsSpace(NatText(m)[|NatText(m)| - 1])
  {
    var d := NatText(m);
    NatTextRoundTrip(m);
    DigitRunToEnd(d, 0);
    assert d[0..|d|] == d;
  }

  /** Every number inside `v`, through arrays, is an integer or is rendered by
      `fracText` as text that reads back as the same number. */
  predicate NumbersReadBack(v: JsonValue, fracText: real -> string) {
    match v
    case JNum(n) => n == n.Floor as real || StringToNumber(fracText(n)) == Some(n)
    case JArr(items) => forall i :: 0 <= i < |items| ==> NumbersReadBack(items[i], fracText)
    case _ => true
  }

  /** JavaScript converts an array to a number by converting its text: on arrays the
      model's `ToNumber` is `Number(String(v))`. */
  lemma {:induction false} ArrayReadsItsText(v: JsonValue, fracText: real -> string)
    requires v.JArr? && NumbersReadBack(v, fracText)
    ensures ToNumber(v) == StringToNumber(Text(v, fracText))
  {
    var items := v.items;
    var texts := seq(|items|, i requires 0 <= i < |items| =>
                       if items[i].JNull? then "" else Text(items[i], fracText));
    assert Text(v, fracText) == Join(texts, ",");
    if |items| == 0 {
      assert Trim("") == "";
    } else if |items| > 1 {
      var s := Join(texts, ",");
      assert s == texts[0] + "," + Join(texts[1..], ",");
      assert s[|texts[0]|] == ',';
      ForeignCharIsNaN(s, |texts[0]|);
    } else {
      var x := items[0];
      assert Text(v, fracText) == texts[0];
      assert NumbersReadBack(x, fracText);
      match x
      case JNull =>
        assert Trim("") == "";
      case JBool(b) =>
        var s := if b then "true" else "false";
        assert Text(x, fracText) == s;
        ForeignCharIsNaN(s, 1);
      case JNum(n) =>
        if n == n.Floor as real {
          IntTextReadsBack(n.Floor);
        }
      case JStr(_) =>
      case JObj(_) =>
        var s := "[object Object]";
        ForeignCharIsNaN(s, 1);
      case JArr(_) =>
        ArrayReadsItsText(x, fracText);
    }
  }
}

/** The JavaScript values the provider's JSON bodies and the model's records
    are made of, with the three operations the source applies to them:
    conversion to string inside a template literal, property reads, and
    truthiness. Numbers are integers in this model. */
module Json {
  import opened Wrappers
  import opened Assoc

  datatype Json =
    | JUndefined
    | JNull
    | JBool(b: bool)
    | JNum(n: int)
    | JStr(s: string)
    | JArr(elems: seq<Json>)
    | JObj(fields: Assoc<Json>)

  function DigitChar(d: nat): (c: char)
    requires d < 10
  {
    "0123456789"[d]
  }

  function DigitValue(c: char): int
  {
    c as int - '0' as int
  }

  /** Decimal notation of a natural number, most significant digit first. */
  function NatToString(n: nat): (s: string)
    ensures |s| >= 1
    ensures forall i :: 0 <= i < |s| ==> '0' <= s[i] <= '9'
  {
    if n < 10 then [DigitChar(n)] else NatToString(n / 10) + [DigitChar(n % 10)]
  }

  /** Reads back a string of decimal digits. */
  function ParseNat(s: string): int
  {
    if |s| == 0 then 0 else 10 * ParseNat(s[..|s| - 1]) + DigitValue(s[|s| - 1])
  }

  /** Number-to-string conversion loses nothing. */
  lemma {:induction false} NatToStringRoundTrip(n: nat)
    ensures ParseNat(NatToString(n)) == n
  {
    var s := NatToString(n);
    if n < 10 {
      assert s[..|s| - 1] == [];
    } else {
      assert s[..|s| - 1] == NatToString(n / 10);
      NatToStringRoundTrip(n / 10);
    }
  }

  function IntToString(n: int): (s: string)
  {
    if n < 0 then "-" + NatToString(-n) else NatToString(n)
  }

  /** Reads back an optionally signed string of decimal digits. */
  function ParseInt(s: string): int
  {
    if |s| > 0 && s[0] == '-' then -ParseNat(s[1..]) else ParseNat(s)
  }

  /** The decimal text any integer renders as reads back as that integer. */
  lemma {:induction false} IntToStringRoundTrip(n: int)
    ensures ParseInt(IntToString(n)) == n
  {
    var digits := NatToString(if n < 0 then -n else n);
    NatToStringRoundTrip(if n < 0 then -n else n);
    if n < 0 {
      assert IntToString(n) == "-" + digits;
      ParseSigned(digits);
    } else {
      assert IntToString(n) == digits;
      ParseUnsigned(digits);
    }
  }

  lemma ParseSigned(digits: string)
    ensures ParseInt("-" + digits) == -ParseNat(digits)
  {
    assert ("-" + digits)[1..] == digits;
  }

  lemma ParseUnsigned(digits: string)
    requires |digits| > 0 && '0' <= digits[0] <= '9'
    ensures ParseInt(digits) == ParseNat(digits)
  {
  }

  /** `String(j)`, as a template literal renders a value. */
  function Render(j: Json): (r: string)
    ensures j.JArr? && j.elems == [] ==> r == ""
  {
    match j
    case JUndefined => "undefined"
    case JNull => "null"
    case JBool(b) => if b then "true" else "false"
    case JNum(n) => IntToString(n)
    case JStr(s) => s
    case JArr(xs) => RenderElems(xs)
    case JObj(_) => "[object Object]"
  }

  /** `Array.prototype.join(",")`: `null` and `undefined` become empty. */
  function RenderElems(xs: seq<Json>): string
  {
    if |xs| == 0 then ""
    else
      var head := if xs[0].JNull? || xs[0].JUndefined? then "" else Render(xs[0]);
      if |xs| == 1 then head else head + "," + RenderElems(xs[1..])
  }

  /** A number's text in `${...}` reads back as that number. */
  lemma RenderNumberReadsBack(n: int)
    ensures ParseInt(Render(JNum(n))) == n
  {
    IntToStringRoundTrip(n);
  }

  /** Values that are neither strings, arrays nor objects are told apart by
      their text: `undefined`, `null`, `true`, `false` and every number
      render differently. */
  lemma RenderScalarInjective(a: Json, b: Json)
    requires a.JUndefined? || a.JNull? || a.JBool? || a.JNum?
    requires b.JUndefined? || b.JNull? || b.JBool? || b.JNum?
    ensures Render(a) == Render(b) <==> a == b
  {
    if Render(a) == Render(b) {
      var t := Render(a);
      if a.JNum? && b.JNum? {
        RenderNumberReadsBack(a.n);
        RenderNumberReadsBack(b.n);
      } else if a.JNum? || b.JNum? {
        var n := if a.JNum? then a.n else b.n;
        NumberTextStart(n);
        assert false;
      }
    }
  }

  /** A number's text starts with a digit or a minus sign. */
  lemma NumberTextStart(n: int)
    ensures var t := IntToString(n); |t| > 0 && ('0' <= t[0] <= '9' || t[0] == '-')
  {
  }

  /** A number's text holds no comma. */
  lemma NumberTextNoComma(n: int)
    ensures ',' !in IntToString(n)
  {
  }

  /** Property read `j.name` for a non-index property name; reading from
      `null` or `undefined` throws a TypeError. */
  function Prop(j: Json, name: string): (r: Result<Json>)
    ensures r.Err? <==> j.JNull? || j.JUndefined?
    ensures j.JObj? ==> r == Ok(if name in Keys(j.fields) then Lookup(j.fields, name).value else JUndefined)
  {
    match j
    case JUndefined => Err("Cannot read properties of undefined (reading '" + name + "')")
    case JNull => Err("Cannot read properties of null (reading '" + name + "')")
    case JArr(xs) => Ok(if name == "length" then JNum(|xs|) else JUndefined)
    case JStr(s) => Ok(if name == "length" then JNum(|s|) else JUndefined)
    case JObj(fs) => Ok(match Lookup(fs, name) case Some(v) => v case None => JUndefined)
    case _ => Ok(JUndefined)
  }

  /** `Boolean(j)`. */
  predicate Truthy(j: Json)
  {
    match j
    case JUndefined => false
    case JNull => false
    case JBool(b) => b
    case JNum(n) => n != 0
    case JStr(s) => s != ""
    case _ => true
  }

  /** The own enumerable properties that `{...j}` copies: an object's fields,
      the indexed elements of an array or characters of a string, and nothing
      for the other primitives. */
  function OwnEntries(j: Json): Assoc<Json>
  {
    match j
    case JObj(fs) => fs
    case JArr(xs) => seq(|xs|, i requires 0 <= i < |xs| => (NatToString(i), xs[i]))
    case JStr(s) => seq(|s|, i requires 0 <= i < |s| => (NatToString(i), JStr([s[i]])))
    case _ => []
  }
}

/** Values as the request handlers receive them from JavaScript: a request
    body field, a header, a route parameter. Only the handful of JavaScript
    operations the handlers apply to such values are modelled here:
    truthiness, `a || b`, conversion to a string (template literals and
    `String(x)`), `parseInt` and the numeric conversion used by `<`. */
module JsValues {

  datatype Option<+T> = None | Some(value: T)

  /** A loosely typed client value. `Absent` stands for `undefined` (and for
      `null`, which the handlers treat the same way); fractional numbers,
      objects and arrays inside a scalar field are not modelled. A `Num` is
      an exact integer: the rounding of JavaScript numbers beyond 2^53 and
      the exponent form `String` uses from 10^21 on are not modelled. */
  datatype Raw = Absent | Bool(b: bool) | Num(n: int) | Str(s: string)

  /** A file received by the upload middleware: its hosted URL (`path`) and
      the media host's deletion handle (`filename`). */
  datatype Upload = Upload(path: string, filename: string)

  /** JavaScript truthiness: `undefined`, `false`, `0` and `""` are falsy. */
  predicate Truthy(v: Raw) {
    match v
    case Absent => false
    case Bool(b) => b
    case Num(n) => n != 0
    case Str(s) => s != ""
  }

  /** JavaScript's `a || b`: the first operand when it is truthy, else the second. */
  function Or(a: Raw, b: Raw): Raw {
    if Truthy(a) then a else b
  }

  /** What a Mongoose `required` validator accepts for a string path. */
  predicate Required(v: Raw) {
    v != Absent && v != Str("")
  }

  predicate StartsWith(s: string, prefix: string) {
    |prefix| <= |s| && s[..|prefix|] == prefix
  }

  // ---------------------------------------------------------------- digits

  predicate IsDigit(c: char) {
    '0' <= c <= '9'
  }

  predicate AllDigits(s: string) {
    forall i :: 0 <= i < |s| ==> IsDigit(s[i])
  }

  function DigitChar(d: nat): (c: char)
    requires d < 10
    ensures IsDigit(c) && (c as int) - ('0' as int) == d
  {
    (('0' as int) + d) as char
  }

  function DigitValue(c: char): nat
    requires IsDigit(c)
  {
    (c as int) - ('0' as int)
  }

  /** The value of the digits `ds` read after the digits whose value is `acc`. */
  function DecimalFrom(acc: nat, ds: string): nat
    requires AllDigits(ds)
    decreases |ds|
  {
    if ds == [] then acc else DecimalFrom(10 * acc + DigitValue(ds[0]), ds[1..])
  }

  /** The value of a string of decimal digits, most significant digit first. */
  function DecimalValue(ds: string): nat
    requires AllDigits(ds)
  {
    DecimalFrom(0, ds)
  }

  /** The shortest decimal representation of `n`, as `String(n)` gives it
      for an integer below 10^21 (larger numbers print in exponent form). */
  function NatToDecimal(n: nat): (s: string)
    ensures |s| > 0 && AllDigits(s)
    ensures |s| > 1 ==> s[0] != '0'
  {
    if n < 10 then [DigitChar(n)] else NatToDecimal(n / 10) + [DigitChar(n % 10)]
  }

  /** Appending a digit multiplies the value read so far by ten and adds the digit. */
  lemma {:induction false} DecimalFromSnoc(acc: nat, ds: string, c: char)
    requires AllDigits(ds) && IsDigit(c)
    ensures AllDigits(ds + [c])
    ensures DecimalFrom(acc, ds + [c]) == 10 * DecimalFrom(acc, ds) + DigitValue(c)
    decreases |ds|
  {
    if ds != [] {
      assert (ds + [c])[1..] == ds[1..] + [c];
      DecimalFromSnoc(10 * acc + DigitValue(ds[0]), ds[1..], c);
    }
  }

  /** Reading back the decimal representation of `n` gives `n`. */
  lemma {:induction false} DecimalRoundTrip(n: nat)
    ensures DecimalValue(NatToDecimal(n)) == n
  {
    if n < 10 {
      assert DecimalFrom(0, [DigitChar(n)]) == DecimalFrom(n, []);
    } else {
      DecimalRoundTrip(n / 10);
      DecimalFromSnoc(0, NatToDecimal(n / 10), DigitChar(n % 10));
      assert n == 10 * (n / 10) + n % 10;
    }
  }

  function IntToDecimal(n: int): string {
    if n < 0 then "-" + NatToDecimal(-n) else NatToDecimal(n)
  }

  /** `String(v)`, which is also what a template literal `${v}` inserts. */
  function ToString(v: Raw): string {
    match v
    case Absent => "undefined"
    case Bool(b) => if b then "true" else "false"
    case Num(n) => IntToDecimal(n)
    case Str(s) => s
  }

  /** The value a Mongoose `String` path stores for `v`: a missing value
      stays missing, anything else is converted with `String(v)`, so that
      `0` and `false` become the truthy strings `"0"` and `"false"`. */
  function CastString(v: Raw): (r: Raw)
    ensures v == Absent <==> r == Absent
    ensures r != Absent ==> r.Str? && ToString(r) == ToString(v)
    ensures v.Str? ==> r == v
    ensures v == Num(0) ==> r == Str("0")
    ensures v == Bool(false) ==> r == Str("false")
  {
    if v == Absent then Absent else Str(ToString(v))
  }

  // -------------------------------------------------------------- parseInt

  /** The white space and line terminators `parseInt` skips: tab,
      vertical tab, form feed, space, no-break space, the byte order mark,
      the other space separators, line feed, carriage return and the line
      and paragraph separators. */
  predicate IsSpace(c: char) {
    || c == '\t' || c == '\U{000B}' || c == '\U{000C}' || c == ' ' || c == '\U{00A0}' || c == '\U{FEFF}'
    || c == '\U{1680}' || ('\U{2000}' <= c <= '\U{200A}') || c == '\U{202F}' || c == '\U{205F}' || c == '\U{3000}'
    || c == '\n' || c == '\r' || c == '\U{2028}' || c == '\U{2029}'
  }

  function TrimStart(s: string): (r: string)
    ensures |r| <= |s| && r == s[|s| - |r|..]
    ensures r == [] || !IsSpace(r[0])
  {
    if |s| > 0 && IsSpace(s[0]) then TrimStart(s[1..]) else s
  }

  /** The longest prefix of `s` made of decimal digits. */
  function DigitPrefix(s: string): (r: string)
    ensures |r| <= |s| && r == s[..|r|] && AllDigits(r)
    ensures |r| < |s| ==> !IsDigit(s[|r|])
  {
    if |s| > 0 && IsDigit(s[0]) then [s[0]] + DigitPrefix(s[1..]) else []
  }

  /** The value of the run of digits `s` starts with; `None` when it starts
      with no digit. */
  function LeadingNumber(s: string): Option<int> {
    var ds := DigitPrefix(s);
    if ds == [] then None else Some(DecimalValue(ds))
  }

  function Negated(m: Option<int>): Option<int> {
    match m
    case None => None
    case Some(k) => Some(-k)
  }

  /** `parseInt(s)` in base 10: leading white space is skipped, an optional
      sign is read, then the longest run of digits; no digit at all gives
      `NaN`, modelled as `None`. */
  function ParseIntString(s: string): Option<int> {
    var t := TrimStart(s);
    if |t| > 0 && t[0] == '-' then Negated(LeadingNumber(t[1..]))
    else if |t| > 0 && t[0] == '+' then LeadingNumber(t[1..])
    else LeadingNumber(t)
  }

  /** `parseInt(v)`, exact on integers. JavaScript converts the argument to
      a string first; `ParseIntAgreesWithString` shows that this definition
      gives the same result. */
  function ParseInt(v: Raw): Option<int> {
    match v
    case Num(n) => Some(n)
    case Str(s) => ParseIntString(s)
    case _ => None
  }

  lemma {:induction false} DigitPrefixOfDigits(s: string)
    requires AllDigits(s)
    ensures DigitPrefix(s) == s
  {
    if |s| > 0 {
      DigitPrefixOfDigits(s[1..]);
    }
  }

  lemma {:induction false} LeadingNumberOfDecimal(n: nat)
    ensures LeadingNumber(NatToDecimal(n)) == Some(n)
  {
    DigitPrefixOfDigits(NatToDecimal(n));
    DecimalRoundTrip(n);
  }

  lemma ParseIntStringOfDigits(ds: string)
    requires |ds| > 0 && IsDigit(ds[0])
    ensures ParseIntString(ds) == LeadingNumber(ds)
  {
    assert TrimStart(ds) == ds;
  }

  lemma ParseIntStringOfMinus(ds: string)
    requires |ds| > 0 && IsDigit(ds[0])
    ensures ParseIntString("-" + ds) == Negated(LeadingNumber(ds))
  {
    var t := "-" + ds;
    assert TrimStart(t) == t;
    assert t[1..] == ds;
  }

  lemma ParseIntStringOfWord(w: string)
    requires |w| > 0 && 'a' <= w[0] <= 'z'
    ensures ParseIntString(w) == None
  {
    assert TrimStart(w) == w;
  }

  /** `parseInt` reads back the decimal representation of any integer. */
  lemma ParseIntStringOfIntToDecimal(n: int)
    ensures ParseIntString(IntToDecimal(n)) == Some(n)
  {
    if n < 0 {
      var ds := NatToDecimal(-n);
      calc {
        ParseIntString(IntToDecimal(n));
        ParseIntString("-" + ds);
        { ParseIntStringOfMinus(ds); }
        Negated(LeadingNumber(ds));
        { LeadingNumberOfDecimal(-n); }
        Negated(Some(-n));
      }
    } else {
      var ds := NatToDecimal(n);
      calc {
        ParseIntString(IntToDecimal(n));
        ParseIntString(ds);
        { ParseIntStringOfDigits(ds); }
        LeadingNumber(ds);
        { LeadingNumberOfDecimal(n); }
        Some(n);
      }
    }
  }

  /** `parseInt` reads back what `String` prints: `parseInt(String(v))`
      agrees with `ParseInt(v)` for every value, and so `parseInt` is exact
      on integers. */
  lemma ParseIntAgreesWithString(v: Raw)
    ensures ParseInt(v) == ParseIntString(ToString(v))
  {
    match v
    case Absent =>
      ParseIntStringOfWord("undefined");
    case Bool(b) =>
      ParseIntStringOfWord(if b then "true" else "false");
    case Str(_) =>
    case Num(n) =>
      ParseIntStringOfIntToDecimal(n);
  }

  // ------------------------------------------------- numeric conversion

  /** A whole string that is an optionally signed run of digits. */
  predicate IsIntegerLiteral(s: string) {
    var body := if |s| > 0 && (s[0] == '-' || s[0] == '+') then s[1..] else s;
    |body| > 0 && AllDigits(body)
  }

  function IntegerLiteralValue(s: string): int
    requires IsIntegerLiteral(s)
  {
    if s[0] == '-' then 0 - DecimalValue(s[1..])
    else if s[0] == '+' then DecimalValue(s[1..])
    else DecimalValue(s)
  }

  /** `Number(v)`, the conversion a relational operator such as `<` applies;
      `NaN` is `None`. */
  function NumberOf(v: Raw): Option<int> {
    match v
    case Absent => None
    case Bool(b) => Some(if b then 1 else 0)
    case Num(n) => Some(n)
    case Str(s) =>
      if s == "" then Some(0)
      else if IsIntegerLiteral(s) then Some(IntegerLiteralValue(s))
      else None
  }

  /** `v < k` for a number `k`: false whenever `v` converts to `NaN`. */
  predicate LessThan(v: Raw, k: int) {
    var x := NumberOf(v);
    x.Some? && x.value < k
  }
}

/**
  JavaScript values as the server and the client see them once JSON has been
  parsed, and the few pieces of JavaScript semantics the application relies
  on: truthiness, `a || b`, property reads, `.length`, object spread,
  `toLowerCase`, `includes` and `trim`.

  A property whose value is `undefined` is represented as an absent key: that
  is what `JSON.stringify` writes, and every read the application performs
  (`x.k`, `x.k || y`) observes the two alike.
 */
module JsValues {

  datatype Option<+T> = None | Some(value: T)

  /** A value that either was produced or was thrown as an Error with a message. */
  datatype Result<+T> = Ok(value: T) | Err(message: string)

  /** A parsed JSON document. Object key order is not kept. */
  datatype Json =
    | JNull
    | JBool(b: bool)
    | JNum(n: real)
    | JStr(s: string)
    | JArr(items: seq<Json>)
    | JObj(fields: map<string, Json>)

  /** One CSV row as csv-parser delivers it: column name to cell text. */
  type Row = map<string, string>

  /** JavaScript truthiness of a possibly undefined value (None is `undefined`). */
  predicate Truthy(v: Option<Json>) {
    match v
    case None => false
    case Some(j) =>
      match j
      case JNull => false
      case JBool(b) => b
      case JNum(n) => n != 0.0
      case JStr(s) => s != ""
      case JArr(_) => true
      case JObj(_) => true
  }

  /** `a || b`: the left operand when it is truthy, otherwise the right one. */
  function Or(a: Option<Json>, b: Option<Json>): Option<Json> {
    if Truthy(a) then a else b
  }

  /** `v.k` on a value that is not null or undefined. */
  function Field(v: Json, k: string): Option<Json> {
    if v.JObj? && k in v.fields then Some(v.fields[k]) else None
  }

  /** Adds property k to an object literal under construction; an undefined value leaves it out. */
  function Put(m: map<string, Json>, k: string, v: Option<Json>): (r: map<string, Json>)
    ensures k in r <==> v.Some?
    ensures v.Some? ==> r[k] == v.value
    ensures forall k' :: k' != k ==> (k' in r <==> k' in m) && (k' in r ==> r[k'] == m[k'])
  {
    if v.Some? then m[k := v.value] else m - {k}
  }

  /** `{error: message}`, the body of every error response. */
  function ErrorBody(message: string): Json {
    JObj(map["error" := JStr(message)])
  }

  /** `v.length`: defined on arrays, strings and objects carrying a `length` key. */
  function LengthOf(v: Json): Option<Json> {
    match v
    case JArr(items) => Some(JNum(|items| as real))
    case JStr(s) => Some(JNum(|s| as real))
    case JObj(_) => Field(v, "length")
    case _ => None
  }

  /** `{...v}`: the own enumerable properties a spread copies out of `v`. */
  function Spread(v: Json): (r: map<string, Json>)
    ensures v.JObj? ==> r == v.fields
    ensures !v.JObj? ==> forall k :: k in r ==> k != [] && '0' <= k[0] <= '9'
  {
    NatToDecimalInjective();
    match v
    case JObj(fields) => fields
    case JArr(items) => map i | 0 <= i < |items| :: NatToDecimal(i) := items[i]
    case JStr(s) => map i | 0 <= i < |s| :: NatToDecimal(i) := JStr([s[i]])
    case _ => map[]
  }

  // ---- rows ----

  /** A cell of a row, undefined when the column is absent. */
  function Cell(row: Row, k: string): Option<string> {
    if k in row then Some(row[k]) else None
  }

  /** Truthiness of a string that may be undefined, as `if (!userId)` tests it. */
  predicate PresentText(v: Option<string>) {
    v.Some? && v.value != ""
  }

  /** `a || b` on strings that may be undefined. */
  function OrText(a: Option<string>, b: Option<string>): Option<string> {
    if a.Some? && a.value != "" then a else b
  }

  /** A row serialised as a JSON object of strings. */
  function RowJson(row: Row): (j: Json)
    ensures j.JObj? && j.fields.Keys == row.Keys
  {
    JObj(map k | k in row :: JStr(row[k]))
  }

  /** An array of rows as `JSON.stringify` writes it. */
  function RowsJson(rows: seq<Row>): (js: seq<Json>)
    ensures |js| == |rows|
    ensures forall i :: 0 <= i < |rows| ==> js[i] == RowJson(rows[i])
  {
    seq(|rows|, i requires 0 <= i < |rows| => RowJson(rows[i]))
  }

  /** Reads a JSON object of strings back as a row. */
  function DecodeRow(j: Json): Option<Row> {
    if j.JObj? && forall k :: k in j.fields ==> j.fields[k].JStr?
    then Some(map k | k in j.fields :: j.fields[k].s)
    else None
  }

  /** A row survives being written as JSON and read back. */
  lemma DecodeRowJson(row: Row)
    ensures DecodeRow(RowJson(row)) == Some(row)
  {
    var j := RowJson(row);
    assert forall k :: k in j.fields ==> j.fields[k] == JStr(row[k]);
    assert forall k :: k in j.fields ==> j.fields[k].JStr?;
    var back := map k | k in j.fields :: j.fields[k].s;
    assert back.Keys == row.Keys;
    assert forall k :: k in back ==> back[k] == row[k];
    assert back == row;
  }

  lemma FieldOfRowJson(row: Row, k: string)
    ensures Field(RowJson(row), k) == if k in row then Some(JStr(row[k])) else None
  {
  }

  // ---- strings ----

  /** Decimal digits of a number, as a template literal prints an integer. */
  function NatToDecimal(n: nat): (s: string)
    ensures |s| >= 1
    ensures forall i :: 0 <= i < |s| ==> '0' <= s[i] <= '9'
    decreases n
  {
    if n < 10 then [Digit(n)] else NatToDecimal(n / 10) + [Digit(n % 10)]
  }

  /** Different numbers print differently, so array indices are distinct keys. */
  lemma NatToDecimalInjective()
    ensures forall a: nat, b: nat :: NatToDecimal(a) == NatToDecimal(b) ==> a == b
  {
    forall a: nat, b: nat | NatToDecimal(a) == NatToDecimal(b) ensures a == b {
      NatToDecimalInjectiveAt(a, b);
    }
  }

  lemma {:induction false} NatToDecimalInjectiveAt(a: nat, b: nat)
    requires NatToDecimal(a) == NatToDecimal(b)
    ensures a == b
    decreases a
  {
    var s := NatToDecimal(a);
    if a < 10 && b < 10 {
      assert Digit(a) == s[0] == Digit(b);
    } else if a >= 10 && b >= 10 {
      var n := |s|;
      assert s == NatToDecimal(a / 10) + [Digit(a % 10)];
      assert s == NatToDecimal(b / 10) + [Digit(b % 10)];
      assert Digit(a % 10) == s[n - 1] == Digit(b % 10);
      assert NatToDecimal(a / 10) == s[..n - 1] == NatToDecimal(b / 10);
      NatToDecimalInjectiveAt(a / 10, b / 10);
    }
  }

  function Digit(d: nat): (c: char)
    requires d < 10
    ensures '0' <= c <= '9'
  {
    (48 + d) as char
  }

  /** `toLowerCase` on the ASCII letters. */
  function LowerChar(c: char): char {
    if 'A' <= c <= 'Z' then (c as int + 32) as char else c
  }

  function Lower(s: string): (r: string)
    ensures |r| == |s|
    ensures forall i :: 0 <= i < |s| ==> r[i] == LowerChar(s[i])
  {
    seq(|s|, i requires 0 <= i < |s| => LowerChar(s[i]))
  }

  /** Lowercasing twice is lowercasing once. */
  lemma LowerIdempotent(s: string)
    ensures Lower(Lower(s)) == Lower(s)
  {
    var once := Lower(s);
    assert forall i :: 0 <= i < |s| ==> LowerChar(once[i]) == once[i];
  }

  /** `s.includes(t)`: t occurs in s at some position. */
  predicate Contains(s: string, t: string) {
    exists i :: 0 <= i <= |s| - |t| && t <= s[i..]
  }

  /** `s.endsWith(t)`. */
  predicate EndsWith(s: string, t: string) {
    |t| <= |s| && s[|s| - |t|..] == t
  }

  /** `EndsWith` is exactly "s is some string followed by t". */
  lemma EndsWithIsSuffix(s: string, t: string)
    ensures EndsWith(s, t) <==> exists p :: s == p + t
  {
    if EndsWith(s, t) {
      var p := s[..|s| - |t|];
      assert s == p + t;
    }
    if exists p :: s == p + t {
      var p :| s == p + t;
      assert s[|s| - |t|..] == t;
    }
  }

  /** The characters `String.prototype.trim` removes: WhiteSpace and LineTerminator of ECMAScript. */
  predicate IsJsWhitespace(c: char) {
    c == '\t' || c == '\n' || c == '\U{000B}' || c == '\U{000C}' || c == '\r' || c == ' '
    || c == '\U{00A0}' || c == '\U{1680}' || ('\U{2000}' <= c <= '\U{200A}')
    || c == '\U{2028}' || c == '\U{2029}' || c == '\U{202F}' || c == '\U{205F}'
    || c == '\U{3000}' || c == '\U{FEFF}'
  }

  function TrimStart(s: string): string
    decreases |s|
  {
    if s != [] && IsJsWhitespace(s[0]) then TrimStart(s[1..]) else s
  }

  function TrimEnd(s: string): string
    decreases |s|
  {
    if s != [] && IsJsWhitespace(s[|s| - 1]) then TrimEnd(s[..|s| - 1]) else s
  }

  function Trim(s: string): string {
    TrimEnd(TrimStart(s))
  }

  /** A string trims to nothing exactly when every character of it is whitespace. */
  lemma {:induction false} TrimEmptyIffBlank(s: string)
    ensures Trim(s) == "" <==> forall i :: 0 <= i < |s| ==> IsJsWhitespace(s[i])
  {
    TrimStartEmptyIffBlank(s);
    var t := TrimStart(s);
    if t != "" {
      TrimStartKeepsHead(s);
      assert !IsJsWhitespace(t[0]);
      TrimEndKeepsHead(t);
    }
  }

  lemma {:induction false} TrimStartEmptyIffBlank(s: string)
    ensures TrimStart(s) == "" <==> forall i :: 0 <= i < |s| ==> IsJsWhitespace(s[i])
    decreases |s|
  {
    if s != [] && IsJsWhitespace(s[0]) {
      TrimStartEmptyIffBlank(s[1..]);
      assert forall i :: 1 <= i < |s| ==> s[i] == s[1..][i - 1];
    }
  }

  lemma {:induction false} TrimStartKeepsHead(s: string)
    ensures TrimStart(s) != "" ==> !IsJsWhitespace(TrimStart(s)[0])
    decreases |s|
  {
    if s != [] && IsJsWhitespace(s[0]) {
      TrimStartKeepsHead(s[1..]);
    }
  }

  lemma {:induction false} TrimEndKeepsHead(s: string)
    requires s != [] && !IsJsWhitespace(s[0])
    ensures TrimEnd(s) != ""
    decreases |s|
  {
    if IsJsWhitespace(s[|s| - 1]) {
      assert |s| > 1;
      TrimEndKeepsHead(s[..|s| - 1]);
    }
  }
}

/**
 * The JavaScript values that flow through the request handlers and the
 * document store, with the few language rules the handlers rely on:
 * truthiness and `||`, property reads, `String(v)`, `trim`, `toLowerCase`
 * and `split('\n')`.
 */
module Json {
  import opened Wrappers

  /** A JSON/BSON value. `Time(t)` is a `Date` read from the injected clock. */
  datatype Value =
    | Undefined
    | Null
    | Bool(b: bool)
    | Num(n: int)
    | Str(s: string)
    | Time(t: nat)
    | List(items: seq<Value>)
    | Obj(fields: map<string, Value>)

  /** A plain object, and a stored document. */
  type Doc = map<string, Value>

  /** JavaScript truthiness: `undefined`, `null`, `false`, `0` and `''` are falsy. */
  predicate Truthy(v: Value) {
    match v
    case Undefined => false
    case Null => false
    case Bool(b) => b
    case Num(n) => n != 0
    case Str(s) => s != ""
    case _ => true
  }

  /** `a || b` */
  function Or(a: Value, b: Value): Value {
    if Truthy(a) then a else b
  }

  /** `d.k` on an object: a missing property reads as `undefined`. */
  function Get(d: Doc, k: string): Value {
    if k in d then d[k] else Undefined
  }

  /** `v.k` (and `const { k } = v`) on any value: reading through `undefined` or `null` throws a TypeError. */
  function Member(v: Value, k: string): (r: Result<Value>)
    ensures r.Err? <==> v.Undefined? || v.Null?
    ensures v.Obj? ==> r == Ok(Get(v.fields, k))
  {
    match v
    case Undefined => Err("Cannot read properties of undefined (reading '" + k + "')")
    case Null => Err("Cannot read properties of null (reading '" + k + "')")
    case Obj(m) => Ok(Get(m, k))
    case _ => Ok(Undefined)
  }

  /** `v?.k`: optional chaining reads `undefined` through `null` or `undefined`. */
  function OptionalGet(v: Value, k: string): Value {
    if v.Obj? then Get(v.fields, k) else Undefined
  }

  function DigitChar(d: nat): char
    requires d < 10
  {
    "0123456789"[d]
  }

  function NatString(n: nat): (r: string)
    ensures |r| >= 1
    ensures forall i :: 0 <= i < |r| ==> '0' <= r[i] <= '9'
  {
    if n < 10 then [DigitChar(n)] else NatString(n / 10) + [DigitChar(n % 10)]
  }

  /** The decimal text of an integer, as `String(n)` writes it. */
  function DecimalString(n: int): string {
    if n < 0 then "-" + NatString(-n) else NatString(n)
  }

  function JoinComma(parts: seq<string>): string {
    if |parts| == 0 then "" else if |parts| == 1 then parts[0] else parts[0] + "," + JoinComma(parts[1..])
  }

  /**
   * `String(v)`, as template literals and string concatenation apply it.
   * An array joins its elements with commas, writing `null` and `undefined`
   * elements as empty text.
   */
  function Display(v: Value): string
    decreases v
  {
    match v
    case Undefined => "undefined"
    case Null => "null"
    case Bool(b) => if b then "true" else "false"
    case Num(n) => DecimalString(n)
    case Str(s) => s
    case Time(t) => DecimalString(t)
    case List(items) =>
      JoinComma(seq(|items|, i requires 0 <= i < |items| =>
        if items[i].Undefined? || items[i].Null? then "" else Display(items[i])))
    case Obj(_) => "[object Object]"
  }

  /** The keys `"0"`, `"1"`, ... of an array-like value, each holding its element. */
  function IndexMap(items: seq<Value>): (r: Doc)
    ensures forall k :: k in r ==> |k| >= 1 && forall i :: 0 <= i < |k| ==> '0' <= k[i] <= '9'
    ensures |items| > 0 ==> NatString(|items| - 1) in r && r[NatString(|items| - 1)] == items[|items| - 1]
  {
    if items == [] then map[]
    else IndexMap(items[..|items| - 1])[NatString(|items| - 1) := items[|items| - 1]]
  }

  /**
   * The own enumerable properties `{ ...v }` copies: an object's fields, a
   * string's characters or an array's elements under their indices, and
   * nothing for any other value.
   */
  function Spread(v: Value): (r: Doc)
    ensures v.Obj? ==> r == v.fields
    ensures !(v.Obj? || v.Str? || v.List?) ==> r == map[]
    ensures "createdAt" in r <==> v.Obj? && "createdAt" in v.fields
  {
    match v
    case Obj(m) => m
    case Str(s) =>
      var r := IndexMap(seq(|s|, i requires 0 <= i < |s| => Str([s[i]])));
      assert "createdAt"[0] == 'c';
      r
    case List(items) =>
      var r := IndexMap(items);
      assert "createdAt"[0] == 'c';
      r
    case _ => map[]
  }

  /** `(v || 0) + 1`: numbers add, anything else truthy concatenates as text. */
  function PlusOne(v: Value): (r: Value)
    ensures !Truthy(v) ==> r == Num(1)
    ensures v.Num? ==> r == Num(v.n + 1)
  {
    match v
    case Num(n) => Num(n + 1)
    case Bool(b) => Num(if b then 2 else 1)
    case Undefined => Num(1)
    case Null => Num(1)
    case Str(s) => if s == "" then Num(1) else Str(s + "1")
    case _ => Str(Display(v) + "1")
  }

  /** The characters `String.prototype.trim` removes (Unicode spaces other than these are not modelled). */
  predicate IsSpace(c: char) {
    c == ' ' || c == '\t' || c == '\n' || c == '\r' || c == '\U{000B}' || c == '\U{000C}'
    || c == '\U{00A0}' || c == '\U{2028}' || c == '\U{2029}' || c == '\U{FEFF}'
  }

  function TrimStart(s: string): (r: string)
    ensures |r| <= |s| && r == s[|s| - |r|..]
    ensures r == [] || !IsSpace(r[0])
    ensures forall i :: 0 <= i < |s| - |r| ==> IsSpace(s[i])
  {
    if s != [] && IsSpace(s[0]) then TrimStart(s[1..]) else s
  }

  function TrimEnd(s: string): (r: string)
    ensures |r| <= |s| && r == s[..|r|]
    ensures r == [] || !IsSpace(r[|r| - 1])
    ensures forall i :: |r| <= i < |s| ==> IsSpace(s[i])
  {
    if s != [] && IsSpace(s[|s| - 1]) then TrimEnd(s[..|s| - 1]) else s
  }

  /** `r` is `s[k..]` cut to `|r|` characters, with only spaces before and after it. */
  predicate StrippedAt(s: string, k: nat, r: string) {
    && k + |r| <= |s| && r == s[k..k + |r|]
    && (forall i :: 0 <= i < k ==> IsSpace(s[i]))
    && (forall i :: k + |r| <= i < |s| ==> IsSpace(s[i]))
  }

  /**
   * `s.trim()`: the input with its leading and trailing spaces removed, so
   * the result is a slice of the input with only spaces around it, and is
   * empty or begins and ends with a non-space.
   */
  function Trim(s: string): (r: string)
    ensures r == [] || (!IsSpace(r[0]) && !IsSpace(r[|r| - 1]))
    ensures r == [] <==> forall i :: 0 <= i < |s| ==> IsSpace(s[i])
    ensures exists k: nat :: StrippedAt(s, k, r)
  {
    var t := TrimStart(s);
    var r := TrimEnd(t);
    assert r != [] ==> r[0] == t[0];
    TrimmedSlice(s, t, r);
    r
  }

  /** Cutting spaces from the front and then from the back leaves a slice with only spaces around it. */
  lemma TrimmedSlice(s: string, t: string, r: string)
    requires |t| <= |s| && t == s[|s| - |t|..]
    requires forall i :: 0 <= i < |s| - |t| ==> IsSpace(s[i])
    requires |r| <= |t| && r == t[..|r|]
    requires forall i :: |r| <= i < |t| ==> IsSpace(t[i])
    ensures StrippedAt(s, |s| - |t|, r)
  {
    var k := |s| - |t|;
    forall i | 0 <= i < |r|
      ensures r[i] == s[k + i]
    {
      assert r[i] == t[i];
    }
    assert r == s[k..k + |r|];
    forall i | k + |r| <= i < |s|
      ensures IsSpace(s[i])
    {
      assert s[i] == t[i - k];
    }
  }

  function LowerChar(c: char): char {
    if 'A' <= c <= 'Z' then (c as int + 32) as char else c
  }

  /** `s.toLowerCase()` on ASCII letters. */
  function Lower(s: string): (r: string)
    ensures |r| == |s|
  {
    seq(|s|, i requires 0 <= i < |s| => LowerChar(s[i]))
  }

  /** `haystack.includes(needle)`. */
  predicate Contains(haystack: string, needle: string)
    decreases |haystack|
  {
    needle <= haystack || (haystack != [] && Contains(haystack[1..], needle))
  }

  /** `s.split('\n')`: the pieces between newlines, always at least one. */
  function SplitLines(s: string): (parts: seq<string>)
    ensures |parts| >= 1
    ensures s != [] && s[0] != '\n' ==> parts[0] != [] && parts[0][0] == s[0]
    ensures forall i :: 0 <= i < |parts| ==> '\n' !in parts[i]
    decreases |s|
  {
    if s == [] then [""]
    else if s[0] == '\n' then [""] + SplitLines(s[1..])
    else
      var rest := SplitLines(s[1..]);
      [[s[0]] + rest[0]] + rest[1..]
  }
}

/**
 * The slice of PHP's value semantics the client relies on: dynamically typed
 * values, truthiness (`if ($x)`), string conversion (`.`), ASCII case mapping
 * (`strtoupper`, and the case-insensitive lookup of method names).
 */
module Php {

  /** A PHP value: what a caller passes, what `json_decode` yields, what a call returns. */
  datatype Mixed =
    | Null
    | Bool(b: bool)
    | Int(n: int)
    | Real(r: real)
    | Str(s: string)
    | List(items: seq<Mixed>)
    | Object(fields: map<string, Mixed>)

  /** PHP's FALSE, the failure sentinel every operation returns. */
  const False: Mixed := Bool(false)

  /** Whether `if ($m)` takes the then-branch. */
  predicate Truthy(m: Mixed) {
    match m
    case Null => false
    case Bool(b) => b
    case Int(n) => n != 0
    case Real(r) => r != 0.0
    case Str(s) => s != "" && s != "0"
    case List(items) => items != []
    case Object(_) => true
  }

  /** `$m->name` on a decoded JSON value: NULL when `$m` is no object or lacks the property. */
  function Prop(m: Mixed, name: string): Mixed {
    if m.Object? && name in m.fields then m.fields[name] else Null
  }

  /** `isset($m->name)`: the property exists and is not NULL. */
  predicate HasProp(m: Mixed, name: string) {
    !Prop(m, name).Null?
  }

  /** The elements `foreach ($m as $x)` visits for a decoded JSON array. */
  function Members(m: Mixed): seq<Mixed> {
    if m.List? then m.items else []
  }

  // ---------------------------------------------------------------- strings

  function DigitChar(d: nat): (c: char)
    requires d < 10
    ensures '0' <= c <= '9'
  {
    "0123456789"[d]
  }

  /** Decimal rendering of a natural number, most significant digit first. */
  function NatText(n: nat): (r: string)
    ensures |r| > 0
    ensures forall i :: 0 <= i < |r| ==> '0' <= r[i] <= '9'
    ensures |r| > 1 ==> r[0] != '0'
    decreases n
  {
    if n < 10 then [DigitChar(n)] else NatText(n / 10) + [DigitChar(n % 10)]
  }

  /** PHP's conversion of an integer to a string. */
  function IntText(n: int): (r: string)
    ensures |r| > 0
    ensures r[0] == '-' <==> n < 0
  {
    if n < 0 then "-" + NatText(-n) else NatText(n)
  }

  /** The string `$m` becomes in a concatenation (see README for the float and object cases). */
  function Text(m: Mixed): string {
    match m
    case Null => ""
    case Bool(b) => if b then "1" else ""
    case Int(n) => IntText(n)
    case Real(_) => ""
    case Str(s) => s
    case List(_) => "Array"
    case Object(_) => ""
  }

  function UpperChar(c: char): char {
    if 'a' <= c <= 'z' then (c as int - 32) as char else c
  }

  function LowerChar(c: char): char {
    if 'A' <= c <= 'Z' then (c as int + 32) as char else c
  }

  /** `strtoupper`: ASCII letters mapped to upper case, every other character kept. */
  function Upper(s: string): (r: string)
    ensures |r| == |s|
    ensures forall i :: 0 <= i < |s| ==> r[i] == UpperChar(s[i])
  {
    if s == [] then [] else [UpperChar(s[0])] + Upper(s[1..])
  }

  /** `strtolower`, which is also how PHP compares method names. */
  function Lower(s: string): (r: string)
    ensures |r| == |s|
    ensures forall i :: 0 <= i < |s| ==> r[i] == LowerChar(s[i])
  {
    if s == [] then [] else [LowerChar(s[0])] + Lower(s[1..])
  }

  /** A string without ASCII capitals is its own lower-case form. */
  lemma {:induction false} LowerOfLowerCase(s: string)
    requires forall i :: 0 <= i < |s| ==> !('A' <= s[i] <= 'Z')
    ensures Lower(s) == s
  {
    if s != [] {
      LowerOfLowerCase(s[1..]);
    }
  }

  /** Upper-casing twice is upper-casing once. */
  lemma {:induction false} UpperIdempotent(s: string)
    ensures Upper(Upper(s)) == Upper(s)
  {
    if s != [] {
      UpperIdempotent(s[1..]);
      assert Upper(s)[1..] == Upper(s[1..]);
    }
  }

  /** Two strings that are equal up to ASCII case. */
  predicate SameIgnoringCase(a: string, b: string) {
    Upper(a) == Upper(b)
  }

  /** Equality up to case is an equivalence, and it holds between a string and its upper-case form. */
  lemma SameIgnoringCaseIsEquivalence(a: string, b: string, c: string)
    ensures SameIgnoringCase(a, a)
    ensures SameIgnoringCase(a, b) ==> SameIgnoringCase(b, a)
    ensures SameIgnoringCase(a, b) && SameIgnoringCase(b, c) ==> SameIgnoringCase(a, c)
    ensures SameIgnoringCase(a, Upper(a))
  {
    UpperIdempotent(a);
  }
}

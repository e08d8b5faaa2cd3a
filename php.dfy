/**
 * The slice of PHP's value model that the plugin's decision rules depend on:
 * dynamically typed values, PHP truthiness (`if ($x)`, `!empty($x)`), the
 * `isset` test on an array key, and WordPress's `wp_parse_args`, which merges
 * caller options over defaults.
 *
 * A PHP array is one type; here it is split into `List` (an array with keys
 * 0..n-1) and `Dict` (an array with string keys). Floats and resources are not
 * modelled.
 */
module Php {

  datatype Value =
    | Null
    | Bool(b: bool)
    | Int(i: int)
    | Str(s: string)
    | List(items: seq<Value>)
    | Dict(entries: map<string, Value>)

  /** A value or PHP's null where the source reads a missing key or returns false for "nothing". */
  datatype Option<T> = None | Some(value: T)

  /** PHP's conversion to boolean: what `if ($v)` tests and `empty($v)` negates. */
  predicate Truthy(v: Value)
  {
    match v
    case Null => false
    case Bool(b) => b
    case Int(i) => i != 0
    case Str(s) => s != "" && s != "0"
    case List(items) => |items| > 0
    case Dict(entries) => |entries| > 0
  }

  /** `is_scalar`: booleans, integers and strings (null is not scalar). */
  predicate IsScalar(v: Value)
  {
    v.Bool? || v.Int? || v.Str?
  }

  /** `is_array`. */
  predicate IsArray(v: Value)
  {
    v.List? || v.Dict?
  }

  /** `$m[$k]` on a string-keyed array: a missing key reads as null. */
  function Lookup(m: map<string, Value>, k: string): (v: Value)
    ensures k !in m ==> v == Null
    ensures k in m ==> v == m[k]
  {
    if k in m then m[k] else Null
  }

  predicate IsDigit(c: char)
  {
    '0' <= c <= '9'
  }

  /** The number of decimal digits `k` starts with. */
  function LeadingDigits(k: string): (n: nat)
    ensures n <= |k|
    ensures forall i :: 0 <= i < n ==> IsDigit(k[i])
    ensures n < |k| ==> !IsDigit(k[n])
  {
    if k == [] || !IsDigit(k[0]) then 0 else 1 + LeadingDigits(k[1..])
  }

  /** The value of a string of decimal digits. */
  function DigitsValue(d: string): nat
    requires forall i :: 0 <= i < |d| ==> IsDigit(d[i])
  {
    if d == [] then 0
    else
      assert IsDigit(d[|d| - 1]);
      10 * DigitsValue(d[..|d| - 1]) + (d[|d| - 1] as int - '0' as int)
  }

  /**
   * The integer a string offset converts to, `(int) $k`: the value of its
   * leading digits, 0 when it has none (a sign or leading blanks are not modelled).
   */
  function StringOffset(k: string): (n: nat)
    ensures k == [] || !IsDigit(k[0]) ==> n == 0
  {
    assert k == [] || !IsDigit(k[0]) ==> k[..LeadingDigits(k)] == [];
    DigitsValue(k[..LeadingDigits(k)])
  }

  /** A key PHP stores as an integer key: decimal digits without a leading zero. */
  predicate IsIntegerKey(k: string)
  {
    LeadingDigits(k) == |k| > 0 && (k[0] == '0' ==> |k| == 1)
  }

  /**
   * `$v[$k]` on any value, as PHP 5.4 to 7.x reads it. An array reads the key
   * (a missing one as null; a list only has the integer keys 0..n-1); a string
   * reads the one character at the offset `(int) $k`, so a non-numeric key
   * reads its first character (with an "Illegal string offset" warning), and
   * an offset past the end reads as the empty string; null, booleans and
   * integers read as null.
   */
  function Index(v: Value, k: string): (r: Value)
    ensures v.Dict? ==> r == Lookup(v.entries, k)
    ensures v.List? && !IsIntegerKey(k) ==> r == Null
    ensures v.List? && IsIntegerKey(k) ==> r == if StringOffset(k) < |v.items| then v.items[StringOffset(k)] else Null
    ensures v.Str? && StringOffset(k) < |v.s| ==> r == Str([v.s[StringOffset(k)]])
    ensures v.Str? && StringOffset(k) >= |v.s| ==> r == Str("")
    ensures v.Str? && (k == [] || !IsDigit(k[0])) ==> r == if v.s == [] then Str("") else Str(v.s[..1])
    ensures !IsArray(v) && !v.Str? ==> r == Null
  {
    match v
    case Dict(entries) => Lookup(entries, k)
    case List(items) =>
      if IsIntegerKey(k) && StringOffset(k) < |items| then items[StringOffset(k)] else Null
    case Str(s) =>
      assert s != [] ==> s[..1] == [s[0]];
      if StringOffset(k) < |s| then Str([s[StringOffset(k)]]) else Str("")
    case _ => Null
  }

  /** `isset($m[$k])`: the key is present and its value is not null. */
  predicate Isset(m: map<string, Value>, k: string)
  {
    k in m && m[k] != Null
  }

  /**
   * `wp_parse_args($args, $defaults)` for an array (or, with an empty map,
   * `false`): every key the caller passes overrides the default under that
   * key, and every default the caller does not pass survives.
   */
  function ParseArgs(args: map<string, Value>, defaults: map<string, Value>): (r: map<string, Value>)
    ensures r.Keys == args.Keys + defaults.Keys
    ensures forall k :: k in args ==> r[k] == args[k]
    ensures forall k :: k in defaults && k !in args ==> r[k] == defaults[k]
  {
    defaults + args
  }

  /** Concatenation is associative; stated once so that long proofs can name the step. */
  lemma AppendAssoc<T>(a: seq<T>, b: seq<T>, c: seq<T>)
    ensures (a + b) + c == a + (b + c)
  {
  }
}

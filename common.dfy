/** Shared vocabulary: optional values, the JavaScript notion of a "truthy"
    field, and the few string operations the dashboard code relies on
    (`includes`, `endsWith`, `toLowerCase`, `substring(0, n)`). */
module Common {

  datatype Option<+T> = None | Some(value: T) {
    function GetOr(default: T): T {
      match this
      case Some(v) => v
      case None => default
    }
  }

  /** A number read from JSON or from a nullable column is truthy when it is
      present and not zero. */
  predicate TruthyInt(x: Option<int>) {
    x.Some? && x.value != 0
  }

  predicate TruthyReal(x: Option<real>) {
    x.Some? && x.value != 0.0
  }

  /** A string field is truthy when it is present and not empty. */
  predicate TruthyStr(x: Option<string>) {
    x.Some? && x.value != ""
  }

  /** `x || d` for a nullable integer. */
  function OrInt(x: Option<int>, d: int): int {
    if TruthyInt(x) then x.value else d
  }

  /** `x || d` for a nullable string. */
  function OrStr(x: Option<string>, d: string): string {
    if TruthyStr(x) then x.value else d
  }

  /** sub occurs in s at position i. */
  predicate OccursAt(s: string, sub: string, i: nat)
    requires i + |sub| <= |s|
  {
    s[i..i + |sub|] == sub
  }

  /** `s.includes(sub)` */
  predicate Contains(s: string, sub: string) {
    exists i: nat :: i + |sub| <= |s| && OccursAt(s, sub, i)
  }

  /** `s.endsWith(suffix)` */
  predicate EndsWith(s: string, suffix: string) {
    |suffix| <= |s| && s[|s| - |suffix|..] == suffix
  }

  /** `s.substring(0, n)` for n >= 0: the substring is clamped to the string. */
  function Prefix(s: string, n: nat): (r: string)
    ensures |r| == if n <= |s| then n else |s|
    ensures r <= s
  {
    if n <= |s| then s[..n] else s
  }

  /** Lower-casing of one character: ASCII capitals and the Latin-1 capitals
      U+00C0..U+00DE (except the multiplication sign U+00D7) move down by 32. */
  function LowerChar(c: char): char {
    if 'A' <= c <= 'Z' then
      (c as int + 32) as char
    else if 0xC0 <= c as int <= 0xDE && c as int != 0xD7 then
      (c as int + 32) as char
    else
      c
  }

  /** `s.toLowerCase()` on the characters LowerChar covers. */
  function ToLower(s: string): (r: string)
    ensures |r| == |s|
    ensures forall i :: 0 <= i < |s| ==> r[i] == LowerChar(s[i])
  {
    seq(|s|, i requires 0 <= i < |s| => LowerChar(s[i]))
  }

  lemma LowerCharIdempotent(c: char)
    ensures LowerChar(LowerChar(c)) == LowerChar(c)
  {
  }

  /** Lower-casing twice is lower-casing once. */
  lemma ToLowerIdempotent(s: string)
    ensures ToLower(ToLower(s)) == ToLower(s)
  {
    forall i | 0 <= i < |s|
      ensures ToLower(ToLower(s))[i] == ToLower(s)[i]
    {
      LowerCharIdempotent(s[i]);
    }
  }

  /** The query-string filter used by the report routes:
      `if (f && f !== 'all') where.field = f`. A missing, empty or 'all'
      filter admits every row. */
  predicate FilterAdmits(filter: Option<string>, value: string) {
    !(TruthyStr(filter) && filter.value != "all") || value == filter.value
  }

  lemma FilterAllAdmitsEverything(filter: Option<string>, value: string)
    requires filter == None || filter == Some("") || filter == Some("all")
    ensures FilterAdmits(filter, value)
  {
  }
}

/** Helpers shared across the whole model: an optional value (JavaScript's
    `undefined`) and the few string operations the source takes from the
    JavaScript runtime. */
module Common {

  datatype Option<+T> = None | Some(value: T)

  /** JavaScript truthiness of an optional string: present and not empty. */
  predicate Filled(s: Option<string>) {
    s.Some? && s.value != ""
  }

  /** How express-validator reads a request field: a missing value is checked as "". */
  function Text(s: Option<string>): string {
    if s.Some? then s.value else ""
  }

  predicate HasPrefix(s: string, p: string) {
    |p| <= |s| && s[..|p|] == p
  }

  /** `p` occurs in `s` starting at position `i`. */
  predicate OccursAt(s: string, p: string, i: nat) {
    i + |p| <= |s| && s[i..i + |p|] == p
  }

  /** The first position at or after `from` where `p` occurs in `s`
      (`String.prototype.indexOf`). */
  function IndexFrom(s: string, p: string, from: nat): (r: Option<nat>)
    requires from <= |s|
    decreases |s| - from
    ensures r.Some? ==> from <= r.value && OccursAt(s, p, r.value)
    ensures r.Some? ==> forall j :: from <= j < r.value ==> !OccursAt(s, p, j)
    ensures r.None? ==> forall j :: from <= j <= |s| ==> !OccursAt(s, p, j)
  {
    if OccursAt(s, p, from) then Some(from)
    else if from == |s| then None
    else IndexFrom(s, p, from + 1)
  }

  /** `s.replace(p, rep)` with a string pattern: only the FIRST occurrence of
      `p`, wherever it is, is replaced. */
  function ReplaceFirst(s: string, p: string, rep: string): (r: string)
    ensures (forall j :: 0 <= j <= |s| ==> !OccursAt(s, p, j)) ==> r == s
    ensures HasPrefix(s, p) ==> r == rep + s[|p|..]
    ensures forall i :: 0 <= i <= |s| && OccursAt(s, p, i) && (forall j :: 0 <= j < i ==> !OccursAt(s, p, j)) ==>
              r == s[..i] + rep + s[i + |p|..]
  {
    match IndexFrom(s, p, 0)
    case None => s
    case Some(i) => s[..i] + rep + s[i + |p|..]
  }

  function LowerChar(c: char): char {
    if 'A' <= c <= 'Z' then (c as int - 'A' as int + 'a' as int) as char else c
  }

  /** `String.prototype.toLowerCase` on ASCII text. */
  function Lower(s: string): string {
    seq(|s|, i requires 0 <= i < |s| => LowerChar(s[i]))
  }
}

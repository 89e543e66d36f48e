/** Ruby's `File.join` on two components: when the second starts with a separator, all
    trailing separators of the first are dropped; otherwise one separator is inserted
    unless the first already ends with one. Longer joins are left-nested, and an array
    argument is first joined on its own. */
module Paths {

  const Sep: char := '/'

  predicate EndsWithSep(s: string) {
    |s| > 0 && s[|s| - 1] == Sep
  }

  predicate StartsWithSep(s: string) {
    |s| > 0 && s[0] == Sep
  }

  function TrimTrailingSeps(s: string): (r: string)
    ensures r <= s
    ensures !EndsWithSep(r)
    ensures forall i | |r| <= i < |s| :: s[i] == Sep
  {
    if EndsWithSep(s) then TrimTrailingSeps(s[..|s| - 1]) else s
  }

  function Join(a: string, b: string): string {
    if StartsWithSep(b) then TrimTrailingSeps(a) + b
    else if EndsWithSep(a) then a + b
    else a + [Sep] + b
  }

  /** The directory part ending in exactly the separators it already has, or one more. */
  function AsDir(a: string): string {
    if EndsWithSep(a) then a else a + [Sep]
  }

  /** Joining a relative component appends it below `a` as a directory. */
  lemma JoinRelative(a: string, b: string)
    requires !StartsWithSep(b)
    ensures Join(a, b) == AsDir(a) + b
  {
  }

  /** Joining the empty component leaves `a` as a directory. */
  lemma JoinEmpty(a: string)
    ensures Join(a, "") == AsDir(a)
  {
  }

  /** `File.join` of a list of components: empty for none, the component itself for one,
      and each further component joined onto the result so far. */
  function JoinAll(parts: seq<string>): (r: string)
    ensures |parts| == 0 ==> r == ""
    ensures |parts| == 1 ==> r == parts[0]
  {
    if |parts| == 0 then ""
    else if |parts| == 1 then parts[0]
    else Join(JoinAll(parts[..|parts| - 1]), parts[|parts| - 1])
  }

  /** A component with no separator at either end. */
  predicate Plain(s: string) {
    |s| > 0 && !StartsWithSep(s) && !EndsWithSep(s)
  }

  /** The components written one after another with a single separator between them,
      the reference reading of a join of plain components. */
  function Slashed(parts: seq<string>): string {
    if |parts| == 0 then ""
    else if |parts| == 1 then parts[0]
    else Slashed(parts[..|parts| - 1]) + [Sep] + parts[|parts| - 1]
  }

  /** Joining plain components puts exactly one separator between neighbours. */
  lemma {:induction false} JoinAllPlain(parts: seq<string>)
    requires forall i | 0 <= i < |parts| :: Plain(parts[i])
    ensures JoinAll(parts) == Slashed(parts)
    ensures |parts| > 0 ==> Plain(JoinAll(parts))
  {
    if |parts| > 1 {
      var init, last := parts[..|parts| - 1], parts[|parts| - 1];
      JoinAllPlain(init);
      var a := JoinAll(init);
      assert Plain(a);
      assert Join(a, last) == a + [Sep] + last;
      assert (a + [Sep] + last)[0] == a[0];
      assert (a + [Sep] + last)[|a + [Sep] + last| - 1] == last[|last| - 1];
    }
  }

  /** A plain component below `a` ends without a separator, so one more is added. */
  lemma PlainDirBelow(a: string, sub: string)
    requires Plain(sub)
    ensures AsDir(AsDir(a) + sub) == AsDir(a) + sub + [Sep]
  {
    var dir := AsDir(a) + sub;
    assert dir[|dir| - 1] == sub[|sub| - 1];
  }
}

/** A POSIX `pathlib` path reduced to what the program uses: the directory part
    and the final component (`name`), plus the `stem`, `suffix` and
    `with_suffix` views of that final component. */
module Paths {
  import opened Outcomes

  /** `dir` is the parent directory as written ("" for the current one). */
  datatype Path = Path(dir: string, name: string)

  /** `str(path)`: the directory and the name joined by the separator. */
  function ToString(p: Path): string {
    if p.dir == "" then p.name else p.dir + "/" + p.name
  }

  /** `str.rfind(c)`: the index of the last occurrence of `c`, or -1. */
  function LastIndexOf(s: string, c: char): (i: int)
    ensures -1 <= i < |s|
    ensures i >= 0 ==> s[i] == c
    ensures forall k :: i < k < |s| ==> s[k] != c
  {
    if |s| == 0 then -1
    else if s[|s| - 1] == c then |s| - 1
    else LastIndexOf(s[..|s| - 1], c)
  }

  /** The last occurrence is the one index holding `c` with no `c` after it. */
  lemma LastIndexOfUnique(s: string, c: char, i: int)
    requires 0 <= i < |s| && s[i] == c
    requires forall k :: i < k < |s| ==> s[k] != c
    ensures LastIndexOf(s, c) == i
  {
  }

  /** Index of the dot that starts the suffix, when the name has a suffix:
      a last dot that is neither the first nor the last character. */
  function SuffixDot(name: string): (i: int)
    ensures i == -1 || 0 < i < |name| - 1
  {
    var i := LastIndexOf(name, '.');
    if 0 < i < |name| - 1 then i else -1
  }

  /** `PurePath.suffix` */
  function Suffix(name: string): (r: string)
    ensures r == "" || (|r| >= 2 && r[0] == '.' && forall k :: 0 < k < |r| ==> r[k] != '.')
  {
    var i := SuffixDot(name);
    if i == -1 then "" else name[i..]
  }

  /** `PurePath.stem` */
  function Stem(name: string): (r: string)
    ensures name != "" ==> r != ""
  {
    var i := SuffixDot(name);
    if i == -1 then name else name[..i]
  }

  /** The suffix argument `with_suffix` accepts: empty, or a dot followed by
      at least one character. */
  predicate ValidSuffix(suffix: string) {
    suffix == "" || (suffix[0] == '.' && suffix != ".")
  }

  /** `PurePath.with_suffix`, which raises for an empty name or an invalid suffix. */
  function WithSuffix(name: string, suffix: string): (r: Result<string>)
    ensures r.Ok? <==> name != "" && ValidSuffix(suffix)
    ensures r.Ok? ==> r.value == Stem(name) + suffix
  {
    if name == "" then Err("has an empty name")
    else if !ValidSuffix(suffix) then Err("Invalid suffix")
    else Ok(Stem(name) + suffix)
  }

  /** Replacing the suffix of a non-empty name by a one-dot suffix yields a
      name whose suffix is exactly that one and whose stem is unchanged. */
  lemma {:induction false} WithSuffixRoundTrip(name: string, suffix: string)
    requires name != ""
    requires |suffix| >= 2 && suffix[0] == '.'
    requires forall k :: 0 < k < |suffix| ==> suffix[k] != '.'
    ensures WithSuffix(name, suffix).Ok?
    ensures Suffix(WithSuffix(name, suffix).value) == suffix
    ensures Stem(WithSuffix(name, suffix).value) == Stem(name)
  {
    var s := Stem(name);
    var n := s + suffix;
    assert n[|s|] == '.';
    forall k | |s| < k < |n|
      ensures n[k] != '.'
    {
      assert n[k] == suffix[k - |s|];
    }
    LastIndexOfUnique(n, '.', |s|);
    assert n[|s|..] == suffix;
    assert n[..|s|] == s;
  }

  /** `str.lower()` restricted to ASCII letters. */
  function LowerChar(c: char): char {
    if 'A' <= c <= 'Z' then (c as int + 32) as char else c
  }

  function Lower(s: string): (r: string)
    ensures |r| == |s|
    ensures forall i :: 0 <= i < |s| ==> r[i] == LowerChar(s[i])
  {
    seq(|s|, i requires 0 <= i < |s| => LowerChar(s[i]))
  }

  predicate StartsWith(s: string, prefix: string) {
    |prefix| <= |s| && s[..|prefix|] == prefix
  }

  predicate EndsWith(s: string, suffix: string) {
    |suffix| <= |s| && s[|s| - |suffix|..] == suffix
  }
}

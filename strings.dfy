/** Python's `str.startswith`, `str.endswith` and POSIX `os.path.join`, on `seq<char>`. */
module Strings {

  predicate StartsWith(s: string, prefix: string) {
    |prefix| <= |s| && s[..|prefix|] == prefix
  }

  predicate EndsWith(s: string, suffix: string) {
    |suffix| <= |s| && s[|s| - |suffix|..] == suffix
  }

  /** `os.path.join(dir, name)` for two components: an absolute `name` wins, otherwise a
      separator is inserted unless `dir` is empty or already ends with one. */
  function Join(dir: string, name: string): (r: string)
    ensures StartsWith(name, "/") ==> r == name
    ensures !StartsWith(name, "/") ==> EndsWith(r, name) && StartsWith(r, dir)
  {
    if StartsWith(name, "/") then name
    else if dir == [] || EndsWith(dir, "/") then dir + name
    else dir + "/" + name
  }

  /** Joining under one directory never merges two different relative names. */
  lemma JoinInjective(dir: string, n1: string, n2: string)
    requires !StartsWith(n1, "/") && !StartsWith(n2, "/")
    requires Join(dir, n1) == Join(dir, n2)
    ensures n1 == n2
  {
    var p := if dir == [] || EndsWith(dir, "/") then dir else dir + "/";
    assert Join(dir, n1) == p + n1 && Join(dir, n2) == p + n2;
    assert n1 == (p + n1)[|p|..];
  }

  /** A fixed prefix and suffix around a variable part determine that part. */
  lemma {:induction false} AffixInjective(prefix: string, x: string, y: string, suffix: string)
    requires prefix + x + suffix == prefix + y + suffix
    ensures x == y
  {
    var s1, s2 := prefix + x + suffix, prefix + y + suffix;
    assert |x| == |y|;
    assert x == s1[|prefix|..|prefix| + |x|];
    assert y == s2[|prefix|..|prefix| + |y|];
  }
}

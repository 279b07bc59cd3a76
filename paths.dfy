/** File-system paths as the launcher builds them with `path.join`. */
module Paths {

  /**
   * `path.join(base, segs[0], ..., segs[n-1])`, modelled as plain
   * concatenation with '/' separators and no normalisation.
   */
  function Join(base: string, segs: seq<string>): string
    decreases |segs|
  {
    if segs == [] then base else Join(base + "/" + segs[0], segs[1..])
  }

  /**
   * A segment `path.join` keeps as a new component: not empty and not "."
   * or "..", which a normalising join would drop or fold into the base.
   */
  predicate PlainSegment(s: string)
  {
    s != "" && s != "." && s != ".."
  }

  /** A joined path lies strictly under its base: it starts with `base + "/"`. */
  lemma {:induction false} JoinUnder(base: string, segs: seq<string>)
    requires segs != []
    requires forall i :: 0 <= i < |segs| ==> PlainSegment(segs[i])
    ensures |base| < |Join(base, segs)|
    ensures Join(base, segs)[..|base| + 1] == base + "/"
    decreases |segs|
  {
    var next := base + "/" + segs[0];
    assert next[..|base| + 1] == base + "/";
    if segs[1..] != [] {
      assert forall i :: 0 <= i < |segs[1..]| ==> segs[1..][i] == segs[i + 1];
      JoinUnder(next, segs[1..]);
      var j := Join(next, segs[1..]);
      assert j[..|base| + 1] == j[..|next| + 1][..|base| + 1];
    }
  }

  /**
   * A joined path is never a bare command name: a name without '/' cannot
   * be the result of joining at least one segment.
   */
  lemma JoinNotBareName(base: string, segs: seq<string>, name: string)
    requires segs != []
    requires forall i :: 0 <= i < |segs| ==> PlainSegment(segs[i])
    requires forall i :: 0 <= i < |name| ==> name[i] != '/'
    ensures Join(base, segs) != name
  {
    JoinUnder(base, segs);
    var j := Join(base, segs);
    assert j[|base|] == j[..|base| + 1][|base|] == '/';
  }
}

/** The part of Go's path/filepath that the service relies on, for a Unix host. */
module Paths {

  const Separator: char := '/'

  predicate NoDotOrSeparator(s: string) {
    forall k :: 0 <= k < |s| ==> s[k] != '.' && s[k] != Separator
  }

  /**
   * The scan filepath.Ext performs: from index i down to 0, stopping at a
   * separator, the index of the first '.' met, or -1 when there is none.
   */
  function DotIndex(path: string, i: int): (j: int)
    requires -1 <= i < |path|
    ensures -1 <= j <= i
    ensures j >= 0 ==> path[j] == '.' && forall m :: j < m <= i ==> path[m] != '.' && path[m] != Separator
    ensures j < 0 ==> forall m :: 0 <= m <= i && path[m] == '.' ==> Separator in path[m..i + 1]
    decreases i + 1
  {
    if i < 0 || path[i] == Separator then -1
    else if path[i] == '.' then i
    else
      var j := DotIndex(path, i - 1);
      if j < 0 then
        assert forall m :: 0 <= m < i && path[m] == '.' ==> Separator in path[m..i + 1] by {
          forall m | 0 <= m < i && path[m] == '.' ensures Separator in path[m..i + 1] {
            var s :| 0 <= s < |path[m..i]| && path[m..i][s] == Separator;
            assert path[m..i + 1][s] == Separator;
          }
        }
        j
      else j
  }

  /**
   * filepath.Ext: the suffix of `path` that starts at the final '.' of its last
   * element, or "" when that element has no '.'.
   */
  function Ext(path: string): (r: string)
    ensures |r| <= |path| && r == path[|path| - |r|..]
    ensures r != "" ==> r[0] == '.'
  {
    var j := DotIndex(path, |path| - 1);
    if j < 0 then "" else path[j..]
  }

  /** A non-empty extension holds no further '.' and no separator. */
  lemma ExtHasOneDot(path: string)
    ensures Ext(path) != "" ==> NoDotOrSeparator(Ext(path)[1..])
  {
    var j := DotIndex(path, |path| - 1);
    if j >= 0 {
      var rest := Ext(path)[1..];
      forall k | 0 <= k < |rest| ensures rest[k] != '.' && rest[k] != Separator {
        assert rest[k] == path[j + 1 + k];
      }
    }
  }

  /** The extension is empty only when every '.' of the path is followed by a
      separator, that is, when the last element has no '.'. */
  lemma ExtEmptyWithoutDot(path: string)
    ensures Ext(path) == "" ==> forall k :: 0 <= k < |path| && path[k] == '.' ==> Separator in path[k..]
  {
    if DotIndex(path, |path| - 1) < 0 {
      forall k | 0 <= k < |path| && path[k] == '.' ensures Separator in path[k..] {
        assert path[k..|path| - 1 + 1] == path[k..];
      }
    }
  }

  /** A name built as `base + "." + e`, with no '.' or separator in `e`, has extension "." + e. */
  lemma ExtOfSuffix(base: string, e: string)
    requires NoDotOrSeparator(e)
    ensures Ext(base + "." + e) == "." + e
  {
    var path := base + "." + e;
    assert path[|base|] == '.';
    assert forall m :: |base| < m < |path| ==> path[m] == e[m - |base| - 1];
    assert DotIndex(path, |path| - 1) == |base|;
    assert path[|base|..] == "." + e;
  }
}

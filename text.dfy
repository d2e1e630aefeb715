/** String operations app.py relies on: `in` on strings, `str.startswith`
    and POSIX `os.path.join`. */
module Text {

  /** A directory entry as `os.listdir` reports it: non-empty, no separator,
      and neither `.` nor `..`. */
  predicate IsFileName(s: string) {
    |s| > 0 && '/' !in s && s != "." && s != ".."
  }

  type FileName = s: string | IsFileName(s) witness "audio"

  /** `s.startswith(prefix)` */
  predicate StartsWith(s: string, prefix: string) {
    |prefix| <= |s| && s[..|prefix|] == prefix
  }

  /** `sub` occurs in `s` at position `i`. */
  predicate OccursAt(s: string, sub: string, i: int) {
    0 <= i && i + |sub| <= |s| && s[i..i + |sub|] == sub
  }

  /** Python's `sub in s` for strings: try every starting position from the left. */
  predicate Contains(s: string, sub: string)
    decreases |s|
  {
    StartsWith(s, sub) || (|s| > 0 && Contains(s[1..], sub))
  }

  /** `Contains` is exactly substring occurrence. */
  lemma {:induction false} ContainsIffOccurs(s: string, sub: string)
    ensures Contains(s, sub) <==> exists i :: OccursAt(s, sub, i)
    decreases |s|
  {
    if Contains(s, sub) {
      if StartsWith(s, sub) {
        assert OccursAt(s, sub, 0);
      } else {
        ContainsIffOccurs(s[1..], sub);
        var j :| OccursAt(s[1..], sub, j);
        assert s[1..][j..j + |sub|] == s[j + 1..j + 1 + |sub|];
        assert OccursAt(s, sub, j + 1);
      }
    }
    if exists i :: OccursAt(s, sub, i) {
      var i :| OccursAt(s, sub, i);
      if i == 0 {
        assert StartsWith(s, sub);
      } else {
        assert s[1..][i - 1..i - 1 + |sub|] == s[i..i + |sub|];
        assert OccursAt(s[1..], sub, i - 1);
        ContainsIffOccurs(s[1..], sub);
      }
    }
  }

  /** POSIX `os.path.join(dir, name)`: an absolute `name` replaces `dir`;
      otherwise a separator is inserted unless `dir` is empty or already ends in one. */
  function Join(dir: string, name: string): string {
    if |name| > 0 && name[0] == '/' then name
    else if dir == [] || dir[|dir| - 1] == '/' then dir + name
    else dir + "/" + name
  }

  /** A joined file path lies under the directory and ends with the file's name. */
  lemma JoinPlacesNameUnderDir(dir: string, name: FileName)
    ensures StartsWith(Join(dir, name), dir)
    ensures |Join(dir, name)| > |dir|
    ensures Join(dir, name)[|Join(dir, name)| - |name|..] == name
  {
  }

  /** Distinct file names in one directory give distinct paths. */
  lemma JoinInjective(dir: string, a: FileName, b: FileName)
    ensures Join(dir, a) == Join(dir, b) <==> a == b
  {
    if Join(dir, a) == Join(dir, b) {
      var p := Join(dir, a);
      assert a == p[|p| - |a|..];
      assert b == p[|p| - |b|..];
      assert |a| == |b|;
    }
  }
}

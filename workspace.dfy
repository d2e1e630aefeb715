/** The per-job temporary directory of app.py (created by `tempfile.mkdtemp`,
    written by the downloaders, listed, emptied and removed). It is flat: its
    state is whether it exists and the names of the files in it, in listing order. */
module Workspace {
  import opened Text

  predicate Distinct(names: seq<FileName>) {
    forall i, j :: 0 <= i < j < |names| ==> names[i] != names[j]
  }

  /** The listing after a file `name` is created or overwritten: an existing
      entry keeps its place, a new one is listed last. */
  function Add(names: seq<FileName>, name: FileName): (r: seq<FileName>)
    ensures forall m :: m in r <==> m in names || m == name
    ensures names <= r
    ensures Distinct(names) ==> Distinct(r)
  {
    if name in names then names else names + [name]
  }

  /** The listing after the files `written` are created, in that order. */
  function WithFiles(names: seq<FileName>, written: seq<FileName>): (r: seq<FileName>)
    ensures forall m :: m in r <==> m in names || m in written
    ensures names <= r
    ensures Distinct(names) ==> Distinct(r)
    decreases |written|
  {
    if written == [] then names else WithFiles(Add(names, written[0]), written[1..])
  }

  /** The listing after `os.remove` of the entry `name`. */
  function Without(names: seq<FileName>, name: FileName): (r: seq<FileName>)
    ensures forall m :: m in r <==> m in names && m != name
    ensures |r| <= |names|
    ensures Distinct(names) ==> Distinct(r)
  {
    if names == [] then []
    else if names[0] == name then Without(names[1..], name)
    else
      assert Distinct(names) ==> names[0] !in names[1..] && Distinct(names[1..]) by {
        if Distinct(names) {
          forall j | 0 <= j < |names[1..]| ensures names[1..][j] != names[0] {
            assert names[1..][j] == names[j + 1];
          }
        }
      }
      [names[0]] + Without(names[1..], name)
  }

  /** Removing a name that is not listed changes nothing. */
  lemma {:induction false} WithoutAbsent(names: seq<FileName>, name: FileName)
    requires name !in names
    ensures Without(names, name) == names
  {
    if names != [] {
      WithoutAbsent(names[1..], name);
    }
  }

  /** Removing the first listed entry of a listing without repeats leaves the rest. */
  lemma WithoutFirst(names: seq<FileName>)
    requires Distinct(names) && names != []
    ensures Without(names, names[0]) == names[1..]
  {
    assert names[0] !in names[1..];
    WithoutAbsent(names[1..], names[0]);
  }

  /** `os.path.exists(p)` for a path under the directory `dir` holding `names`. */
  predicate PathIn(dir: string, names: seq<FileName>, p: string) {
    exists n :: n in names && Join(dir, n) == p
  }

  /** The path of a file under the directory exists exactly when the file is listed. */
  lemma PathInIffListed(dir: string, names: seq<FileName>, name: FileName)
    ensures PathIn(dir, names, Join(dir, name)) <==> name in names
  {
    if PathIn(dir, names, Join(dir, name)) {
      var n :| n in names && Join(dir, n) == Join(dir, name);
      JoinInjective(dir, n, name);
    }
  }

  /** A directory created by `tempfile.mkdtemp`. */
  class TempDir {
    const path: string
    var present: bool
    var names: seq<FileName>

    ghost predicate Valid()
      reads this
    {
      Distinct(names) && (!present ==> names == [])
    }

    /** `tempfile.mkdtemp()`: a new, empty directory at `path`. */
    constructor (path: string)
      ensures Valid() && this.path == path && present && names == []
    {
      this.path := path;
      present := true;
      names := [];
    }

    /** `os.listdir(path)` */
    function Listing(): (r: seq<FileName>)
      reads this
      requires Valid() && present
      ensures Distinct(r)
    {
      names
    }

    /** `os.path.exists(p)` for a path under this directory. */
    predicate Exists(p: string)
      reads this
    {
      present && PathIn(path, names, p)
    }

    /** A downloader creates the files `written` in this directory. */
    method Store(written: seq<FileName>)
      requires Valid() && present
      modifies this
      ensures Valid() && present
      ensures names == WithFiles(old(names), written)
    {
      names := WithFiles(names, written);
    }

    /** `os.remove(os.path.join(path, name))` of a listed file. */
    method Remove(name: FileName)
      requires Valid() && present && name in names
      modifies this
      ensures Valid() && present
      ensures names == Without(old(names), name)
      ensures name !in names
    {
      names := Without(names, name);
    }

    /** `os.rmdir(path)` of an empty directory. */
    method RemoveDir()
      requires Valid() && present && names == []
      modifies this
      ensures Valid() && !present && names == []
    {
      present := false;
    }
  }
}

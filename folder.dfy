/** The folder both drivers rename in, seen through `os.rename(old_path, new_path)`: a map from
    the names of its files to their contents (an opaque file identity). A rename fails, with an
    exception the drivers catch, when the source name is missing or the platform refuses it;
    what the platform refuses (a target that exists on Windows, an illegal name, a permission)
    is an oracle of the environment. When it succeeds it moves the file, replacing a file that
    had the target name, as POSIX `rename` does. */
module Folder {

  type FileId = nat

  type Dir = map<string, FileId>

  /** The platform's verdict on renaming `from` to `to` in a given folder. */
  type Refusal = (Dir, string, string) -> bool

  /** One logged rename: source, target, and whether it succeeded. */
  datatype Attempt = Attempt(from: string, to: string, ok: bool)

  /** The folder after a successful move of `from` to `to`. */
  function Moved(d: Dir, from: string, to: string): (r: Dir)
    requires from in d
    ensures to in r && r[to] == d[from]
    ensures from != to ==> from !in r
  {
    if from == to then d else (d - {from})[to := d[from]]
  }

  /** A move leaves every other name of the folder as it was. */
  lemma MovedElsewhere(d: Dir, from: string, to: string, x: string)
    requires from in d && x != from && x != to
    ensures x in Moved(d, from, to) <==> x in d
    ensures x in d ==> Moved(d, from, to)[x] == d[x]
  {
  }

  /** `os.rename(from, to)` in folder `d`: whether it succeeds, and the folder afterwards. */
  function RenameOutcome(d: Dir, from: string, to: string, refused: Refusal): (r: (Dir, bool))
    ensures r.1 <==> from in d && !refused(d, from, to)
    ensures r.1 ==> r.0 == Moved(d, from, to)
    ensures !r.1 ==> r.0 == d
  {
    if from !in d || refused(d, from, to) then (d, false) else (Moved(d, from, to), true)
  }

  /** A rename never creates content, and it loses a file exactly when it succeeds onto
      another existing name, which neither driver checks for before renaming. */
  lemma RenameLosesOnlyOnCollision(d: Dir, from: string, to: string, refused: Refusal)
    ensures var (r, ok) := RenameOutcome(d, from, to, refused);
            && r.Values <= d.Values
            && (ok && from != to && to in d <==> |r| == |d| - 1)
            && (!(ok && from != to && to in d) <==> |r| == |d|)
  {
    var (r, ok) := RenameOutcome(d, from, to, refused);
    if ok {
      forall v | v in r.Values ensures v in d.Values {
        var x :| x in r && r[x] == v;
        if x == to { assert d[from] == v; } else { assert d[x] == v; }
      }
      if from != to {
        var e := d - {from};
        assert |e| == |d| - 1;
        if to in d {
          assert r.Keys == e.Keys;
        } else {
          assert r.Keys == e.Keys + {to};
        }
      }
    }
  }

  /** What a logged attempt did to the folder: a success moved the file, a failure nothing. */
  function Apply(d: Dir, a: Attempt): Dir
  {
    if a.ok && a.from in d then Moved(d, a.from, a.to) else d
  }

  /** The folder after a sequence of logged attempts, in order. */
  function Replay(d: Dir, attempts: seq<Attempt>): Dir
  {
    if |attempts| == 0 then d else Apply(Replay(d, attempts[..|attempts| - 1]), attempts[|attempts| - 1])
  }

  /** The log says what the folder went through: replaying the attempt of one rename, with its
      outcome, gives the folder it left behind. */
  lemma OutcomeIsApply(d: Dir, from: string, to: string, refused: Refusal)
    ensures var (r, ok) := RenameOutcome(d, from, to, refused);
            r == Apply(d, Attempt(from, to, ok))
  {
  }

  /** Replaying one more attempt is one more step. */
  lemma ReplaySnoc(d: Dir, attempts: seq<Attempt>, a: Attempt)
    ensures Replay(d, attempts + [a]) == Apply(Replay(d, attempts), a)
  {
    assert (attempts + [a])[..|attempts|] == attempts;
  }

  /** The folder as the file system holds it: `os.listdir` and `os.rename` act on it in place. */
  class FileSystem {
    var entries: Dir
    const refused: Refusal

    constructor (entries: Dir, refused: Refusal)
      ensures this.entries == entries && this.refused == refused
    {
      this.entries := entries;
      this.refused := refused;
    }

    /** `os.rename`, raising (here: returning false) when it fails. */
    method Rename(from: string, to: string) returns (ok: bool)
      modifies this
      ensures (entries, ok) == RenameOutcome(old(entries), from, to, refused)
    {
      if from !in entries || refused(entries, from, to) {
        ok := false;
      } else {
        entries := Moved(entries, from, to);
        ok := true;
      }
    }
  }

  /** `os.listdir` of a folder of plain files: each name of the folder once, in some order. */
  predicate IsListing(files: seq<string>, d: Dir) {
    (forall f :: f in files ==> f in d) && (forall f :: f in d ==> f in files)
    && (forall j, k :: 0 <= j < k < |files| ==> files[j] != files[k])
  }
}

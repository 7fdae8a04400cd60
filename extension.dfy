/** The extension rule of both drivers: `_, ext = os.path.splitext(old_name)` and
    `if not new_name.endswith(ext): new_name = new_name + ext`. */
module Extension {
  import opened Text

  /** Index of the last `.` in `s`, or -1. */
  function LastDot(s: string): (i: int)
    ensures -1 <= i < |s|
    ensures i >= 0 ==> s[i] == '.'
    ensures forall j :: i < j < |s| ==> s[j] != '.'
  {
    if |s| == 0 then -1 else if s[|s| - 1] == '.' then |s| - 1 else LastDot(s[..|s| - 1])
  }

  /** Some character of `s` other than a dot. */
  predicate HasNonDot(s: string) {
    exists j :: 0 <= j < |s| && s[j] != '.'
  }

  /** `os.path.splitext` on a bare file name (one without path separators): the extension
      runs from the last dot to the end, unless every character before that dot is a dot
      too (`.bashrc`, `..jpg`), in which case there is none. */
  function SplitExt(name: string): (r: (string, string))
    ensures r.0 + r.1 == name
    ensures r.1 == "" || (r.1[0] == '.' && '.' !in r.1[1..])
  {
    var d := LastDot(name);
    if d >= 0 && HasNonDot(name[..d]) then
      assert name[d..][1..] == name[d + 1..];
      (name[..d], name[d..])
    else (name, "")
  }

  /** The extension `os.path.splitext` reports. */
  function Ext(name: string): string { SplitExt(name).1 }

  /** Forces the original extension onto a proposed name: it is appended only when the
      name does not already end with it (a case-sensitive test), so an empty extension
      leaves every name alone. */
  function FixExtension(name: string, ext: string): (r: string)
    ensures EndsWith(r, ext)
    ensures |name| <= |r| <= |name| + |ext| && r[..|name|] == name
    ensures EndsWith(name, ext) <==> r == name
  {
    if EndsWith(name, ext) then name
    else
      assert (name + ext)[|name + ext| - |ext|..] == ext;
      name + ext
  }

  /** Fixing the extension twice changes nothing more. */
  lemma FixExtensionIdempotent(name: string, ext: string)
    ensures FixExtension(FixExtension(name, ext), ext) == FixExtension(name, ext)
  {
  }

  /** The last dot of a name that ends in an extension is the extension's dot. */
  lemma LastDotOfExtended(t: string, ext: string)
    requires |ext| > 0 && ext[0] == '.' && '.' !in ext[1..]
    ensures LastDot(t + ext) == |t|
  {
    var s := t + ext;
    var d := LastDot(s);
    assert s[|t|] == '.';
    assert forall j :: |t| < j < |s| ==> s[j] == ext[1..][j - |t| - 1];
  }

  /** The renamed file keeps the original's extension, in the sense `os.path.splitext` reads
      it back: when the original has one and the proposed name is non-empty and does not
      start with a dot. */
  lemma {:induction false} FixExtensionKeepsExt(original: string, name: string)
    requires Ext(original) != ""
    requires |name| > 0 && name[0] != '.'
    ensures Ext(FixExtension(name, Ext(original))) == Ext(original)
  {
    var ext := Ext(original);
    var r := FixExtension(name, ext);
    var t := r[..|r| - |ext|];
    assert r == t + ext;
    assert r[0] == name[0];
    LastDotOfExtended(t, ext);
    assert r[..|t|][0] == name[0];
    assert HasNonDot(r[..|t|]);
  }

  /** A proposed name that is the bare extension itself (a reply `.jpg` for `a.jpg`) already
      ends with it, so it is kept as it is, and `os.path.splitext` reads it as a dot-file
      with no extension at all: the extension the driver meant to keep is lost. */
  lemma BareExtensionLosesExt(original: string)
    requires Ext(original) != ""
    ensures var ext := Ext(original);
            && FixExtension(ext, ext) == ext
            && Ext(FixExtension(ext, ext)) == ""
  {
    var ext := Ext(original);
    LastDotOfExtended([], ext);
    assert [] + ext == ext;
    assert !HasNonDot(ext[..0]);
  }

  /** The counter-case for `a.jpg` and the reply name `.jpg`. */
  lemma DotJpgLosesExt()
    ensures Ext("a.jpg") == ".jpg"
    ensures FixExtension(".jpg", ".jpg") == ".jpg" && Ext(FixExtension(".jpg", ".jpg")) == ""
  {
    assert "a" + ".jpg" == "a.jpg";
    LastDotOfExtended("a", ".jpg");
    assert HasNonDot("a.jpg"[..1]) by { assert "a.jpg"[..1][0] != '.'; }
    assert "a.jpg"[1..] == ".jpg";
    BareExtensionLosesExt("a.jpg");
  }
}

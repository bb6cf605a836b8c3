/** A small model of the Windows path decomposition the menu relies on
    (file name, parent directory, stem and extension), in the spirit of
    std::filesystem on Windows: both '\' and '/' separate components, a
    drive root such as "C:\" is its own parent directory and has an empty
    file name, and the extension starts at the last dot of the file name
    unless that dot is the first character (".profile" has no extension). */
module Paths {

  predicate IsSeparator(c: char) {
    c == '\\' || c == '/'
  }

  predicate HasNoSeparator(s: string) {
    forall i :: 0 <= i < |s| ==> !IsSeparator(s[i])
  }

  /** Index of the last separator in `s`, or -1 when there is none. */
  function LastSeparator(s: string): (k: int)
    ensures -1 <= k < |s|
    ensures k >= 0 ==> IsSeparator(s[k])
    ensures forall j :: k < j < |s| ==> !IsSeparator(s[j])
  {
    if s == [] then -1
    else if IsSeparator(s[|s| - 1]) then |s| - 1
    else LastSeparator(s[..|s| - 1])
  }

  /** Index of the last '.' in `s`, or -1 when there is none. */
  function LastDot(s: string): (k: int)
    ensures -1 <= k < |s|
    ensures k >= 0 ==> s[k] == '.'
    ensures forall j :: k < j < |s| ==> s[j] != '.'
  {
    if s == [] then -1
    else if s[|s| - 1] == '.' then |s| - 1
    else LastDot(s[..|s| - 1])
  }

  /** The last component of `p` (std::filesystem::path::filename). */
  function Filename(p: string): (r: string)
    ensures HasNoSeparator(r)
    ensures |r| <= |p| && r == p[|p| - |r|..]
    ensures r == p || IsSeparator(p[|p| - |r| - 1])
  {
    p[LastSeparator(p) + 1..]
  }

  /** A root name: nothing at all, or a drive such as "C:". */
  predicate IsRootName(q: string) {
    q == "" || (|q| == 2 && q[1] == ':')
  }

  /** The directory holding `p` (std::filesystem::path::parent_path): `p` is
      its parent, possibly one separator, then its file name. A component
      directly under a root keeps the root's separator ("C:\x" has parent
      "C:\"), so the parent of such an item has an empty file name. */
  function ParentPath(p: string): (r: string)
    ensures r <= p
    ensures p == r + Filename(p)
         || (|r| < |p| && IsSeparator(p[|r|]) && p == r + [p[|r|]] + Filename(p))
  {
    var k := LastSeparator(p);
    assert Filename(p) == p[k + 1..];
    if k < 0 then
      assert p == "" + p[k + 1..];
      ""
    else if IsRootName(p[..k]) then
      assert p == p[..k + 1] + p[k + 1..];
      p[..k + 1]
    else
      assert p == p[..k] + [p[k]] + p[k + 1..];
      p[..k]
  }

  /** Where the extension starts inside the file name `f`, or |f| if it has none. */
  function ExtensionStart(f: string): (k: nat)
    ensures k <= |f|
    ensures k < |f| ==> 0 < k && f[k] == '.'
    ensures forall j :: k < j < |f| ==> f[j] != '.'
  {
    if f == "." || f == ".." then |f|
    else
      var d := LastDot(f);
      if d <= 0 then |f| else d
  }

  /** The file name without its extension (std::filesystem::path::stem). */
  function Stem(p: string): (r: string)
    ensures r <= Filename(p)
  {
    var f := Filename(p);
    f[..ExtensionStart(f)]
  }

  /** The extension of the file name `f`, dot included. */
  function FileExtension(f: string): (r: string)
    ensures r == "" || r[0] == '.'
    ensures forall j :: 0 < j < |r| ==> r[j] != '.'
    ensures f == f[..ExtensionStart(f)] + r
  {
    f[ExtensionStart(f)..]
  }

  /** The extension of the file name, dot included (std::filesystem::path::extension). */
  function Extension(p: string): (r: string)
    ensures r == "" || r[0] == '.'
    ensures forall j :: 0 < j < |r| ==> r[j] != '.'
    ensures Filename(p) == Stem(p) + r
  {
    FileExtension(Filename(p))
  }

  /** A separator with none after it is the last separator. */
  lemma LastSeparatorAt(p: string, k: nat)
    requires k < |p| && IsSeparator(p[k])
    requires forall j :: k < j < |p| ==> !IsSeparator(p[j])
    ensures LastSeparator(p) == k
  {
  }

  /** A non-leading dot with none after it starts the extension. */
  lemma LastDotAt(f: string, k: nat)
    requires 0 < k < |f| && f[k] == '.' && f != ".."
    requires forall j :: k < j < |f| ==> f[j] != '.'
    ensures ExtensionStart(f) == k
  {
  }

  /** A path whose last separator at `k` follows a named directory has the
      path up to `k` as its parent. */
  lemma ParentPathAt(p: string, k: nat)
    requires k < |p| && IsSeparator(p[k]) && !IsRootName(p[..k])
    requires forall j :: k < j < |p| ==> !IsSeparator(p[j])
    ensures ParentPath(p) == p[..k]
  {
    LastSeparatorAt(p, k);
  }

  /** The parent of a named directory's child is that directory. */
  lemma ParentOfChild(dir: string, name: string)
    requires !IsRootName(dir) && HasNoSeparator(name)
    ensures ParentPath(dir + "\\" + name) == dir
  {
    var p, k := dir + "\\" + name, |dir|;
    forall j | k < j < |p| ensures !IsSeparator(p[j]) {
      assert p[j] == name[j - k - 1];
    }
    assert p[..k] == dir;
    ParentPathAt(p, k);
  }
}

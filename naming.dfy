/** Archive classification and the default names the menu derives from a
    selection (7Zip.ShellExtension.cpp, IsArchiveExt, BaseName and
    DefaultArchiveName). Whether a path is a directory is a filesystem
    query; it enters as the oracle `isDir`. */
module Naming {
  import opened Paths
  import opened Sequences

  /** ASCII lower-casing of one character, as case-insensitive comparison folds it. */
  function FoldChar(c: char): char {
    if 'A' <= c <= 'Z' then (c as int + 32) as char else c
  }

  function FoldCase(s: string): (r: string)
    ensures |r| == |s|
    ensures forall i :: 0 <= i < |s| ==> r[i] == FoldChar(s[i])
  {
    seq(|s|, i requires 0 <= i < |s| => FoldChar(s[i]))
  }

  /** Case-insensitive equality (_wcsicmp(a, b) == 0, with ASCII folding). */
  predicate EqualsIgnoreCase(a: string, b: string) {
    FoldCase(a) == FoldCase(b)
  }

  predicate IsLowerCase(s: string) {
    forall i :: 0 <= i < |s| ==> !('A' <= s[i] <= 'Z')
  }

  /** The fixed, closed table of recognised archive extensions, in the order
      the source lists them. */
  const ArchiveExtensions: seq<string> :=
    [".7z", ".zip", ".rar", ".tar", ".gz", ".xz", ".bz2", ".cab", ".wim", ".lzma", ".zst", ".arj"]

  /** The scan over the table: does `ext` match some entry, ignoring case? */
  function MatchesAny(ext: string, table: seq<string>): (r: bool)
    ensures r <==> exists i :: 0 <= i < |table| && EqualsIgnoreCase(ext, table[i])
  {
    if table == [] then false
    else if EqualsIgnoreCase(ext, table[0]) then true
    else
      assert forall i :: 1 <= i < |table| ==> table[i] == table[1..][i - 1];
      MatchesAny(ext, table[1..])
  }

  lemma LowerCaseFolds(s: string)
    requires IsLowerCase(s)
    ensures FoldCase(s) == s
  {
  }

  /** Against a table of lower-case entries, the scan is membership of the folded extension. */
  lemma {:induction false} MatchesLowerCaseTable(ext: string, table: seq<string>)
    requires forall i :: 0 <= i < |table| ==> IsLowerCase(table[i])
    ensures MatchesAny(ext, table) <==> FoldCase(ext) in table
  {
    if table != [] {
      LowerCaseFolds(table[0]);
      MatchesLowerCaseTable(ext, table[1..]);
      assert table == [table[0]] + table[1..];
    }
  }

  /** The table is written in lower case. */
  lemma ArchiveTableLowerCase()
    ensures forall i :: 0 <= i < |ArchiveExtensions| ==> IsLowerCase(ArchiveExtensions[i])
  {
    forall i | 0 <= i < |ArchiveExtensions| ensures IsLowerCase(ArchiveExtensions[i]) {
      var e := ArchiveExtensions[i];
      assert forall j :: 0 <= j < |e| ==> e[j] == '.' || 'a' <= e[j] <= 'z' || '0' <= e[j] <= '9';
    }
  }

  /** IsArchiveExt: `ext` is one of the twelve table entries up to case. */
  function IsArchiveExt(ext: string): (r: bool)
    ensures r <==> FoldCase(ext) in ArchiveExtensions
  {
    ArchiveTableLowerCase();
    MatchesLowerCaseTable(ext, ArchiveExtensions);
    MatchesAny(ext, ArchiveExtensions)
  }

  lemma {:induction false} FoldCaseIdempotent(s: string)
    ensures FoldCase(FoldCase(s)) == FoldCase(s)
  {
    var f := FoldCase(s);
    forall i | 0 <= i < |s| ensures FoldCase(f)[i] == f[i] {
      assert FoldChar(FoldChar(s[i])) == FoldChar(s[i]);
    }
  }

  /** Only the case of an extension matters for classification. */
  lemma ArchiveExtIgnoresCase(a: string, b: string)
    requires EqualsIgnoreCase(a, b)
    ensures IsArchiveExt(a) == IsArchiveExt(b)
  {
  }

  /** Every recognised extension is a dot followed by two to four characters,
      none of them a dot; so a name with "no extension" is never an archive. */
  lemma ArchiveExtShape(ext: string)
    requires IsArchiveExt(ext)
    ensures 3 <= |ext| <= 5 && ext[0] == '.'
    ensures forall j :: 0 < j < |ext| ==> ext[j] != '.'
  {
    var f := FoldCase(ext);
    assert f[0] == FoldChar(ext[0]);
    forall j | 0 < j < |ext| ensures ext[j] != '.' {
      assert f[j] == FoldChar(ext[j]);
    }
  }

  /** The name the menu shows for one item: the whole file name of a
      directory, the file name without extension of anything else. */
  function BaseName(p: string, isDir: string -> bool): (r: string)
    ensures HasNoSeparator(r)
    ensures isDir(p) ==> r == Filename(p)
    ensures !isDir(p) ==> r + Extension(p) == Filename(p)
  {
    if isDir(p) then Filename(p) else Stem(p)
  }

  /** The name of the directory holding `p`: a single component, strictly
      shorter than `p`, and empty for an item directly under a root. */
  function ParentName(p: string): (r: string)
    ensures HasNoSeparator(r)
    ensures p != "" ==> |r| < |p|
  {
    ParentNameShorter(p);
    Filename(ParentPath(p))
  }

  /** A path that is its own parent (a root) has an empty file name. */
  lemma ParentNameShorter(p: string)
    ensures |ParentPath(p)| < |p| || Filename(ParentPath(p)) == ""
  {
    var parent := ParentPath(p);
    if |parent| >= |p| {
      assert parent == p;
      assert |p + Filename(p)| == |p|;
    }
  }

  /** The allSameParent scan: every path shares the parent of the first;
      the scan stops at the first path with another parent. */
  function AllSameParent(paths: seq<string>): (r: bool)
    requires paths != []
    ensures r <==> forall i :: 0 <= i < |paths| ==> ParentPath(paths[i]) == ParentPath(paths[0])
  {
    var parent := ParentPath(paths[0]);
    AllOf(paths, p => ParentPath(p) == parent)
  }

  /** The scan against the first path means the same as "all paths pairwise share a parent". */
  lemma AllSameParentPairwise(paths: seq<string>)
    requires paths != []
    ensures AllSameParent(paths) <==>
            forall p, q :: p in paths && q in paths ==> ParentPath(p) == ParentPath(q)
  {
    if AllSameParent(paths) {
      forall p, q | p in paths && q in paths ensures ParentPath(p) == ParentPath(q) {
        var i :| 0 <= i < |paths| && paths[i] == p;
        var j :| 0 <= j < |paths| && paths[j] == q;
      }
    }
  }

  /** The archive name proposed for a selection: "Archive" for nothing, the
      item's own name for one item, the shared parent's name for several
      items in one named directory, "Archive" otherwise; always followed by
      `ext`. */
  function DefaultArchiveName(paths: seq<string>, ext: string, isDir: string -> bool): (r: string)
    ensures |ext| <= |r| && r[|r| - |ext|..] == ext
    ensures paths == [] ==> r == "Archive" + ext
    ensures |paths| == 1 ==> r == BaseName(paths[0], isDir) + ext
    ensures |paths| > 1 && AllSameParent(paths) && ParentName(paths[0]) != "" ==>
              r == ParentName(paths[0]) + ext
    ensures |paths| > 1 && !(AllSameParent(paths) && ParentName(paths[0]) != "") ==>
              r == "Archive" + ext
    ensures HasNoSeparator(ext) ==> HasNoSeparator(r)
  {
    if paths == [] then "Archive" + ext
    else if |paths| == 1 then BaseName(paths[0], isDir) + ext
    else if AllSameParent(paths) && ParentName(paths[0]) != "" then ParentName(paths[0]) + ext
    else "Archive" + ext
  }

  /** The proposed name does not depend on the order of the selection. */
  lemma DefaultArchiveNameIgnoresOrder(a: seq<string>, b: seq<string>, ext: string, isDir: string -> bool)
    requires multiset(a) == multiset(b)
    ensures DefaultArchiveName(a, ext, isDir) == DefaultArchiveName(b, ext, isDir)
  {
    assert |a| == |multiset(a)| == |multiset(b)| == |b|;
    if |a| == 1 {
      assert a[0] in multiset(b);
      assert a == [a[0]] && b == [b[0]];
    } else if |a| > 1 {
      assert forall x :: x in a <==> x in b by {
        forall x ensures x in a <==> x in b {
          assert x in a <==> x in multiset(a);
          assert x in b <==> x in multiset(b);
        }
      }
      AllSameParentPairwise(a);
      AllSameParentPairwise(b);
      assert a[0] in b && b[0] in a;
      if AllSameParent(a) {
        assert ParentPath(b[0]) == ParentPath(a[0]);
      }
    }
  }

  /** Every character of a path's file name occurs in the path. */
  lemma FilenameChars(p: string, c: char)
    requires c in Filename(p)
    ensures c in p
  {
    var f := Filename(p);
    var i :| 0 <= i < |f| && f[i] == c;
    assert p[|p| - |f| + i] == c;
  }

  /** Every character of the parent directory's name occurs in the path. */
  lemma ParentNameChars(p: string, c: char)
    requires c in ParentName(p)
    ensures c in p
  {
    var pp := ParentPath(p);
    FilenameChars(pp, c);
    var i :| 0 <= i < |pp| && pp[i] == c;
    assert p[i] == c;
  }

  /** Characters that are in no input never appear in the proposed name; in
      particular a name built from quote-free paths is quote-free. */
  lemma DefaultArchiveNameChars(paths: seq<string>, ext: string, isDir: string -> bool, c: char)
    requires c !in ext && c !in "Archive"
    requires forall i :: 0 <= i < |paths| ==> c !in paths[i]
    ensures c !in DefaultArchiveName(paths, ext, isDir)
  {
    var r := DefaultArchiveName(paths, ext, isDir);
    if |paths| == 1 {
      var b := BaseName(paths[0], isDir);
      assert r == b + ext;
      if c in Filename(paths[0]) {
        FilenameChars(paths[0], c);
      }
    } else if |paths| > 1 && AllSameParent(paths) && ParentName(paths[0]) != "" {
      if c in ParentName(paths[0]) {
        ParentNameChars(paths[0], c);
      }
    }
  }

  /** Worked case: one file is named after itself, without its extension. */
  lemma SingleFileExample(isDir: string -> bool)
    requires !isDir("C:\\a\\report.txt")
    ensures DefaultArchiveName(["C:\\a\\report.txt"], ".7z", isDir) == "report.7z"
  {
    var report := "C:\\a\\report.txt";
    assert BaseName(report, isDir) == "report" by {
      LastSeparatorAt(report, 4);
      assert Filename(report) == "report.txt";
      LastDotAt("report.txt", 6);
    }
    ExampleNames();
  }

  /** Worked case: any two files in `C:\a` are named after the folder. */
  lemma SameFolderExample(x: string, y: string, isDir: string -> bool)
    requires HasNoSeparator(x) && HasNoSeparator(y)
    ensures DefaultArchiveName(["C:\\a\\" + x, "C:\\a\\" + y], ".7z", isDir) == "a.7z"
  {
    var paths := ["C:\\a\\" + x, "C:\\a\\" + y];
    forall i | 0 <= i < |paths| ensures ParentPath(paths[i]) == "C:\\a" {
      var name := if i == 0 then x else y;
      assert paths[i] == "C:\\a" + "\\" + name;
      ParentOfChild("C:\\a", name);
    }
    assert Filename("C:\\a") == "a" by {
      LastSeparatorAt("C:\\a", 2);
    }
    SharedParentName(paths, ".7z", isDir, "C:\\a", "a");
    ExampleNames();
  }

  /** Several paths in one directory with a name are named after it. */
  lemma SharedParentName(paths: seq<string>, ext: string, isDir: string -> bool, dir: string, name: string)
    requires |paths| > 1 && Filename(dir) == name != ""
    requires forall i :: 0 <= i < |paths| ==> ParentPath(paths[i]) == dir
    ensures DefaultArchiveName(paths, ext, isDir) == name + ext
  {
  }

  /** The names the worked cases expect, spelled out. */
  lemma ExampleNames()
    ensures "report" + ".7z" == "report.7z" && "a" + ".7z" == "a.7z"
    ensures "Archive" + ".7z" == "Archive.7z" && "Archive" + ".zip" == "Archive.zip"
  {
  }

  /** Worked case: files in `C:\a` and `C:\b` get the fallback name. */
  lemma DifferentFoldersExample(x: string, y: string, isDir: string -> bool)
    requires HasNoSeparator(x) && HasNoSeparator(y)
    ensures DefaultArchiveName(["C:\\a\\" + x, "C:\\b\\" + y], ".7z", isDir) == "Archive.7z"
  {
    var paths := ["C:\\a\\" + x, "C:\\b\\" + y];
    assert ParentPath(paths[1]) != ParentPath(paths[0]) by {
      assert paths[0] == "C:\\a" + "\\" + x && paths[1] == "C:\\b" + "\\" + y;
      ParentOfChild("C:\\a", x);
      ParentOfChild("C:\\b", y);
    }
    MixedParentsFallBack(paths, ".7z", isDir, 1);
    ExampleNames();
  }

  /** Several paths, one of them in another directory than the first, get
      the fallback name. */
  lemma MixedParentsFallBack(paths: seq<string>, ext: string, isDir: string -> bool, i: nat)
    requires 0 < i < |paths| && ParentPath(paths[i]) != ParentPath(paths[0])
    ensures DefaultArchiveName(paths, ext, isDir) == "Archive" + ext
  {
  }

  /** Worked case: any two items directly under `C:\` get the fallback
      name, because the root has no name of its own. */
  lemma DriveRootExample(x: string, y: string, isDir: string -> bool)
    requires HasNoSeparator(x) && HasNoSeparator(y)
    ensures DefaultArchiveName(["C:\\" + x, "C:\\" + y], ".zip", isDir) == "Archive.zip"
  {
    var paths := ["C:\\" + x, "C:\\" + y];
    assert ParentName(paths[0]) == "" by {
      var p := paths[0];
      forall j | 2 < j < |p| ensures !IsSeparator(p[j]) {
        assert p[j] == x[j - 3];
      }
      LastSeparatorAt(p, 2);
      assert p[..2] == "C:";
      LastSeparatorAt("C:\\", 2);
    }
    NamelessParentFallBack(paths, ".zip", isDir);
    ExampleNames();
  }

  /** Several paths whose first parent has no name (a root) get the
      fallback name. */
  lemma NamelessParentFallBack(paths: seq<string>, ext: string, isDir: string -> bool)
    requires |paths| > 1 && ParentName(paths[0]) == ""
    ensures DefaultArchiveName(paths, ext, isDir) == "Archive" + ext
  {
  }
}

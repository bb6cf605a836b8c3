/** The command catalog: the closed set of command identities, the fixed
    menu tree (a root flyout with twelve children, one of which is the hash
    submenu with four children) and, for every node, its title, visibility
    and flags as functions of the selected paths. The paths given to these
    rules are the list produced by the selection collector (module
    Selection). */
module Catalog {
  import opened Paths
  import opened Naming
  import opened Sequences

  datatype CommandId =
    | None
    | Open | Test | ExtractFiles | ExtractHere | ExtractTo
    | AddToArchive | AddTo7z | AddToZip
    | EmailArchive | Email7z | EmailZip
    | CRCMenu | CRC32 | CRC64 | SHA1 | SHA256

  /** One menu entry: its identity and its static fallback title. */
  datatype Command = Command(id: CommandId, title: string)

  /** A node of the menu tree: the root flyout, or one of the commands under it. */
  datatype Node = Root | Entry(command: Command)

  datatype State = Hidden | Enabled

  datatype Flags = Default | HasSubCommands

  /** What asking a node for its children yields: no children (E_NOTIMPL) or the list. */
  datatype SubCommandResult = NotImplemented | Enumerated(items: seq<Command>)

  predicate IsHashLeaf(id: CommandId) {
    id == CRC32 || id == CRC64 || id == SHA1 || id == SHA256
  }

  /** The commands that only make sense on archives. */
  predicate IsArchiveCommand(id: CommandId) {
    id == Test || id == ExtractFiles || id == ExtractHere || id == ExtractTo
  }

  /** The four commands whose title names the archive they will create. */
  predicate IsNamedAdd(id: CommandId) {
    id == AddTo7z || id == AddToZip || id == Email7z || id == EmailZip
  }

  predicate IsZipVariant(id: CommandId) {
    id == AddToZip || id == EmailZip
  }

  function Ids(cs: seq<Command>): (r: seq<CommandId>)
    ensures |r| == |cs| && forall i :: 0 <= i < |cs| ==> r[i] == cs[i].id
  {
    seq(|cs|, i requires 0 <= i < |cs| => cs[i].id)
  }

  predicate Distinct(ids: seq<CommandId>) {
    forall i, j :: 0 <= i < j < |ids| ==> ids[i] != ids[j]
  }

  /** Where an identity sits in the menu: the root's children are 0 to 11 in
      on-screen order, the hash submenu's children 12 to 15; None is not in
      the menu. */
  function CatalogPosition(id: CommandId): int {
    match id
    case None => -1
    case Open => 0
    case ExtractFiles => 1
    case ExtractHere => 2
    case ExtractTo => 3
    case Test => 4
    case AddToArchive => 5
    case AddTo7z => 6
    case AddToZip => 7
    case EmailArchive => 8
    case Email7z => 9
    case EmailZip => 10
    case CRCMenu => 11
    case CRC32 => 12
    case CRC64 => 13
    case SHA1 => 14
    case SHA256 => 15
  }

  /** The root's children, in on-screen order. */
  function RootChildren(): (r: seq<Command>)
    ensures |r| == 12
    ensures forall i :: 0 <= i < |r| ==> CatalogPosition(r[i].id) == i
  {
    [ Command(Open, "Open archive"),
      Command(ExtractFiles, "Extract files..."),
      Command(ExtractHere, "Extract Here"),
      Command(ExtractTo, "Extract to \\<Folder>\\"),
      Command(Test, "Test archive"),
      Command(AddToArchive, "Add to archive..."),
      Command(AddTo7z, "Add to \"<Name>.7z\""),
      Command(AddToZip, "Add to \"<Name>.zip\""),
      Command(EmailArchive, "Compress and email..."),
      Command(Email7z, "Compress to \"<Name>.7z\" and email"),
      Command(EmailZip, "Compress to \"<Name>.zip\" and email"),
      Command(CRCMenu, "CRC SHA") ]
  }

  /** The hash submenu's children. */
  function HashChildren(): (r: seq<Command>)
    ensures |r| == 4
    ensures forall i :: 0 <= i < |r| ==> CatalogPosition(r[i].id) == 12 + i
  {
    [ Command(CRC32, "CRC-32"),
      Command(CRC64, "CRC-64"),
      Command(SHA1, "SHA-1"),
      Command(SHA256, "SHA-256") ]
  }

  /** The tree: every identity except None sits exactly once in it, the hash
      leaves only under the hash submenu, everything else directly under the
      root. */
  lemma CatalogTree()
    ensures Distinct(Ids(RootChildren() + HashChildren()))
    ensures forall id :: id != None ==> id in Ids(RootChildren() + HashChildren())
    ensures forall i :: 0 <= i < 4 ==> IsHashLeaf(HashChildren()[i].id)
    ensures forall i :: 0 <= i < 12 ==> !IsHashLeaf(RootChildren()[i].id) && RootChildren()[i].id != None
  {
    var all := RootChildren() + HashChildren();
    var ids := Ids(all);
    assert forall i :: 0 <= i < |all| ==> CatalogPosition(ids[i]) == i;
    forall id | id != None ensures id in ids {
      var k := CatalogPosition(id);
      assert 0 <= k < 16;
      assert CatalogPosition(ids[k]) == k;
      assert ids[k] == id;
    }
  }

  /** One selected path carries a recognised archive extension. */
  predicate IsArchivePath(p: string) {
    IsArchiveExt(Extension(p))
  }

  /** The allArchives scan: every path carries a recognised archive
      extension; the scan stops at the first path that does not. */
  function AllArchives(paths: seq<string>): (r: bool)
    ensures r <==> forall i :: 0 <= i < |paths| ==> IsArchiveExt(Extension(paths[i]))
  {
    AllOf(paths, IsArchivePath)
  }

  /** GetState: whether the node is shown for this selection. */
  function GetState(node: Node, paths: seq<string>): (r: State)
    ensures node.Root? ==> r == Enabled
    ensures node.Entry? && paths == [] ==> r == Hidden
    ensures node.Entry? && node.command.id == Open ==>
              (r == Enabled <==> |paths| == 1 && AllArchives(paths))
    ensures node.Entry? && IsArchiveCommand(node.command.id) ==>
              (r == Enabled <==> paths != [] && AllArchives(paths))
    ensures node.Entry? && node.command.id != Open && !IsArchiveCommand(node.command.id) ==>
              (r == Enabled <==> paths != [])
  {
    match node
    case Root => Enabled
    case Entry(c) =>
      if paths == [] then Hidden
      else
        match c.id
        case Open => if |paths| == 1 && AllArchives(paths) then Enabled else Hidden
        case Test | ExtractFiles | ExtractHere | ExtractTo =>
          if AllArchives(paths) then Enabled else Hidden
        case _ => Enabled
  }

  /** Visibility depends only on which paths are selected, not on their order. */
  lemma StateIgnoresOrder(node: Node, a: seq<string>, b: seq<string>)
    requires multiset(a) == multiset(b)
    ensures GetState(node, a) == GetState(node, b)
  {
    assert |a| == |multiset(a)| == |multiset(b)| == |b|;
    forall i | 0 <= i < |a| ensures exists j :: 0 <= j < |b| && b[j] == a[i] {
      assert a[i] in multiset(b);
    }
    forall j | 0 <= j < |b| ensures exists i :: 0 <= i < |a| && a[i] == b[j] {
      assert b[j] in multiset(a);
    }
  }

  /** A string in double quotes, as titles and command lines write names. */
  function Quote(s: string): string {
    "\"" + s + "\""
  }

  /** The extension of the archive a named add/email command proposes. */
  function ArchiveExtFor(id: CommandId): (r: string)
    ensures r == ".zip" <==> IsZipVariant(id)
    ensures r == ".7z" <==> !IsZipVariant(id)
  {
    if IsZipVariant(id) then ".zip" else ".7z"
  }

  /** The archive a named add/email entry proposes carries an extension the
      menu itself recognises as an archive. */
  lemma ArchiveExtForIsArchive(id: CommandId)
    ensures IsArchiveExt(ArchiveExtFor(id))
  {
    if IsZipVariant(id) {
      assert ArchiveExtensions[1] == ".zip";
    } else {
      assert ArchiveExtensions[0] == ".7z";
    }
  }

  /** GetTitle: the text shown for the node with this selection. */
  function GetTitle(node: Node, paths: seq<string>, isDir: string -> bool): (r: string)
    ensures node.Root? ==> r == "7-Zip"
    ensures node.Entry? && (node.command.id == AddTo7z || node.command.id == AddToZip) ==>
              r == "Add to " + Quote(DefaultArchiveName(paths, ArchiveExtFor(node.command.id), isDir))
    ensures node.Entry? && (node.command.id == Email7z || node.command.id == EmailZip) ==>
              r == "Compress to " + Quote(DefaultArchiveName(paths, ArchiveExtFor(node.command.id), isDir)) + " and email"
    ensures node.Entry? && node.command.id == ExtractTo ==>
              r == if paths == [] then "Extract to \\<Folder>\\"
                   else "Extract to " + Quote(BaseName(paths[0], isDir) + "\\")
    ensures node.Entry? && !IsNamedAdd(node.command.id) && node.command.id != ExtractTo ==>
              r == node.command.title
  {
    match node
    case Root => "7-Zip"
    case Entry(c) =>
      if IsNamedAdd(c.id) then
        var base := DefaultArchiveName(paths, ArchiveExtFor(c.id), isDir);
        if c.id == AddTo7z || c.id == AddToZip then "Add to " + Quote(base)
        else "Compress to " + Quote(base) + " and email"
      else if c.id == ExtractTo then
        if paths != [] then "Extract to " + Quote(BaseName(paths[0], isDir) + "\\")
        else "Extract to \\<Folder>\\"
      else c.title
  }

  predicate EndsWith(s: string, suffix: string) {
    |suffix| <= |s| && s[|s| - |suffix|..] == suffix
  }

  /** The proposed archive is a .zip exactly for the Zip variants, a .7z otherwise. */
  lemma NamedAddExtension(id: CommandId, paths: seq<string>, isDir: string -> bool)
    requires IsNamedAdd(id)
    ensures var n := DefaultArchiveName(paths, ArchiveExtFor(id), isDir);
            (IsZipVariant(id) <==> EndsWith(n, ".zip")) && (!IsZipVariant(id) <==> EndsWith(n, ".7z"))
  {
    var n := DefaultArchiveName(paths, ArchiveExtFor(id), isDir);
    if IsZipVariant(id) {
      assert n[|n| - 1] == 'p';
      assert !EndsWith(n, ".7z");
    } else {
      assert n[|n| - 2] == '7';
      assert !EndsWith(n, ".zip");
    }
  }

  /** Titles that name an archive do not depend on selection order ... */
  lemma NamedAddTitleIgnoresOrder(c: Command, a: seq<string>, b: seq<string>, isDir: string -> bool)
    requires IsNamedAdd(c.id) && multiset(a) == multiset(b)
    ensures GetTitle(Entry(c), a, isDir) == GetTitle(Entry(c), b, isDir)
  {
    DefaultArchiveNameIgnoresOrder(a, b, ArchiveExtFor(c.id), isDir);
  }

  /** ... while the extract-to title names the first selected item only, so
      reordering a selection of differently named items changes it. */
  lemma ExtractToTitleFollowsFirst(c: Command, x: string, y: string, isDir: string -> bool)
    requires c.id == ExtractTo && BaseName(x, isDir) != BaseName(y, isDir)
    ensures GetTitle(Entry(c), [x, y], isDir) != GetTitle(Entry(c), [y, x], isDir)
  {
    var bx, bY := BaseName(x, isDir), BaseName(y, isDir);
    SuffixKeepsDifference(bx, bY, "\\");
    QuoteKeepsDifference(bx + "\\", bY + "\\");
    PrefixKeepsDifference("Extract to ", Quote(bx + "\\"), Quote(bY + "\\"));
  }

  /** Worked case: extract-to on a selected folder names that folder, and
      on an empty selection shows the placeholder. */
  lemma ExtractToTitleExample(c: Command, isDir: string -> bool)
    requires c.id == ExtractTo && isDir("C:\\data\\Photos")
    ensures GetTitle(Entry(c), ["C:\\data\\Photos"], isDir) == "Extract to \"Photos\\\""
    ensures GetTitle(Entry(c), [], isDir) == "Extract to \\<Folder>\\"
  {
    var p := "C:\\data\\Photos";
    LastSeparatorAt(p, 7);
    assert BaseName(p, isDir) == "Photos";
  }

  /** Helper for ExtractToTitleFollowsFirst: quoting is injective, so
      different names are quoted differently. */
  lemma QuoteKeepsDifference(a: string, b: string)
    requires a != b
    ensures Quote(a) != Quote(b)
  {
    if |a| == |b| {
      assert Quote(a)[1..|a| + 1] == a && Quote(b)[1..|b| + 1] == b;
    } else {
      assert |Quote(a)| != |Quote(b)|;
    }
  }

  /** GetFlags: only the hash submenu (and the root) has sub-commands. */
  function GetFlags(node: Node): (r: Flags)
    ensures r == HasSubCommands <==> SubCommands(node).Enumerated?
  {
    match node
    case Root => HasSubCommands
    case Entry(c) => if c.id == CRCMenu then HasSubCommands else Default
  }

  /** EnumSubCommands, as the list of children it enumerates. */
  function SubCommands(node: Node): (r: SubCommandResult)
    ensures node.Root? ==> r == Enumerated(RootChildren())
    ensures node.Entry? ==> (r.Enumerated? <==> node.command.id == CRCMenu)
    ensures r.Enumerated? && node.Entry? ==> r.items == HashChildren()
  {
    match node
    case Root => Enumerated(RootChildren())
    case Entry(c) => if c.id == CRCMenu then Enumerated(HashChildren()) else NotImplemented
  }
}

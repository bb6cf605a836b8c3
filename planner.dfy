/** The invocation planner (ExplorerCommandBase::Invoke): which external
    tool a command launches, with which command line, and how many times.
    A launch is fire-and-forget, so it is modelled as an entry appended to
    the shell's launch log. */
module Planner {
  import opened Paths
  import opened Naming
  import opened Catalog
  import opened Selection
  import opened Sequences

  /** Where the three tools are looked for: the directory of the extension
      module and the file-existence query of the file system. */
  datatype ToolEnv = ToolEnv(moduleDir: string, fileExists: string -> bool)

  const GuiArchiver := "7zG.exe"
  const ConsoleArchiver := "7z.exe"
  const FileManager := "7zFM.exe"

  /** Appending a file name to a directory, with one backslash between them. */
  function Combine(dir: string, name: string): string {
    if dir == "" then name
    else if dir[|dir| - 1] == '\\' then dir + name
    else dir + "\\" + name
  }

  /** The combined path is `dir`, at most one backslash, then `name`; a
      backslash always separates a non-empty `dir` from `name`. */
  lemma CombineShape(dir: string, name: string)
    ensures var r := Combine(dir, name);
            && dir <= r && |r| <= |dir| + 1 + |name|
            && |name| <= |r| && r[|r| - |name|..] == name
            && (dir == "" ==> r == name)
            && (dir != "" ==> |name| < |r| && r[|r| - |name| - 1] == '\\')
  {
  }

  /** The combined path names the file `name`: its last component is `name`. */
  lemma CombineFilename(dir: string, name: string)
    requires name != "" && HasNoSeparator(name)
    ensures Filename(Combine(dir, name)) == name
  {
    var r := Combine(dir, name);
    CombineShape(dir, name);
    var k := |r| - |name| - 1;
    assert forall j :: k < j < |r| ==> !IsSeparator(r[j]) by {
      forall j | k < j < |r| ensures !IsSeparator(r[j]) {
        assert r[j] == r[|r| - |name|..][j - (k + 1)] == name[j - (k + 1)];
      }
    }
    if dir == "" {
      assert LastSeparator(r) == -1;
    } else {
      LastSeparatorAt(r, k);
    }
    assert Filename(r) == r[k + 1..];
  }

  /** Find7zTool: the copy next to the extension module if it exists, else
      the bare name, left to the search path. */
  function Find7zTool(env: ToolEnv, name: string): (r: string)
    ensures env.fileExists(Combine(env.moduleDir, name)) ==> r == Combine(env.moduleDir, name)
    ensures !env.fileExists(Combine(env.moduleDir, name)) ==> r == name
  {
    var here := Combine(env.moduleDir, name);
    if env.fileExists(here) then here else name
  }

  /** Wherever Find7zTool finds it, the path names the requested executable. */
  lemma Find7zToolNamesTool(env: ToolEnv, name: string)
    requires name != "" && HasNoSeparator(name)
    ensures Filename(Find7zTool(env, name)) == name
  {
    if env.fileExists(Combine(env.moduleDir, name)) {
      CombineFilename(env.moduleDir, name);
    } else {
      assert LastSeparator(name) == -1;
    }
  }

  /** Every command launches the 7-Zip executable ToolFor picks for it. */
  lemma LaunchedToolIsNamed(env: ToolEnv, id: CommandId)
    ensures Filename(Find7zTool(env, ToolFor(id))) == ToolFor(id)
  {
    assert HasNoSeparator(FileManager) && HasNoSeparator(ConsoleArchiver) && HasNoSeparator(GuiArchiver);
    Find7zToolNamesTool(env, ToolFor(id));
  }

  /** The tool each command launches. */
  function ToolFor(id: CommandId): string {
    if id == Open then FileManager
    else if IsHashLeaf(id) then ConsoleArchiver
    else GuiArchiver
  }

  /** The file manager opens, the console archiver hashes, and the GUI
      archiver does everything else. */
  lemma ToolForChoice(id: CommandId)
    ensures ToolFor(id) == FileManager <==> id == Open
    ensures ToolFor(id) == ConsoleArchiver <==> IsHashLeaf(id)
    ensures ToolFor(id) == GuiArchiver <==> id != Open && !IsHashLeaf(id)
  {
  }

  /** One process launch: the executable and its argument string. */
  datatype Launch = Launch(exe: string, args: string)

  /** quoteJoin: every path in quotes, each followed by a space. */
  function QuoteJoin(v: seq<string>): string {
    if v == [] then "" else Quote(v[0]) + " " + QuoteJoin(v[1..])
  }

  /** The join is empty exactly for no paths; otherwise it opens with a quote
      and ends with the space after the last path, three characters at least
      per path. */
  lemma {:induction false} QuoteJoinShape(v: seq<string>)
    ensures var r := QuoteJoin(v);
            && (r == "" <==> v == [])
            && (v != [] ==> r[0] == '"' && r[|r| - 1] == ' ')
            && |r| >= 3 * |v|
  {
    if v != [] {
      QuoteJoinShape(v[1..]);
    }
  }

  predicate QuoteFree(s: string) {
    '"' !in s
  }

  /** Index of the first '"' in `s`, or |s|. */
  function FirstQuote(s: string): (k: nat)
    ensures k <= |s|
    ensures k < |s| ==> s[k] == '"'
    ensures forall j :: 0 <= j < k ==> s[j] != '"'
  {
    if s == [] || s[0] == '"' then 0 else 1 + FirstQuote(s[1..])
  }

  datatype Parse = Malformed | Parsed(tokens: seq<string>)

  /** Reads back a list written as `"a" "b" ... ` (each quoted, each followed by a space). */
  function ParseQuoted(s: string): Parse
    decreases |s|
  {
    if s == [] then Parsed([])
    else if s[0] != '"' then Malformed
    else
      var k := FirstQuote(s[1..]);
      if k + 2 < |s| && s[k + 2] == ' ' then
        match ParseQuoted(s[k + 3..])
        case Malformed => Malformed
        case Parsed(rest) => Parsed([s[1..k + 1]] + rest)
      else Malformed
  }

  lemma {:induction false} FirstQuoteAfter(p: string, rest: string)
    requires QuoteFree(p) && rest != [] && rest[0] == '"'
    ensures FirstQuote(p + rest) == |p|
  {
    if p != [] {
      assert (p + rest)[1..] == p[1..] + rest;
      FirstQuoteAfter(p[1..], rest);
    }
  }

  /** The joined list starts with the first path between quotes, then a
      space, then the join of the rest. */
  lemma QuoteJoinHead(v: seq<string>)
    requires v != [] && QuoteFree(v[0])
    ensures var s, k := QuoteJoin(v), |v[0]|;
            && k + 2 < |s| && s[0] == '"' && FirstQuote(s[1..]) == k && s[k + 2] == ' '
            && s[1..k + 1] == v[0] && s[k + 3..] == QuoteJoin(v[1..])
  {
    var p, tail := v[0], QuoteJoin(v[1..]);
    var s, k := QuoteJoin(v), |p|;
    var q := Quote(p);
    assert s == q + " " + tail;
    assert |q| == k + 2 && q[0] == '"' && q[k + 1] == '"' && q[1..k + 1] == p;
    assert s[..k + 2] == q;
    assert s[k + 3..] == tail;
    assert s[1..] == p + s[k + 1..];
    FirstQuoteAfter(p, s[k + 1..]);
  }

  /** The argument list a tool receives reads back as exactly the paths, in
      order, when no path contains a quote (no Windows path does). */
  lemma {:induction false} QuoteJoinRoundTrip(v: seq<string>)
    requires forall i :: 0 <= i < |v| ==> QuoteFree(v[i])
    ensures ParseQuoted(QuoteJoin(v)) == Parsed(v)
  {
    if v != [] {
      var tail := v[1..];
      assert v == [v[0]] + tail;
      QuoteJoinRoundTrip(tail);
      assert ParseQuoted(QuoteJoin(v)) == Parsed([v[0]] + tail) by {
        QuoteJoinHead(v);
        ParseQuotedCons(QuoteJoin(v), |v[0]|, v[0], tail);
      }
    }
  }

  /** A quoted token, a space, then a readable rest reads back as that token
      followed by the rest. */
  lemma ParseQuotedCons(s: string, k: nat, token: string, rest: seq<string>)
    requires k + 2 < |s| && s[0] == '"' && FirstQuote(s[1..]) == k && s[k + 2] == ' '
    requires s[1..k + 1] == token && ParseQuoted(s[k + 3..]) == Parsed(rest)
    ensures ParseQuoted(s) == Parsed([token] + rest)
  {
  }

  /** The arguments extracting `p` into a folder named after it: x -y -o"<BaseName(p)>\" "<p>". */
  function ExtractIntoArgs(p: string, isDir: string -> bool): string {
    "x -y -o\"" + BaseName(p, isDir) + "\\\"" + " " + Quote(p)
  }

  /** Extraction of `p` with yes-to-all into the output folder named by
      BaseName(p), a single component below the current folder, and the
      quoted archive path last. */
  lemma ExtractIntoArgsShape(p: string, isDir: string -> bool)
    ensures var r, name := ExtractIntoArgs(p, isDir), BaseName(p, isDir);
            && |r| == |name| + |p| + 13
            && r[..8] == "x -y -o\""
            && r[8..8 + |name|] == name && HasNoSeparator(r[8..8 + |name|])
            && r[8 + |name|..10 + |name|] == "\\\""
            && r[|r| - |p| - 2..] == Quote(p)
  {
    var name, q := BaseName(p, isDir), Quote(p);
    assert |q| == |p| + 2;
    ConcatPieces("x -y -o\"", name, "\\\"", " ", q);
  }

  /** One foldered extraction per path, in selection order. */
  function ExtractEach(paths: seq<string>, isDir: string -> bool, exe: string): (r: seq<Launch>)
    ensures |r| == |paths|
    ensures forall i :: 0 <= i < |r| ==> r[i].exe == exe
  {
    if paths == [] then []
    else [Launch(exe, ExtractIntoArgs(paths[0], isDir))] + ExtractEach(paths[1..], isDir, exe)
  }

  /** The i-th extraction extracts the i-th path into its own folder. */
  lemma {:induction false} ExtractEachAt(paths: seq<string>, isDir: string -> bool, exe: string, i: nat)
    requires i < |paths|
    ensures ExtractEach(paths, isDir, exe)[i] == Launch(exe, ExtractIntoArgs(paths[i], isDir))
  {
    var head := Launch(exe, ExtractIntoArgs(paths[0], isDir));
    assert ExtractEach(paths, isDir, exe) == [head] + ExtractEach(paths[1..], isDir, exe);
    if i > 0 {
      ExtractEachAt(paths[1..], isDir, exe, i - 1);
      assert paths[1..][i - 1] == paths[i];
    }
  }

  /** The switches put in front of the quoted path list by each command that
      launches once for the whole selection. */
  function Switches(id: CommandId): string {
    match id
    case Test => "t "
    case ExtractFiles => "x "
    case AddToArchive | EmailArchive | AddTo7z | Email7z => "a "
    case AddToZip | EmailZip => "a -tzip "
    case CRC32 => "h -scrcCRC32 "
    case CRC64 => "h -scrcCRC64 "
    case SHA1 => "h -scrcSHA1 "
    case SHA256 => "h -scrcSHA256 "
    case _ => ""
  }

  /** Commands that launch once, handing the tool every selected path. */
  predicate TakesWholeSelection(id: CommandId) {
    id == Test || id == ExtractFiles || id == AddToArchive || id == EmailArchive || IsHashLeaf(id)
  }

  /** Invoke, as the launches it issues for a collected path list. */
  function Plan(node: Node, paths: seq<string>, isDir: string -> bool, env: ToolEnv): (r: seq<Launch>)
    ensures paths == [] || node.Root? ==> r == []
    ensures |r| <= |paths|
    ensures node.Entry? && paths != [] ==>
              (r == [] <==> node.command.id == None || node.command.id == CRCMenu)
    ensures node.Entry? ==> forall i :: 0 <= i < |r| ==> r[i].exe == Find7zTool(env, ToolFor(node.command.id))
  {
    if node.Root? || paths == [] then []
    else
      var id := node.command.id;
      if id == Open then [Launch(Find7zTool(env, FileManager), Quote(paths[0]))]
      else if id == ExtractHere || id == ExtractTo then ExtractPlan(id, paths, isDir, env)
      else if IsNamedAdd(id) then NamedAddPlan(id, paths, isDir, env)
      else if TakesWholeSelection(id) then WholeSelectionPlan(id, paths, env)
      else []
  }

  /** The one launch of a command that hands its tool every selected path. */
  function WholeSelectionPlan(id: CommandId, paths: seq<string>, env: ToolEnv): seq<Launch>
    requires TakesWholeSelection(id)
  {
    [Launch(Find7zTool(env, ToolFor(id)), Switches(id) + QuoteJoin(paths))]
  }

  /** The one launch of a named add/email entry: the proposed archive name,
      then every selected path. */
  function NamedAddPlan(id: CommandId, paths: seq<string>, isDir: string -> bool, env: ToolEnv): seq<Launch>
    requires IsNamedAdd(id)
  {
    var out := DefaultArchiveName(paths, ArchiveExtFor(id), isDir);
    [Launch(Find7zTool(env, GuiArchiver), Switches(id) + Quote(out) + " " + QuoteJoin(paths))]
  }

  /** The launches of the two extract entries: in place for extract-here on
      a single path, one foldered extraction per path otherwise. */
  function ExtractPlan(id: CommandId, paths: seq<string>, isDir: string -> bool, env: ToolEnv): (r: seq<Launch>)
    requires id == ExtractHere || id == ExtractTo
    ensures 0 < |paths| ==> 0 < |r| <= |paths|
    ensures forall i :: 0 <= i < |r| ==> r[i].exe == Find7zTool(env, GuiArchiver)
  {
    var gui := Find7zTool(env, GuiArchiver);
    if id == ExtractHere && |paths| == 1 then [Launch(gui, "x -y " + Quote(paths[0]))]
    else ExtractEach(paths, isDir, gui)
  }

  /** A non-empty selection hands each extract entry to ExtractPlan. */
  lemma PlanDispatchExtract(c: Command, paths: seq<string>, isDir: string -> bool, env: ToolEnv)
    requires paths != [] && (c.id == ExtractHere || c.id == ExtractTo)
    ensures Plan(Entry(c), paths, isDir, env) == ExtractPlan(c.id, paths, isDir, env)
  {
  }

  /** A non-empty selection hands each named add/email entry to NamedAddPlan. */
  lemma PlanDispatchNamed(c: Command, paths: seq<string>, isDir: string -> bool, env: ToolEnv)
    requires paths != [] && IsNamedAdd(c.id)
    ensures Plan(Entry(c), paths, isDir, env) == NamedAddPlan(c.id, paths, isDir, env)
  {
    assert c.id != Open && c.id != ExtractHere && c.id != ExtractTo;
  }

  /** Open hands the file manager only the first path. */
  lemma PlanOpen(c: Command, paths: seq<string>, isDir: string -> bool, env: ToolEnv)
    requires c.id == Open && paths != []
    ensures Plan(Entry(c), paths, isDir, env) == [Launch(Find7zTool(env, FileManager), Quote(paths[0]))]
  {
  }

  /** Test, extract-files, the plain add/email entries and the hash leaves
      launch once, with their switches followed by every selected path. */
  lemma PlanWholeSelection(c: Command, paths: seq<string>, isDir: string -> bool, env: ToolEnv)
    requires TakesWholeSelection(c.id) && paths != []
    ensures Plan(Entry(c), paths, isDir, env)
         == [Launch(Find7zTool(env, ToolFor(c.id)), Switches(c.id) + QuoteJoin(paths))]
  {
    assert c.id != Open && c.id != ExtractHere && c.id != ExtractTo && !IsNamedAdd(c.id);
  }

  /** The proposed archive name joined in front of the path list is the
      quoted name, a space, then the quoted paths. */
  lemma QuoteJoinNamed(sw: string, out: string, paths: seq<string>)
    ensures sw + Quote(out) + " " + QuoteJoin(paths) == sw + QuoteJoin([out] + paths)
  {
    assert ([out] + paths)[1..] == paths;
    assert QuoteJoin([out] + paths) == Quote(out) + " " + QuoteJoin(paths);
  }

  /** The archive name joins the paths as one more quoted argument. */
  lemma NamedAddPlanJoins(id: CommandId, paths: seq<string>, isDir: string -> bool, env: ToolEnv)
    requires IsNamedAdd(id)
    ensures NamedAddPlan(id, paths, isDir, env)
         == [Launch(Find7zTool(env, GuiArchiver),
                    Switches(id) + QuoteJoin([DefaultArchiveName(paths, ArchiveExtFor(id), isDir)] + paths))]
  {
    QuoteJoinNamed(Switches(id), DefaultArchiveName(paths, ArchiveExtFor(id), isDir), paths);
  }

  /** The named add/email entries launch the GUI archiver once, with the
      proposed archive name as the first quoted argument, then every path. */
  lemma PlanNamedAdd(c: Command, paths: seq<string>, isDir: string -> bool, env: ToolEnv)
    requires IsNamedAdd(c.id) && paths != []
    ensures Plan(Entry(c), paths, isDir, env)
         == [Launch(Find7zTool(env, GuiArchiver),
                    Switches(c.id) + QuoteJoin([DefaultArchiveName(paths, ArchiveExtFor(c.id), isDir)] + paths))]
  {
    PlanDispatchNamed(c, paths, isDir, env);
    NamedAddPlanJoins(c.id, paths, isDir, env);
  }

  /** Extract-here: one in-place extraction for a single archive, one
      foldered extraction per archive otherwise; extract-to: always one
      foldered extraction per archive. */
  lemma PlanExtract(c: Command, paths: seq<string>, isDir: string -> bool, env: ToolEnv)
    requires c.id == ExtractHere || c.id == ExtractTo
    ensures c.id == ExtractHere && |paths| == 1 ==>
              Plan(Entry(c), paths, isDir, env) == [Launch(Find7zTool(env, GuiArchiver), "x -y " + Quote(paths[0]))]
    ensures c.id == ExtractTo || |paths| != 1 ==>
              Plan(Entry(c), paths, isDir, env) == ExtractEach(paths, isDir, Find7zTool(env, GuiArchiver))
  {
    if paths != [] {
      PlanDispatchExtract(c, paths, isDir, env);
    }
  }

  /** "Smart" extract-here: for several archives it does exactly what
      extract-to does (one folder per archive); only a single archive is
      extracted in place. */
  lemma SmartExtractHere(here: Command, to: Command, paths: seq<string>, isDir: string -> bool, env: ToolEnv)
    requires here.id == ExtractHere && to.id == ExtractTo
    ensures Plan(Entry(here), paths, isDir, env) == Plan(Entry(to), paths, isDir, env) <==> |paths| != 1
  {
    PlanExtract(here, paths, isDir, env);
    PlanExtract(to, paths, isDir, env);
    if |paths| == 1 {
      ExtractEachAt(paths, isDir, Find7zTool(env, GuiArchiver), 0);
      InPlaceIsNotFoldered(paths[0], isDir);
    }
  }

  /** Extracting in place and extracting into a folder are different command lines. */
  lemma InPlaceIsNotFoldered(p: string, isDir: string -> bool)
    ensures "x -y " + Quote(p) != ExtractIntoArgs(p, isDir)
  {
    var inPlace, foldered := "x -y " + Quote(p), ExtractIntoArgs(p, isDir);
    assert inPlace[5] == '"';
    assert foldered[5] == '-';
  }

  /** The archive a named add/email entry creates is the one its title names:
      the tool's first quoted argument is the name quoted in the title, and
      the remaining arguments read back as the selected paths, in order. */
  lemma NamedAddMatchesTitle(c: Command, paths: seq<string>, isDir: string -> bool, env: ToolEnv)
    requires IsNamedAdd(c.id) && paths != []
    requires forall i :: 0 <= i < |paths| ==> QuoteFree(paths[i])
    ensures var name := DefaultArchiveName(paths, ArchiveExtFor(c.id), isDir);
            var plan := Plan(Entry(c), paths, isDir, env);
            && |plan| == 1
            && |Switches(c.id)| <= |plan[0].args|
            && ParseQuoted(plan[0].args[|Switches(c.id)|..]) == Parsed([name] + paths)
            && GetTitle(Entry(c), paths, isDir)
               == (if c.id == AddTo7z || c.id == AddToZip then "Add to " else "Compress to ")
                  + Quote(name)
                  + (if c.id == AddTo7z || c.id == AddToZip then "" else " and email")
  {
    var name := DefaultArchiveName(paths, ArchiveExtFor(c.id), isDir);
    var sw, joined := Switches(c.id), QuoteJoin([name] + paths);
    PlanNamedAdd(c, paths, isDir, env);
    assert (sw + joined)[|sw|..] == joined;
    assert ParseQuoted(joined) == Parsed([name] + paths) by {
      FixedNamesQuoteFree();
      assert forall i :: 0 <= i < |paths| ==> '"' !in paths[i];
      DefaultArchiveNameChars(paths, ArchiveExtFor(c.id), isDir, '"');
      QuoteJoinRoundTrip([name] + paths);
    }
  }

  /** The fixed parts of a proposed archive name contain no quote. */
  lemma FixedNamesQuoteFree()
    ensures QuoteFree(".7z") && QuoteFree(".zip") && QuoteFree("Archive")
  {
    assert forall i :: 0 <= i < |"Archive"| ==> "Archive"[i] != '"';
  }

  /** The email entries launch exactly what the matching add entries launch:
      no mail is sent by the command line itself. */
  lemma EmailLaunchesLikeAdd(e: Command, a: Command, paths: seq<string>, isDir: string -> bool, env: ToolEnv)
    requires (e.id == EmailArchive && a.id == AddToArchive) || (e.id == Email7z && a.id == AddTo7z)
          || (e.id == EmailZip && a.id == AddToZip)
    ensures Plan(Entry(e), paths, isDir, env) == Plan(Entry(a), paths, isDir, env)
  {
    if paths == [] {
    } else if e.id == EmailArchive {
      assert Switches(e.id) == Switches(a.id) && ToolFor(e.id) == ToolFor(a.id);
      PlanWholeSelection(e, paths, isDir, env);
      PlanWholeSelection(a, paths, isDir, env);
    } else {
      assert Switches(e.id) == Switches(a.id) && ArchiveExtFor(e.id) == ArchiveExtFor(a.id);
      PlanNamedAdd(e, paths, isDir, env);
      PlanNamedAdd(a, paths, isDir, env);
    }
  }

  /** Every leaf the menu shows launches something when chosen; nothing is
      launched for an empty selection. Invoke does not re-check visibility. */
  lemma EnabledLeafLaunches(c: Command, paths: seq<string>, isDir: string -> bool, env: ToolEnv)
    requires c.id != None && c.id != CRCMenu
    ensures GetState(Entry(c), paths) == Enabled <==> Plan(Entry(c), paths, isDir, env) != [] && (c.id == Open ==> |paths| == 1 && AllArchives(paths)) && (IsArchiveCommand(c.id) ==> AllArchives(paths))
  {
  }

  /** The shell's launch log (ShellRun is fire-and-forget: its result is ignored). */
  class Shell {
    var launches: seq<Launch>

    constructor ()
      ensures launches == []
    {
      launches := [];
    }

    method Run(exe: string, args: string)
      modifies this
      ensures launches == old(launches) + [Launch(exe, args)]
    {
      launches := launches + [Launch(exe, args)];
    }
  }

  /** The extractions from position `i` on: the one for path `i`, then the rest. */
  lemma ExtractEachFrom(paths: seq<string>, i: nat, isDir: string -> bool, exe: string)
    requires i < |paths|
    ensures ExtractEach(paths[i..], isDir, exe)
         == [Launch(exe, ExtractIntoArgs(paths[i], isDir))] + ExtractEach(paths[i + 1..], isDir, exe)
  {
    assert paths[i..][1..] == paths[i + 1..];
  }

  /** The per-archive extraction loop: one launch per path, in order. */
  method RunExtractEach(paths: seq<string>, isDir: string -> bool, exe: string, shell: Shell)
    modifies shell
    ensures shell.launches == old(shell.launches) + ExtractEach(paths, isDir, exe)
  {
    var i := 0;
    assert paths[i..] == paths;
    while i < |paths|
      invariant 0 <= i <= |paths|
      invariant old(shell.launches) + ExtractEach(paths, isDir, exe)
             == shell.launches + ExtractEach(paths[i..], isDir, exe)
    {
      ghost var before := shell.launches;
      ExtractEachFrom(paths, i, isDir, exe);
      shell.Run(exe, ExtractIntoArgs(paths[i], isDir));
      AppendShift(before, Launch(exe, ExtractIntoArgs(paths[i], isDir)), ExtractEach(paths[i + 1..], isDir, exe));
      i := i + 1;
    }
    assert paths[i..] == [];
  }

  /** Invoke: collects the selection, then issues the command's launches. */
  method Invoke(node: Node, items: seq<string>, isDir: string -> bool, env: ToolEnv, shell: Shell)
    modifies shell
    ensures shell.launches == old(shell.launches) + Plan(node, Resolved(items), isDir, env)
  {
    if node.Root? {
      return;
    }
    var paths := CollectPaths(items);
    if paths == [] {
      return;
    }
    var id := node.command.id;
    var sevenZG := Find7zTool(env, GuiArchiver);
    var all := QuoteJoin(paths);
    if id == Open {
      shell.Run(Find7zTool(env, FileManager), Quote(paths[0]));
    } else if id == ExtractHere || id == ExtractTo {
      if id == ExtractHere && |paths| == 1 {
        shell.Run(sevenZG, "x -y " + Quote(paths[0]));
      } else {
        RunExtractEach(paths, isDir, sevenZG, shell);
      }
    } else if IsNamedAdd(id) {
      var out := DefaultArchiveName(paths, ArchiveExtFor(id), isDir);
      shell.Run(sevenZG, Switches(id) + Quote(out) + " " + all);
    } else if TakesWholeSelection(id) {
      shell.Run(Find7zTool(env, ToolFor(id)), Switches(id) + all);
    }
  }
}

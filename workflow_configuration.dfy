/**
 * The workflow configuration object: it turns the job's `input_config` into
 * the list of input files and the files grouped by the agent they target,
 * and appends each group to its agent's instruction. Reading the file
 * system is an input: a map from paths to file contents and from folder
 * paths to their listings.
 */
module WorkflowConfiguration {
  import opened Wrappers
  import opened Text
  import opened Json
  import opened AgentConfig
  import Dicts
  import PromptUtils
  import OptimizerTypes
  import opened Paths

  // ---------------------------------------------------------------------
  // File names and the file system
  // ---------------------------------------------------------------------

  /** `s.lstrip('.')`. */
  function LStripDots(s: string): (r: string)
    ensures |r| <= |s| && EndsWith(s, r)
    ensures r == [] || r[0] != '.'
  {
    if s != [] && s[0] == '.' then
      var r := LStripDots(s[1..]);
      assert s == [s[0]] + s[1..];
      r
    else s
  }

  /** The `file_type` of a file: the explicit input type when truthy, else the suffix without its dot. */
  function FileTypeOf(name: string, inputType: Option<string>): string
  {
    if inputType.Some? && inputType.value != "" then inputType.value
    else
      var suffix := Suffix(name);
      if suffix != "" then LStripDots(suffix) else ""
  }

  /**
   * The file type is the explicit type when one is given; otherwise it is
   * empty exactly when the name has no suffix, and else the name ends with
   * a dot followed by it, and it holds no dot.
   */
  lemma FileTypeSpec(name: string, inputType: Option<string>)
    ensures inputType.Some? && inputType.value != "" ==> FileTypeOf(name, inputType) == inputType.value
    ensures (inputType.None? || inputType.value == "") ==>
      var t := FileTypeOf(name, inputType);
      && (t == "" <==> Suffix(name) == "")
      && (t != "" ==> EndsWith(name, "." + t) && '.' !in t)
  {
    if inputType.None? || inputType.value == "" {
      SuffixSpec(name);
      var suffix := Suffix(name);
      if suffix != "" {
        assert suffix == "." + suffix[1..];
        assert suffix[1..] != [] && suffix[1..][0] != '.';
        assert LStripDots(suffix) == suffix[1..];
      }
    }
  }

  /** What `folder.iterdir()` yields: a name, whether it is a regular file, and its text when it can be read. */
  datatype FolderEntry = FolderEntry(name: string, isFile: bool, content: Option<string>)

  /**
   * The file system as the configuration sees it: the files that exist, by
   * path, each with its text or `None` when reading it raises (a file that
   * is not valid UTF-8, or one that may not be read), and folder listings in
   * iteration order.
   */
  datatype FileSystem = FileSystem(files: map<string, Option<string>>, folders: map<string, seq<FolderEntry>>)

  /** The dictionary `read_input_file` returns, with the `source_folder` a folder read adds. */
  datatype InputFile = InputFile(
    fileName: string,
    fileType: string,
    fileContent: string,
    fileSize: nat,
    fullPath: string,
    sourceFolder: Option<string>)

  /** `read_input_file` on a file whose text is `content`. */
  function InputFileOf(path: string, content: string, inputType: Option<string>): (r: InputFile)
    ensures r.fileSize == |r.fileContent| && r.fileContent == content
    ensures r.fileName == BaseName(path) && r.fullPath == path && r.sourceFolder == None
  {
    InputFile(BaseName(path), FileTypeOf(BaseName(path), inputType), content, |content|, path, None)
  }

  /** The message standing for the `UnicodeDecodeError` or `PermissionError` reading a file raises. */
  function UnreadableMessage(path: string): string
  {
    "Input file could not be read: " + path
  }

  /** `read_input_file`: a missing file raises, and so does one whose text cannot be read. */
  function ReadInputFile(fs: FileSystem, path: string, inputType: Option<string>): (r: Result<InputFile>)
    ensures r.Ok? <==> path in fs.files && fs.files[path].Some?
    ensures r.Ok? ==> r.value == InputFileOf(path, fs.files[path].value, inputType)
    ensures path !in fs.files ==> r == Err("Input file not found: " + path)
    ensures path in fs.files && fs.files[path].None? ==> r == Err(UnreadableMessage(path))
  {
    if path !in fs.files then Err("Input file not found: " + path)
    else if fs.files[path].None? then Err(UnreadableMessage(path))
    else Ok(InputFileOf(path, fs.files[path].value, inputType))
  }

  /** The file a folder entry contributes: none for sub-folders, hidden names and unreadable files. */
  function FolderFileOf(folder: string, inputType: Option<string>, e: FolderEntry): Option<InputFile>
  {
    if e.isFile && !StartsWith(e.name, ".") && e.content.Some? then
      var f := InputFileOf(folder + "/" + e.name, e.content.value, inputType);
      Some(f.(sourceFolder := Some(folder)))
    else None
  }

  /** The files `read_input_folder` keeps: visible, readable regular files, in listing order. */
  function FolderFiles(folder: string, inputType: Option<string>, entries: seq<FolderEntry>): seq<InputFile>
  {
    FilterMap(entries, (e: FolderEntry) => FolderFileOf(folder, inputType, e))
  }

  /** `read_input_folder`: a missing folder raises; otherwise the loop over its listing. */
  method ReadInputFolder(fs: FileSystem, folder: string, inputType: Option<string>) returns (r: Result<seq<InputFile>>)
    ensures folder !in fs.folders ==> r == Err("Input folder not found: " + folder)
    ensures folder in fs.folders ==> r == Ok(FolderFiles(folder, inputType, fs.folders[folder]))
  {
    if folder !in fs.folders {
      return Err("Input folder not found: " + folder);
    }
    var entries := fs.folders[folder];
    var keep := (e: FolderEntry) => FolderFileOf(folder, inputType, e);
    var files: seq<InputFile> := [];
    var i := 0;
    while i < |entries|
      invariant 0 <= i <= |entries|
      invariant files == FilterMap(entries[..i], keep)
    {
      FilterMapStep(entries, keep, i);
      var f := keep(entries[i]);
      if f.Some? {
        files := files + [f.value];
      }
      i := i + 1;
    }
    WholePrefix(entries);
    return Ok(files);
  }

  /**
   * Every file a folder read yields is a visible, readable regular file of
   * the listing, recorded with its size and its source folder; every such
   * file is yielded.
   */
  lemma FolderFilesSpec(folder: string, inputType: Option<string>, entries: seq<FolderEntry>)
    ensures |FolderFiles(folder, inputType, entries)| <= |entries|
    ensures forall f :: f in FolderFiles(folder, inputType, entries) ==>
      && f.sourceFolder == Some(folder) && f.fileSize == |f.fileContent|
      && exists i :: 0 <= i < |entries| && entries[i].isFile && !StartsWith(entries[i].name, ".") &&
           entries[i].content == Some(f.fileContent) && f.fullPath == folder + "/" + entries[i].name
    ensures forall i :: (0 <= i < |entries| && entries[i].isFile && !StartsWith(entries[i].name, ".") &&
      entries[i].content.Some?) ==>
        (exists f :: f in FolderFiles(folder, inputType, entries) && f.fullPath == folder + "/" + entries[i].name)
  {
    var keep := (e: FolderEntry) => FolderFileOf(folder, inputType, e);
    FilterMapSpec(entries, keep);
    forall i | 0 <= i < |entries| && entries[i].isFile && !StartsWith(entries[i].name, ".") && entries[i].content.Some?
      ensures exists f :: f in FolderFiles(folder, inputType, entries) && f.fullPath == folder + "/" + entries[i].name
    {
      assert keep(entries[i]).Some?;
    }
  }

  // ---------------------------------------------------------------------
  // The input configuration
  // ---------------------------------------------------------------------

  /** A `target_agent` value: missing, one agent name, or a list of names. */
  datatype Target = NoTarget | One(agent: string) | Many(agents: seq<string>)

  /** The normalised target list: a list is kept, a truthy name becomes a one-element list, anything else `[]`. */
  function Targets(t: Target): (r: seq<string>)
    ensures t.Many? ==> r == t.agents
    ensures t.One? ==> (r == [] <==> t.agent == "") && (r != [] ==> r == [t.agent])
    ensures t.NoTarget? ==> r == []
  {
    match t
    case NoTarget => []
    case One(a) => if a != "" then [a] else []
    case Many(agents) => agents
  }

  /** One element of `input_files`. */
  datatype FileConfig = FileConfig(inputPath: string, inputType: Option<string>, targetAgent: Target)

  /** One element of `input_folders`. */
  datatype FolderConfig = FolderConfig(inputPath: string, inputType: Option<string>, targetAgent: Target)

  /**
   * A key of `input_config` that should hold a list: missing, present with
   * a value that is not a list (`None`, as an empty YAML key gives, a
   * number, a string or a dictionary), or a list.
   */
  datatype ListKey<T> = Missing | NotAList(value: NonListValue) | Items(items: seq<T>)

  /**
   * What the loop over a key that is not a list raises: None, a boolean or a
   * number cannot be iterated; an empty string or dictionary yields nothing;
   * otherwise the first item is a string, which `input_files` indexes by
   * `'input_path'` and `input_folders` asks for `.get`.
   */
  function NonListLoopError(v: NonListValue, indexed: bool): (r: Option<string>)
    ensures r.None? <==> v == JString([]) || v == JObject(map[])
    ensures !Iterable(v) ==> r == Some(NotIterableText(v))
  {
    if !Iterable(v) then Some(NotIterableText(v))
    else if v == JString([]) || v == JObject(map[]) then None
    else if indexed then Some(StringIndexText)
    else Some(StrGetText)
  }

  /** `job_config['input_config']`. */
  datatype InputConfig = InputConfig(inputFiles: ListKey<FileConfig>, inputFolders: ListKey<FolderConfig>)

  /** One element of `self.input_files`. */
  datatype InputEntry = InputEntry(path: string, inputType: Option<string>, targetAgents: seq<string>)

  /** `targeted_files_by_agent`: agent name to the files for it, in insertion order. */
  type Groups = seq<(string, seq<InputFile>)>

  /** Appends `f` to the group of each agent in `agents`, creating missing groups. */
  function AddToGroups(groups: Groups, agents: seq<string>, f: InputFile): Groups
  {
    if agents == [] then groups
    else
      var before := AddToGroups(groups, agents[..|agents| - 1], f);
      var a := agents[|agents| - 1];
      Dicts.Put(before, a, Dicts.Get(before, a).GetOr([]) + [f])
  }

  function Repeat<T>(x: T, n: nat): (r: seq<T>)
    ensures |r| == n && forall i :: 0 <= i < n ==> r[i] == x
  {
    if n == 0 then [] else Repeat(x, n - 1) + [x]
  }

  /** Each of `xs`, in order, `n` times over. */
  function EachRepeated<T>(xs: seq<T>, n: nat): (r: seq<T>)
    ensures |r| == |xs| * n
  {
    if xs == [] then [] else EachRepeated(xs[..|xs| - 1], n) + Repeat(xs[|xs| - 1], n)
  }

  /**
   * Adding a file for a list of agents appends it to each agent's group once
   * per time the agent is listed and leaves other groups alone.
   */
  lemma {:induction false} AddToGroupsSpec(groups: Groups, agents: seq<string>, f: InputFile, a: string)
    ensures Dicts.Get(AddToGroups(groups, agents, f), a).GetOr([])
         == Dicts.Get(groups, a).GetOr([]) + Repeat(f, Dicts.Occurrences(agents, a))
  {
    if agents != [] {
      var init := agents[..|agents| - 1];
      var last := agents[|agents| - 1];
      AddToGroupsSpec(groups, init, f, a);
      var before := AddToGroups(groups, init, f);
      Dicts.PutSpec(before, last, Dicts.Get(before, last).GetOr([]) + [f]);
      if a == last {
        assert Repeat(f, Dicts.Occurrences(init, a)) + [f] == Repeat(f, Dicts.Occurrences(agents, a));
      }
    }
  }

  /**
   * Adding a file creates exactly the groups of listed agents that had none,
   * and keeps one group per agent.
   */
  lemma {:induction false} AddToGroupsKeys(groups: Groups, agents: seq<string>, f: InputFile)
    ensures forall a :: a in Dicts.KeysOf(AddToGroups(groups, agents, f)) <==> a in Dicts.KeysOf(groups) || a in agents
    ensures Dicts.DistinctKeys(groups) ==> Dicts.DistinctKeys(AddToGroups(groups, agents, f))
  {
    if agents != [] {
      var init := agents[..|agents| - 1];
      var last := agents[|agents| - 1];
      AddToGroupsKeys(groups, init, f);
      var before := AddToGroups(groups, init, f);
      Dicts.PutSpec(before, last, Dicts.Get(before, last).GetOr([]) + [f]);
      if Dicts.DistinctKeys(groups) {
        Dicts.PutDistinct(before, last, Dicts.Get(before, last).GetOr([]) + [f]);
      }
      assert agents == init + [last];
    }
  }

  /** The two collections as processing leaves them, and the error raised, if any. */
  datatype Progress = Progress(entries: seq<InputEntry>, groups: Groups, error: Option<string>)

  /**
   * One iteration of the `input_files` loop; nothing happens after an error.
   * The file's path is taken below the base path.
   */
  function FileStep(fs: FileSystem, base: string, p: Progress, fc: FileConfig): Progress
  {
    if p.error.Some? then p
    else
      var agents := Targets(fc.targetAgent);
      var path := JoinPath(base, fc.inputPath);
      var entries := p.entries + [InputEntry(path, fc.inputType, agents)];
      if agents != [] then
        match ReadInputFile(fs, path, fc.inputType)
        case Err(e) => Progress(entries, p.groups, Some(e))
        case Ok(f) => Progress(entries, AddToGroups(p.groups, agents, f), None)
      else Progress(entries, p.groups, None)
  }

  function FileSteps(fs: FileSystem, base: string, p: Progress, fcs: seq<FileConfig>): Progress
  {
    if fcs == [] then p else FileStep(fs, base, FileSteps(fs, base, p, fcs[..|fcs| - 1]), fcs[|fcs| - 1])
  }

  /** The inner loop over a folder's files: each becomes an entry and joins its targets' groups. */
  function AddFolderFiles(p: Progress, files: seq<InputFile>, agents: seq<string>): Progress
  {
    if files == [] then p
    else
      var q := AddFolderFiles(p, files[..|files| - 1], agents);
      var f := files[|files| - 1];
      var entries := q.entries + [InputEntry(f.fullPath, Some(f.fileType), agents)];
      Progress(entries, if agents != [] then AddToGroups(q.groups, agents, f) else q.groups, q.error)
  }

  /** One iteration of the `input_folders` loop; a relative folder path is taken below the base path. */
  function FolderStep(fs: FileSystem, base: string, p: Progress, fc: FolderConfig): Progress
  {
    var folder := JoinPath(base, fc.inputPath);
    if p.error.Some? then p
    else if folder !in fs.folders then p.(error := Some("Input folder not found: " + folder))
    else AddFolderFiles(p, FolderFiles(folder, fc.inputType, fs.folders[folder]), Targets(fc.targetAgent))
  }

  function FolderSteps(fs: FileSystem, base: string, p: Progress, fcs: seq<FolderConfig>): Progress
  {
    if fcs == [] then p else FolderStep(fs, base, FolderSteps(fs, base, p, fcs[..|fcs| - 1]), fcs[|fcs| - 1])
  }

  /**
   * Processing from empty collections: the files, then the folders. A key
   * whose value is not a list raises when the loop iterates it.
   */
  function ProcessInput(fs: FileSystem, base: string, ic: InputConfig): Progress
  {
    var start := Progress([], [], None);
    var afterFiles := match ic.inputFiles
      case Items(fcs) => FileSteps(fs, base, start, fcs)
      case NotAList(v) => start.(error := NonListLoopError(v, true))
      case Missing => start;
    if afterFiles.error.Some? then afterFiles
    else match ic.inputFolders
      case Items(fcs) => FolderSteps(fs, base, afterFiles, fcs)
      case NotAList(v) => afterFiles.(error := NonListLoopError(v, false))
      case Missing => afterFiles
  }

  const NoInputMessage: string := "No input_files or input_folders found in input_config"

  // ---------------------------------------------------------------------
  // Facts about processing
  // ---------------------------------------------------------------------

  lemma {:induction false} FileStepsAfterError(fs: FileSystem, base: string, p: Progress, fcs: seq<FileConfig>)
    requires p.error.Some?
    ensures FileSteps(fs, base, p, fcs) == p
  {
    if fcs != [] {
      FileStepsAfterError(fs, base, p, fcs[..|fcs| - 1]);
    }
  }

  lemma {:induction false} FolderStepsAfterError(fs: FileSystem, base: string, p: Progress, fcs: seq<FolderConfig>)
    requires p.error.Some?
    ensures FolderSteps(fs, base, p, fcs) == p
  {
    if fcs != [] {
      FolderStepsAfterError(fs, base, p, fcs[..|fcs| - 1]);
    }
  }

  /** The entry `input_files` records for a file configuration. */
  function EntryOf(base: string, fc: FileConfig): InputEntry
  {
    InputEntry(JoinPath(base, fc.inputPath), fc.inputType, Targets(fc.targetAgent))
  }

  /** The entries the `input_files` loop records, one per configuration, in order. */
  function FileEntries(base: string, fcs: seq<FileConfig>): (r: seq<InputEntry>)
    ensures |r| == |fcs| && forall i :: 0 <= i < |fcs| ==> r[i] == EntryOf(base, fcs[i])
  {
    if fcs == [] then [] else FileEntries(base, fcs[..|fcs| - 1]) + [EntryOf(base, fcs[|fcs| - 1])]
  }

  /** The entries a folder's files get, one per file, in listing order. */
  function FolderEntries(files: seq<InputFile>, agents: seq<string>): (r: seq<InputEntry>)
    ensures |r| == |files|
    ensures forall i :: 0 <= i < |files| ==> r[i] == InputEntry(files[i].fullPath, Some(files[i].fileType), agents)
  {
    if files == [] then []
    else
      var f := files[|files| - 1];
      FolderEntries(files[..|files| - 1], agents) + [InputEntry(f.fullPath, Some(f.fileType), agents)]
  }

  /**
   * The files the configurations give agent `a`, in order: each readable
   * file once per time its configuration names `a`.
   */
  function TargetedFiles(fs: FileSystem, base: string, fcs: seq<FileConfig>, a: string): seq<InputFile>
  {
    if fcs == [] then []
    else TargetedFiles(fs, base, fcs[..|fcs| - 1], a) + FileTargeted(fs, base, fcs[|fcs| - 1], a)
  }

  /** The copies of one configuration's file that agent `a`'s group receives: one per time it is named, if the file reads. */
  function FileTargeted(fs: FileSystem, base: string, fc: FileConfig, a: string): seq<InputFile>
  {
    var path := JoinPath(base, fc.inputPath);
    if path in fs.files && fs.files[path].Some? then
      Repeat(InputFileOf(path, fs.files[path].value, fc.inputType), Dicts.Occurrences(Targets(fc.targetAgent), a))
    else []
  }

  /**
   * When the `input_files` loop raises nothing, every file configuration
   * gets exactly one entry, in order, and each agent's group grows by the
   * files that target it, in order, a file once per time it names the
   * agent. A file that targets no agent is never read, so only targeted
   * files can raise.
   */
  lemma {:induction false} FileStepsSpec(fs: FileSystem, base: string, p: Progress, fcs: seq<FileConfig>, a: string)
    requires p.error.None?
    ensures var q := FileSteps(fs, base, p, fcs);
      q.error.None? ==>
        && q.entries == p.entries + FileEntries(base, fcs)
        && Dicts.Get(q.groups, a).GetOr([]) == Dicts.Get(p.groups, a).GetOr([]) + TargetedFiles(fs, base, fcs, a)
  {
    if fcs != [] {
      var init := fcs[..|fcs| - 1];
      var fc := fcs[|fcs| - 1];
      FileStepsSpec(fs, base, p, init, a);
      var q := FileSteps(fs, base, p, init);
      if q.error.None? {
        FileStepSpec(fs, base, q, fc, a);
        AppendAssoc(p.entries, FileEntries(base, init), [EntryOf(base, fc)]);
        AppendAssoc(Dicts.Get(p.groups, a).GetOr([]), TargetedFiles(fs, base, init, a), FileTargeted(fs, base, fc, a));
      }
    }
  }

  /** One file configuration that raises nothing adds its entry and its copies for `a`. */
  lemma FileStepSpec(fs: FileSystem, base: string, q: Progress, fc: FileConfig, a: string)
    requires q.error.None?
    ensures FileStep(fs, base, q, fc).error.None? ==>
      && FileStep(fs, base, q, fc).entries == q.entries + [EntryOf(base, fc)]
      && Dicts.Get(FileStep(fs, base, q, fc).groups, a).GetOr([]) == Dicts.Get(q.groups, a).GetOr([]) + FileTargeted(fs, base, fc, a)
  {
    var agents := Targets(fc.targetAgent);
    var path := JoinPath(base, fc.inputPath);
    if agents != [] && path in fs.files && fs.files[path].Some? {
      AddToGroupsSpec(q.groups, agents, ReadInputFile(fs, path, fc.inputType).value, a);
    } else if agents == [] {
      assert Dicts.Occurrences(agents, a) == 0;
    }
  }

  /** A file configuration whose file is read, because it targets some agent, but is missing or cannot be read. */
  predicate Unreadable(fs: FileSystem, base: string, fc: FileConfig)
  {
    var path := JoinPath(base, fc.inputPath);
    Targets(fc.targetAgent) != [] && (path !in fs.files || fs.files[path].None?)
  }

  /** The message reading the file of an unreadable configuration raises. */
  function ReadError(fs: FileSystem, base: string, fc: FileConfig): string
  {
    var path := JoinPath(base, fc.inputPath);
    if path !in fs.files then "Input file not found: " + path else UnreadableMessage(path)
  }

  /**
   * The `input_files` loop raises exactly when some targeted file is
   * missing or unreadable, and then with the message for the first of them.
   */
  lemma FileStepsFails(fs: FileSystem, base: string, p: Progress, fcs: seq<FileConfig>)
    requires p.error.None?
    ensures FileSteps(fs, base, p, fcs).error.Some? <==> exists k :: 0 <= k < |fcs| && Unreadable(fs, base, fcs[k])
    ensures FileSteps(fs, base, p, fcs).error.Some? ==>
      exists k :: 0 <= k < |fcs| && Unreadable(fs, base, fcs[k]) && (forall j :: 0 <= j < k ==> !Unreadable(fs, base, fcs[j])) &&
        FileSteps(fs, base, p, fcs).error == Some(ReadError(fs, base, fcs[k]))
  {
    FileStepsError(fs, base, p, fcs);
    var k := FirstUnreadable(fs, base, fcs);
    if k < |fcs| {
      assert Unreadable(fs, base, fcs[k]);
    }
  }

  /** The position of the first configuration whose file cannot be read, or the length if there is none. */
  function FirstUnreadable(fs: FileSystem, base: string, fcs: seq<FileConfig>): (k: nat)
    ensures k <= |fcs|
    ensures k < |fcs| ==> Unreadable(fs, base, fcs[k])
    ensures forall j :: 0 <= j < k ==> !Unreadable(fs, base, fcs[j])
  {
    if fcs == [] then 0
    else
      var k := FirstUnreadable(fs, base, fcs[..|fcs| - 1]);
      var r := if k < |fcs| - 1 then k else if Unreadable(fs, base, fcs[|fcs| - 1]) then |fcs| - 1 else |fcs|;
      FirstUnreadableStep(fs, base, fcs, k, r);
      r
  }

  lemma FirstUnreadableStep(fs: FileSystem, base: string, fcs: seq<FileConfig>, k: nat, r: nat)
    requires fcs != [] && k <= |fcs| - 1
    requires k < |fcs| - 1 ==> Unreadable(fs, base, fcs[k])
    requires forall j :: 0 <= j < k ==> !Unreadable(fs, base, fcs[j])
    requires r == if k < |fcs| - 1 then k else if Unreadable(fs, base, fcs[|fcs| - 1]) then |fcs| - 1 else |fcs|
    ensures r <= |fcs| && (r < |fcs| ==> Unreadable(fs, base, fcs[r]))
    ensures forall j :: 0 <= j < r ==> !Unreadable(fs, base, fcs[j])
  {
  }

  /** The error of the `input_files` loop: the first unreadable file's, if any. */
  function FilesError(fs: FileSystem, base: string, fcs: seq<FileConfig>): Option<string>
  {
    if FirstUnreadable(fs, base, fcs) < |fcs| then Some(ReadError(fs, base, fcs[FirstUnreadable(fs, base, fcs)])) else None
  }

  lemma {:induction false} FileStepsError(fs: FileSystem, base: string, p: Progress, fcs: seq<FileConfig>)
    requires p.error.None?
    ensures FileSteps(fs, base, p, fcs).error == FilesError(fs, base, fcs)
  {
    if fcs != [] {
      var init := fcs[..|fcs| - 1];
      FileStepsError(fs, base, p, init);
      FileStepError(fs, base, FileSteps(fs, base, p, init), fcs[|fcs| - 1]);
    }
  }

  /** One file step after an earlier failure keeps it; otherwise it fails exactly on an unreadable file. */
  lemma FileStepError(fs: FileSystem, base: string, p: Progress, fc: FileConfig)
    ensures p.error.Some? ==> FileStep(fs, base, p, fc).error == p.error
    ensures p.error.None? ==> (FileStep(fs, base, p, fc).error.Some? <==> Unreadable(fs, base, fc))
    ensures p.error.None? && Unreadable(fs, base, fc) ==> FileStep(fs, base, p, fc).error == Some(ReadError(fs, base, fc))
  {
  }

  /** The folder a folder configuration reads. */
  function FolderPath(base: string, fc: FolderConfig): string
  {
    JoinPath(base, fc.inputPath)
  }

  /** One folder step after an earlier failure keeps it; otherwise it fails exactly on a missing folder. */
  lemma FolderStepError(fs: FileSystem, base: string, p: Progress, fc: FolderConfig)
    ensures p.error.Some? ==> FolderStep(fs, base, p, fc).error == p.error
    ensures p.error.None? ==> (FolderStep(fs, base, p, fc).error.Some? <==> FolderPath(base, fc) !in fs.folders)
    ensures p.error.None? && FolderPath(base, fc) !in fs.folders ==>
      FolderStep(fs, base, p, fc).error == Some("Input folder not found: " + FolderPath(base, fc))
  {
    if p.error.None? && FolderPath(base, fc) in fs.folders {
      var files := FolderFiles(FolderPath(base, fc), fc.inputType, fs.folders[FolderPath(base, fc)]);
      AddFolderFilesError(p, files, Targets(fc.targetAgent));
    }
  }

  /**
   * The `input_folders` loop raises exactly when some folder is missing,
   * and then with the message for the first of them.
   */
  lemma FolderStepsFails(fs: FileSystem, base: string, p: Progress, fcs: seq<FolderConfig>)
    requires p.error.None?
    ensures FolderSteps(fs, base, p, fcs).error.Some? <==> exists k :: 0 <= k < |fcs| && FolderPath(base, fcs[k]) !in fs.folders
    ensures FolderSteps(fs, base, p, fcs).error.Some? ==>
      exists k :: 0 <= k < |fcs| && FolderPath(base, fcs[k]) !in fs.folders &&
        (forall j :: 0 <= j < k ==> FolderPath(base, fcs[j]) in fs.folders) &&
        FolderSteps(fs, base, p, fcs).error == Some("Input folder not found: " + FolderPath(base, fcs[k]))
  {
    FolderStepsError(fs, base, p, fcs);
    var k := FirstMissing(fs, base, fcs);
    if k < |fcs| {
      assert FolderPath(base, fcs[k]) !in fs.folders;
    }
  }

  /** The position of the first configuration whose folder is missing, or the length if there is none. */
  function FirstMissing(fs: FileSystem, base: string, fcs: seq<FolderConfig>): (k: nat)
    ensures k <= |fcs|
    ensures k < |fcs| ==> FolderPath(base, fcs[k]) !in fs.folders
    ensures forall j :: 0 <= j < k ==> FolderPath(base, fcs[j]) in fs.folders
  {
    if fcs == [] then 0
    else
      var k := FirstMissing(fs, base, fcs[..|fcs| - 1]);
      if k < |fcs| - 1 then k else if FolderPath(base, fcs[|fcs| - 1]) !in fs.folders then |fcs| - 1 else |fcs|
  }

  /** The error of the `input_folders` loop: the first missing folder's, if any. */
  function FoldersError(fs: FileSystem, base: string, fcs: seq<FolderConfig>): Option<string>
  {
    if FirstMissing(fs, base, fcs) < |fcs| then Some("Input folder not found: " + FolderPath(base, fcs[FirstMissing(fs, base, fcs)]))
    else None
  }

  lemma {:induction false} FolderStepsError(fs: FileSystem, base: string, p: Progress, fcs: seq<FolderConfig>)
    requires p.error.None?
    ensures FolderSteps(fs, base, p, fcs).error == FoldersError(fs, base, fcs)
  {
    if fcs != [] {
      var init := fcs[..|fcs| - 1];
      FolderStepsError(fs, base, p, init);
      FolderStepError(fs, base, FolderSteps(fs, base, p, init), fcs[|fcs| - 1]);
    }
  }

  lemma {:induction false} AddFolderFilesError(p: Progress, files: seq<InputFile>, agents: seq<string>)
    ensures AddFolderFiles(p, files, agents).error == p.error
  {
    if files != [] {
      AddFolderFilesError(p, files[..|files| - 1], agents);
    }
  }

  /**
   * A folder's files each get exactly one entry, in listing order, and each
   * joins the group of every agent the folder targets, once per listing.
   */
  lemma {:induction false} AddFolderFilesSpec(p: Progress, files: seq<InputFile>, agents: seq<string>, a: string)
    ensures var q := AddFolderFiles(p, files, agents);
      && q.error == p.error
      && q.entries == p.entries + FolderEntries(files, agents)
      && Dicts.Get(q.groups, a).GetOr([]) == Dicts.Get(p.groups, a).GetOr([]) + EachRepeated(files, Dicts.Occurrences(agents, a))
  {
    if files != [] {
      var init := files[..|files| - 1];
      AddFolderFilesSpec(p, init, agents, a);
      var q := AddFolderFiles(p, init, agents);
      if agents != [] {
        AddToGroupsSpec(q.groups, agents, files[|files| - 1], a);
      } else {
        assert Dicts.Occurrences(agents, a) == 0;
      }
    }
  }

  // ---------------------------------------------------------------------
  // Applying the grouped files
  // ---------------------------------------------------------------------

  /** The agent tree after appending each group, in order, to its agent. */
  function ApplyGroups(c: Config, groups: seq<(string, seq<InputFile>)>): Config
  {
    if groups == [] then c
    else
      var (agent, files) := groups[|groups| - 1];
      PromptUtils.AppendNode(ApplyGroups(c, groups[..|groups| - 1]), agent,
                             PromptUtils.AdditionalContent(ForPrompt(files))).0
  }

  /** The `file_name` and `file_content` the appended block uses. */
  function ForPrompt(files: seq<InputFile>): (r: seq<PromptUtils.FileData>)
    ensures |r| == |files|
  {
    if files == [] then []
    else
      var f := files[|files| - 1];
      ForPrompt(files[..|files| - 1]) + [PromptUtils.FileData(f.fileName, f.fileContent)]
  }

  /** How many group keys name an agent of the tree. */
  function FoundCount(c: Config, groups: seq<(string, seq<InputFile>)>): (n: nat)
    ensures n <= |groups|
  {
    if groups == [] then 0
    else FoundCount(c, groups[..|groups| - 1]) + (if HasNamed(c, groups[|groups| - 1].0) then 1 else 0)
  }

  /** A name belongs to the tree iff some label in pre-order carries it. */
  lemma HasNamedByLabels(c: Config, a: string)
    ensures HasNamed(c, a) <==> exists i :: 0 <= i < |Labels(c)| && Labels(c)[i].fields.name == Some(a)
  {
    var k := FirstNamed(Flatten(c), a);
    if HasNamed(c, a) {
      assert Labels(c)[k].fields.name == Some(a);
    }
  }

  /** Appending to an agent's instruction leaves the set of agent names alone. */
  lemma AppendKeepsNames(c: Config, target: string, block: string, a: string)
    ensures HasNamed(PromptUtils.AppendNode(c, target, block).0, a) == HasNamed(c, a)
  {
    var c' := PromptUtils.AppendNode(c, target, block).0;
    PromptUtils.AppendNodeSpec(c, target, block);
    HasNamedByLabels(c, a);
    HasNamedByLabels(c', a);
    if HasNamed(c, target) {
      var k := FirstNamed(Flatten(c), target);
      var ls := Labels(c);
      var ls' := Labels(c');
      assert |ls'| == |ls|;
      assert forall i :: 0 <= i < |ls| ==> ls'[i].fields.name == ls[i].fields.name;
    }
  }

  lemma {:induction false} ApplyGroupsKeepsNames(c: Config, groups: seq<(string, seq<InputFile>)>, a: string)
    ensures HasNamed(ApplyGroups(c, groups), a) == HasNamed(c, a)
  {
    if groups != [] {
      ApplyGroupsKeepsNames(c, groups[..|groups| - 1], a);
      var (agent, files) := groups[|groups| - 1];
      AppendKeepsNames(ApplyGroups(c, groups[..|groups| - 1]), agent,
                       PromptUtils.AdditionalContent(ForPrompt(files)), a);
    }
  }

  /**
   * The count reaches the number of groups exactly when every targeted
   * agent is in the tree, and is zero when none is.
   */
  lemma FoundCountSpec(c: Config, groups: seq<(string, seq<InputFile>)>)
    ensures FoundCount(c, groups) == |groups| <==> forall i :: 0 <= i < |groups| ==> HasNamed(c, groups[i].0)
    ensures FoundCount(c, groups) == 0 <==> forall i :: 0 <= i < |groups| ==> !HasNamed(c, groups[i].0)
  {
    FoundCountAll(c, groups);
    FoundCountNone(c, groups);
  }

  lemma {:induction false} FoundCountAll(c: Config, groups: seq<(string, seq<InputFile>)>)
    ensures FoundCount(c, groups) == |groups| <==> forall i :: 0 <= i < |groups| ==> HasNamed(c, groups[i].0)
  {
    if groups != [] {
      var init := groups[..|groups| - 1];
      FoundCountAll(c, init);
      assert forall i :: 0 <= i < |init| ==> init[i] == groups[i];
    }
  }

  lemma {:induction false} FoundCountNone(c: Config, groups: seq<(string, seq<InputFile>)>)
    ensures FoundCount(c, groups) == 0 <==> forall i :: 0 <= i < |groups| ==> !HasNamed(c, groups[i].0)
  {
    if groups != [] {
      var init := groups[..|groups| - 1];
      FoundCountNone(c, init);
      assert forall i :: 0 <= i < |init| ==> init[i] == groups[i];
    }
  }

  // ---------------------------------------------------------------------
  // The configuration object
  // ---------------------------------------------------------------------

  class WorkflowConfiguration {
    /** `base_path`, which relative input paths are resolved against. */
    var basePath: string
    /** `job_config.get('input_config', {})`. */
    var inputConfig: InputConfig
    /** `agent_config`, which the targeted files are appended to. */
    var agentConfig: Config
    /** `input_files`. */
    var inputFiles: seq<InputEntry>
    /** `targeted_files_by_agent`. */
    var targetedFilesByAgent: Groups

    /** A configuration whose job and agent configurations are already loaded. */
    constructor(basePath: string, inputConfig: InputConfig, agentConfig: Config)
      ensures this.basePath == basePath && this.inputConfig == inputConfig && this.agentConfig == agentConfig
      ensures inputFiles == [] && targetedFilesByAgent == []
    {
      this.basePath := basePath;
      this.inputConfig := inputConfig;
      this.agentConfig := agentConfig;
      inputFiles := [];
      targetedFilesByAgent := [];
    }

    /**
     * `process_input_files_and_folders`: with neither list present it raises
     * and changes nothing; otherwise it starts both collections afresh and
     * leaves them as `ProcessInput` describes, raising where a read raises.
     */
    method ProcessInputFilesAndFolders(fs: FileSystem) returns (r: Result<(seq<InputEntry>, Groups)>)
      modifies this
      ensures basePath == old(basePath) && inputConfig == old(inputConfig) && agentConfig == old(agentConfig)
      ensures old(inputConfig).inputFiles.Missing? && old(inputConfig).inputFolders.Missing? ==>
        r == Err(NoInputMessage) && inputFiles == old(inputFiles) && targetedFilesByAgent == old(targetedFilesByAgent)
      ensures !old(inputConfig).inputFiles.Missing? || !old(inputConfig).inputFolders.Missing? ==>
        var p := ProcessInput(fs, old(basePath), old(inputConfig));
        && inputFiles == p.entries && targetedFilesByAgent == p.groups
        && r == (if p.error.Some? then Err(p.error.value) else Ok((p.entries, p.groups)))
    {
      var ic := inputConfig;
      if ic.inputFiles.Missing? && ic.inputFolders.Missing? {
        return Err(NoInputMessage);
      }
      var p := Progress([], [], None);
      match ic.inputFiles {
        case Items(fcs) => p := RunFileSteps(fs, basePath, p, fcs);
        case NotAList(v) => p := p.(error := NonListLoopError(v, true));
        case Missing =>
      }
      if p.error.None? {
        match ic.inputFolders {
          case Items(fcs) => p := RunFolderSteps(fs, basePath, p, fcs);
          case NotAList(v) => p := p.(error := NonListLoopError(v, false));
          case Missing =>
        }
      }
      inputFiles := p.entries;
      targetedFilesByAgent := p.groups;
      return if p.error.Some? then Err(p.error.value) else Ok((p.entries, p.groups));
    }

    /**
     * `apply_targeted_files_to_agent_config`: appends each group to its
     * agent, in insertion order, and counts the agents found.
     */
    method ApplyTargetedFilesToAgentConfig() returns (modifiedCount: nat)
      modifies this
      ensures basePath == old(basePath) && inputConfig == old(inputConfig) && inputFiles == old(inputFiles)
      ensures targetedFilesByAgent == old(targetedFilesByAgent)
      ensures agentConfig == ApplyGroups(old(agentConfig), old(targetedFilesByAgent))
      ensures modifiedCount == FoundCount(old(agentConfig), old(targetedFilesByAgent))
    {
      var updated;
      updated, modifiedCount := AppendGroups(agentConfig, targetedFilesByAgent);
      agentConfig := updated;
    }
  }

  /** The `input_files` loop: it stops at the first file that cannot be read. */
  method RunFileSteps(fs: FileSystem, base: string, start: Progress, fcs: seq<FileConfig>) returns (p: Progress)
    requires start.error.None?
    ensures p == FileSteps(fs, base, start, fcs)
  {
    var entries, groups := start.entries, start.groups;
    var i := 0;
    while i < |fcs|
      invariant 0 <= i <= |fcs|
      invariant FileSteps(fs, base, start, fcs[..i]) == Progress(entries, groups, None)
    {
      var fc := fcs[i];
      var agents := Targets(fc.targetAgent);
      var path := JoinPath(base, fc.inputPath);
      entries := entries + [InputEntry(path, fc.inputType, agents)];
      FileStepsSnoc(fs, base, start, fcs, i);
      if agents != [] {
        var read := ReadInputFile(fs, path, fc.inputType);
        if read.Err? {
          p := Progress(entries, groups, Some(read.error));
          FileStepsStopAt(fs, base, start, fcs, i, p);
          return;
        }
        groups := AddToGroups(groups, agents, read.value);
      }
      i := i + 1;
    }
    assert fcs[..|fcs|] == fcs;
    p := Progress(entries, groups, None);
  }

  /** The `input_folders` loop: it stops at the first folder that does not exist. */
  method RunFolderSteps(fs: FileSystem, base: string, start: Progress, fcs: seq<FolderConfig>) returns (p: Progress)
    requires start.error.None?
    ensures p == FolderSteps(fs, base, start, fcs)
  {
    var entries, groups := start.entries, start.groups;
    var i := 0;
    while i < |fcs|
      invariant 0 <= i <= |fcs|
      invariant FolderSteps(fs, base, start, fcs[..i]) == Progress(entries, groups, None)
    {
      var fc := fcs[i];
      var agents := Targets(fc.targetAgent);
      FolderStepsSnoc(fs, base, start, fcs, i);
      var read := ReadInputFolder(fs, JoinPath(base, fc.inputPath), fc.inputType);
      if read.Err? {
        p := Progress(entries, groups, Some(read.error));
        FolderStepsStopAt(fs, base, start, fcs, i, p);
        return;
      }
      entries, groups := AddFilesOfFolder(entries, groups, read.value, agents);
      i := i + 1;
    }
    WholePrefix(fcs);
    p := Progress(entries, groups, None);
  }

  /** The inner loop over one folder's files: each becomes an entry and joins its targets' groups. */
  method AddFilesOfFolder(entries0: seq<InputEntry>, groups0: Groups, files: seq<InputFile>, agents: seq<string>)
    returns (entries: seq<InputEntry>, groups: Groups)
    ensures AddFolderFiles(Progress(entries0, groups0, None), files, agents) == Progress(entries, groups, None)
  {
    entries, groups := entries0, groups0;
    for j := 0 to |files|
      invariant AddFolderFiles(Progress(entries0, groups0, None), files[..j], agents) == Progress(entries, groups, None)
    {
      var f := files[j];
      entries := entries + [InputEntry(f.fullPath, Some(f.fileType), agents)];
      groups := if agents != [] then AddToGroups(groups, agents, f) else groups;
      assert files[..j + 1][..j] == files[..j];
    }
    WholePrefix(files);
  }

  /** The loop of `apply_targeted_files_to_agent_config`, over the tree it updates. */
  method AppendGroups(c0: Config, groups: Groups) returns (c: Config, modifiedCount: nat)
    ensures c == ApplyGroups(c0, groups)
    ensures modifiedCount == FoundCount(c0, groups)
  {
    modifiedCount := 0;
    c := c0;
    var i := 0;
    while i < |groups|
      invariant 0 <= i <= |groups|
      invariant c == ApplyGroups(c0, groups[..i])
      invariant modifiedCount == FoundCount(c0, groups[..i])
    {
      c, modifiedCount := ApplyGroupAt(c0, groups, i, c, modifiedCount);
      i := i + 1;
    }
    WholePrefix(groups);
  }

  /** The body of that loop: group `i`'s files are appended to its agent, counted when the agent is found. */
  method ApplyGroupAt(c0: Config, groups: seq<(string, seq<InputFile>)>, i: nat, c: Config, n: nat)
    returns (c': Config, n': nat)
    requires i < |groups|
    requires c == ApplyGroups(c0, groups[..i]) && n == FoundCount(c0, groups[..i])
    ensures c' == ApplyGroups(c0, groups[..i + 1]) && n' == FoundCount(c0, groups[..i + 1])
  {
    var success, updated := PromptUtils.AppendContentToAgentConfig(c, groups[i].0, ForPrompt(groups[i].1));
    n' := if success then n + 1 else n;
    ApplyNextGroup(c0, groups, i, c, n, updated, success, n');
    c' := updated;
  }

  /** One iteration of the loop that applies the groups. */
  lemma ApplyNextGroup(c0: Config, groups: seq<(string, seq<InputFile>)>, i: nat, c: Config, n: nat,
                       updated: Config, success: bool, count: nat)
    requires i < |groups|
    requires c == ApplyGroups(c0, groups[..i]) && n == FoundCount(c0, groups[..i])
    requires (updated, success)
          == PromptUtils.AppendNode(c, groups[i].0, PromptUtils.AdditionalContent(ForPrompt(groups[i].1)))
    requires count == if success then n + 1 else n
    ensures ApplyGroups(c0, groups[..i + 1]) == updated
    ensures FoundCount(c0, groups[..i + 1]) == count
  {
    assert groups[..i + 1][..i] == groups[..i];
    PromptUtils.AppendNodeSpec(c, groups[i].0, PromptUtils.AdditionalContent(ForPrompt(groups[i].1)));
    ApplyGroupsKeepsNames(c0, groups[..i], groups[i].0);
  }

  /** The steps over one more configuration are one more step. */
  lemma FileStepsSnoc(fs: FileSystem, base: string, p: Progress, fcs: seq<FileConfig>, i: nat)
    requires i < |fcs|
    ensures FileSteps(fs, base, p, fcs[..i + 1]) == FileStep(fs, base, FileSteps(fs, base, p, fcs[..i]), fcs[i])
  {
    assert fcs[..i + 1][..i] == fcs[..i];
  }

  lemma FolderStepsSnoc(fs: FileSystem, base: string, p: Progress, fcs: seq<FolderConfig>, i: nat)
    requires i < |fcs|
    ensures FolderSteps(fs, base, p, fcs[..i + 1]) == FolderStep(fs, base, FolderSteps(fs, base, p, fcs[..i]), fcs[i])
  {
    assert fcs[..i + 1][..i] == fcs[..i];
  }

  /** Once the steps up to configuration `i` have failed, the remaining ones change nothing. */
  lemma FileStepsStopAt(fs: FileSystem, base: string, p: Progress, fcs: seq<FileConfig>, i: nat, q: Progress)
    requires i < |fcs| && FileSteps(fs, base, p, fcs[..i + 1]) == q && q.error.Some?
    ensures FileSteps(fs, base, p, fcs) == q
  {
    FileStepsAfterError(fs, base, q, fcs[i + 1..]);
    FileStepsSplit(fs, base, p, fcs, i + 1);
  }

  lemma FolderStepsStopAt(fs: FileSystem, base: string, p: Progress, fcs: seq<FolderConfig>, i: nat, q: Progress)
    requires i < |fcs| && FolderSteps(fs, base, p, fcs[..i + 1]) == q && q.error.Some?
    ensures FolderSteps(fs, base, p, fcs) == q
  {
    FolderStepsAfterError(fs, base, q, fcs[i + 1..]);
    FolderStepsSplit(fs, base, p, fcs, i + 1);
  }

  lemma {:induction false} FileStepsSplit(fs: FileSystem, base: string, p: Progress, fcs: seq<FileConfig>, i: nat)
    requires i <= |fcs|
    ensures FileSteps(fs, base, p, fcs) == FileSteps(fs, base, FileSteps(fs, base, p, fcs[..i]), fcs[i..])
    decreases |fcs|
  {
    if i < |fcs| {
      FileStepsSplit(fs, base, p, fcs[..|fcs| - 1], i);
      DropLastSplit(fcs, i);
    } else {
      WholePrefix(fcs);
    }
  }

  lemma {:induction false} FolderStepsSplit(fs: FileSystem, base: string, p: Progress, fcs: seq<FolderConfig>, i: nat)
    requires i <= |fcs|
    ensures FolderSteps(fs, base, p, fcs) == FolderSteps(fs, base, FolderSteps(fs, base, p, fcs[..i]), fcs[i..])
    decreases |fcs|
  {
    if i < |fcs| {
      FolderStepsSplit(fs, base, p, fcs[..|fcs| - 1], i);
      DropLastSplit(fcs, i);
    } else {
      WholePrefix(fcs);
    }
  }
}

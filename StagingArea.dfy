/**
 * The staging-area file browser (stagingAreaViewer.js): it shows one
 * directory of the user's staging area, navigates into folders, builds the
 * breadcrumb trail, fetches a file's metadata once per listing, and launches
 * an importer app with parameters derived from the selected file.
 *
 * The widget's current location is `path`; `subpath` is that path without the
 * user-root segment and is what the staging service is asked about. Calls to
 * the staging service and to the host notebook are not made: they are appended
 * to `requests`, in the order the widget issues them.
 */
module StagingArea {
  import opened Wrappers
  import opened PathText

  // ---------------------------------------------------------------------------
  // Paths
  // ---------------------------------------------------------------------------

  /**
   * The segments `setPath` keeps: all segments of the path after the first
   * (the user root), and after the empty one before a leading '/'.
   */
  function SubpathSegments(path: string): seq<string>
  {
    var parts := Split(path);
    var tokens := |parts| - 1 - (if StartsWithSlash(path) then 1 else 0);
    parts[|parts| - tokens..]
  }

  /** The `subpath` that `setPath` derives from a path. */
  function Subpath(path: string): string
  {
    Join(SubpathSegments(path))
  }

  /**
   * `subpath` is what follows the user-root segment: "/" and "" both give "",
   * and "/u/rest" and "u/rest" both give "rest".
   */
  lemma SubpathDropsUserRoot(user: string, rest: string)
    requires IsSegment(user)
    ensures Subpath(user) == "" && Subpath("/" + user) == ""
    ensures Subpath("/" + user + "/" + rest) == rest
    ensures |user| > 0 ==> Subpath(user + "/" + rest) == rest
  {
    SplitSegment(user);
    SplitConsSlash(user);
    SplitAtSlash(user, rest);
    JoinSplit(rest);
    assert "/" + user + "/" + rest == "/" + (user + "/" + rest);
    SplitConsSlash(user + "/" + rest);
    var tail := Split(rest);
    assert ([""] + ([user] + tail))[2..] == tail;
    if |user| > 0 {
      assert (user + "/" + rest)[0] == user[0];
      assert ([user] + tail)[1..] == tail;
    }
  }

  /**
   * Opening folder `name` appends `'/' + name` to a non-empty path; the new
   * subpath's segments are the old ones followed by `name`.
   */
  lemma OpenFolderSubpath(path: string, name: string)
    requires |path| > 0 && IsSegment(name)
    ensures SubpathSegments(path + "/" + name) == SubpathSegments(path) + [name]
    ensures Subpath(path + "/" + name)
            == if SubpathSegments(path) == [] then name else Subpath(path) + "/" + name
  {
    var parts := Split(path);
    SplitAtSlash(path, name);
    SplitSegment(name);
    assert (path + "/" + name)[0] == path[0];
    if StartsWithSlash(path) {
      SplitConsSlash(path[1..]);
      assert path == "/" + path[1..];
    }
    var k := |parts| - (|parts| - 1 - (if StartsWithSlash(path) then 1 else 0));
    assert (parts + [name])[k..] == parts[k..] + [name];
    if SubpathSegments(path) != [] {
      JoinAppend(SubpathSegments(path), name);
    }
  }

  /** The path `renderPath` splits: without one leading '/'. */
  function Stripped(path: string): string
  {
    if StartsWithSlash(path) then path[1..] else path
  }

  /** One breadcrumb: the segment shown, and the path a click on it navigates to. */
  datatype PathTerm = PathTerm(term: string, subpath: string)

  /**
   * The path of a file of the current directory, as sent in metadata requests
   * and in import parameters: the name alone at the top, else under `subpath`.
   */
  function FilePath(subpath: string, name: string): string
  {
    if |subpath| > 0 then subpath + "/" + name else name
  }

  /** The file path names the file as its last segment, inside the current directory's segments. */
  lemma FilePathSegments(subpath: string, name: string)
    requires IsSegment(name)
    ensures Split(FilePath(subpath, name)) == (if subpath == "" then [] else Split(subpath)) + [name]
    ensures |FilePath(subpath, name)| >= |name| && EndsWith(FilePath(subpath, name), name)
  {
    SplitSegment(name);
    if subpath != "" {
      SplitAtSlash(subpath, name);
      var p := subpath + "/" + name;
      assert p[|p| - |name|..] == name;
    } else {
      assert name[|name| - |name|..] == name;
    }
  }

  // ---------------------------------------------------------------------------
  // The decompress button
  // ---------------------------------------------------------------------------

  /** The alternatives of the archive pattern, in the order the pattern lists them. */
  const ArchiveExtensions: seq<string> := ["zip", "tar.gz", "tgz", "tar.bz", "tar.bz2", "tar", "gz", "bz2"]

  /**
   * The meaning of `/\.(zip|tar\.gz|tgz|tar\.bz|tar\.bz2|tar|gz|bz2)$/` found
   * anywhere in the name: a '.' at some position, followed by one of the
   * alternatives running to the end of the name.
   */
  ghost predicate ArchivePatternMatches(name: string)
  {
    exists i :: 0 <= i < |name| && name[i] == '.' && name[i + 1..] in ArchiveExtensions
  }

  /** Whether a decompress button is offered: the name ends in '.' and one of the archive extensions. */
  predicate Decompressible(name: string)
  {
    exists ext :: ext in ArchiveExtensions && EndsWith(name, "." + ext)
  }

  lemma EndsWithDotExtension(name: string, ext: string)
    requires EndsWith(name, "." + ext)
    ensures var i := |name| - |ext| - 1; 0 <= i < |name| && name[i] == '.' && name[i + 1..] == ext
  {
    var i := |name| - |ext| - 1;
    assert name[i..] == "." + ext;
    assert name[i] == name[i..][0];
    assert name[i + 1..] == name[i..][1..];
  }

  lemma DecompressibleMatches(name: string)
    requires Decompressible(name)
    ensures ArchivePatternMatches(name)
  {
    var ext :| ext in ArchiveExtensions && EndsWith(name, "." + ext);
    EndsWithDotExtension(name, ext);
  }

  lemma MatchesDecompressible(name: string, i: int)
    requires 0 <= i < |name| && name[i] == '.' && name[i + 1..] in ArchiveExtensions
    ensures Decompressible(name)
  {
    var ext := name[i + 1..];
    assert name[|name| - |"." + ext|..] == "." + ext;
  }

  /** A decompress button is offered exactly when the archive pattern matches the name. */
  lemma DecompressibleIffPattern(name: string)
    ensures Decompressible(name) <==> ArchivePatternMatches(name)
  {
    if Decompressible(name) {
      DecompressibleMatches(name);
    }
    if ArchivePatternMatches(name) {
      var i :| 0 <= i < |name| && name[i] == '.' && name[i + 1..] in ArchiveExtensions;
      MatchesDecompressible(name, i);
    }
  }

  // ---------------------------------------------------------------------------
  // Import parameters
  // ---------------------------------------------------------------------------

  /** A value in an app's parameter dictionary. */
  datatype ParamValue = Text(text: string) | TextList(items: seq<string>) | Number(n: int) | Flag(b: bool)

  /**
   * One importer's entry of `uploaders.app_info`. An absent or empty
   * parameter name is "" (both are falsy); `app_static_params` absent is the
   * empty map.
   */
  datatype AppInfo = AppInfo(
    appId: string,
    inputParam: string,
    inputParamType: string,
    outputParam: string,
    outputSuffix: Option<string>,
    staticParams: map<string, ParamValue>)

  /** A string concatenated with `app_output_suffix`: an absent suffix reads as "undefined". */
  function SuffixText(suffix: Option<string>): string
  {
    match suffix
    case Some(s) => s
    case None => "undefined"
  }

  /** The file name `initImportApp` starts from: "" when no file was given. */
  function FileName(file: Option<string>): string
  {
    match file
    case Some(n) => n
    case None => ""
  }

  /** The input parameter's value: the file path, or a one-element list of it for a list parameter. */
  function InputValue(info: AppInfo, filePath: string): ParamValue
  {
    if info.inputParamType == "list" then TextList([filePath]) else Text(filePath)
  }

  /** The parameter names the importer's own configuration asks to fill. */
  function NamedParams(info: AppInfo): set<string>
  {
    (if info.inputParam != "" then {info.inputParam} else {})
    + (if info.outputParam != "" then {info.outputParam} else {})
  }

  /**
   * `initImportApp` reads `file.name` when there is no file (the web-upload
   * link passes none) as soon as the subpath is non-empty or an output
   * parameter is configured: a TypeError.
   */
  predicate ImportThrows(info: AppInfo, subpath: string, file: Option<string>)
  {
    file.None? && (subpath != "" || info.outputParam != "")
  }

  /**
   * The dictionary `initImportApp` hands to the notebook: the static
   * parameters, written last, win every clash; the output parameter (the file
   * name with whitespace turned into '_', then the suffix) is written after the
   * input parameter (the file path, wrapped in a list for a list parameter).
   */
  ghost predicate ImportInputsSpec(info: AppInfo, subpath: string, file: Option<string>, inputs: map<string, ParamValue>)
  {
    && inputs.Keys == NamedParams(info) + info.staticParams.Keys
    && (forall k :: k in info.staticParams ==> inputs[k] == info.staticParams[k])
    && (info.outputParam != "" && info.outputParam !in info.staticParams ==>
          file.Some? && inputs[info.outputParam] == Text(ReplaceWhitespace(file.value) + SuffixText(info.outputSuffix)))
    && (info.inputParam != "" && info.inputParam != info.outputParam && info.inputParam !in info.staticParams ==>
          inputs[info.inputParam] == InputValue(info, FilePath(subpath, FileName(file))))
  }

  /** The message of the TypeError `initImportApp` throws on a missing file. */
  const FileUndefinedError := "TypeError: file is undefined"

  /** The body of `initImportApp` once an importer was found: build `inputs` in place. */
  method BuildImportInputs(info: AppInfo, subpath: string, file: Option<string>)
    returns (r: Result<map<string, ParamValue>, string>)
    ensures r.Failure? <==> ImportThrows(info, subpath, file)
    ensures r.Success? ==> ImportInputsSpec(info, subpath, file, r.value)
  {
    var fileParam := if file.Some? then file.value else "";
    if subpath != "" {
      if file.None? {
        return Failure(FileUndefinedError);
      }
      fileParam := subpath + "/" + file.value;
    }
    var param := if info.inputParamType == "list" then TextList([fileParam]) else Text(fileParam);
    var inputs: map<string, ParamValue> := map[];
    if info.inputParam != "" {
      inputs := inputs[info.inputParam := param];
    }
    if info.outputParam != "" {
      if file.None? {
        return Failure(FileUndefinedError);
      }
      inputs := inputs[info.outputParam := Text(ReplaceWhitespace(file.value) + SuffixText(info.outputSuffix))];
    }
    ghost var named := inputs;
    var statics := info.staticParams;
    var remaining := statics.Keys;
    while remaining != {}
      invariant remaining <= statics.Keys
      invariant inputs.Keys == named.Keys + (statics.Keys - remaining)
      invariant forall k :: k in statics && k !in remaining ==> inputs[k] == statics[k]
      invariant forall k :: k in named && (k !in statics || k in remaining) ==> inputs[k] == named[k]
      decreases remaining
    {
      var p :| p in remaining;
      inputs := inputs[p := statics[p]];
      remaining := remaining - {p};
    }
    r := Success(inputs);
  }

  // ---------------------------------------------------------------------------
  // The widget
  // ---------------------------------------------------------------------------

  /** One row of a directory listing, as the staging service returns it. */
  datatype ListedFile = ListedFile(name: string, isFolder: bool, size: nat, mtime: int)

  /** The detail row shown under an expanded file row: the metadata path it shows, the file it deletes. */
  datatype DetailPanel = DetailPanel(metadataPath: string, fileName: string)

  /**
   * A file of the current listing, with the client-side `imported` marker
   * (set on non-folders) and the `loaded` slot that memoizes the detail row.
   */
  datatype FileEntry = FileEntry(
    name: string, isFolder: bool, size: nat, mtime: int,
    imported: bool, loaded: Option<DetailPanel>)

  /** A call the widget makes to the staging service or to the notebook. */
  datatype Request =
    | ListDir(path: string)
    | Metadata(path: string)
    | AddApp(appId: string, inputs: map<string, ParamValue>)

  /** What `initImportApp` ends with. */
  datatype ImportOutcome = NoImporter | Thrown | Launched(appId: string, inputs: map<string, ParamValue>)

  /** The entry a fresh listing row becomes: not expanded yet, marked when it is a file. */
  function EntryOf(f: ListedFile): FileEntry
  {
    FileEntry(f.name, f.isFolder, f.size, f.mtime, !f.isFolder, None)
  }

  /**
   * `terms` are the first breadcrumbs for the segments `segs`: each shows its
   * segment, the first leads to '/' + its segment, each next one extends its
   * predecessor's path, and the last leads to '/' + the joined segments so far.
   */
  ghost predicate IsTrail(terms: seq<PathTerm>, segs: seq<string>)
  {
    && |terms| <= |segs|
    && (forall k :: 0 <= k < |terms| ==> terms[k].term == segs[k])
    && (|terms| > 0 ==> terms[0].subpath == "/" + terms[0].term)
    && (forall k :: 0 < k < |terms| ==> terms[k].subpath == terms[k - 1].subpath + "/" + terms[k].term)
    && (|terms| > 0 ==> terms[|terms| - 1].subpath == "/" + Join(segs[..|terms|]))
  }

  /** The first iteration of the breadcrumb loop starts a trail. */
  lemma TrailStart(segs: seq<string>)
    requires |segs| > 0
    ensures IsTrail([PathTerm(segs[0], "" + "/" + segs[0])], segs)
  {
    assert segs[..1] == [segs[0]];
  }

  /** Every later iteration of the breadcrumb loop keeps the trail a trail. */
  lemma TrailGrow(terms: seq<PathTerm>, segs: seq<string>)
    requires IsTrail(terms, segs) && 0 < |terms| < |segs|
    ensures var i := |terms|;
      IsTrail(terms + [PathTerm(segs[i], terms[i - 1].subpath + "/" + segs[i])], segs)
  {
    var i := |terms|;
    var t := PathTerm(segs[i], terms[i - 1].subpath + "/" + segs[i]);
    var next := terms + [t];
    assert forall k :: 0 <= k < i ==> next[k] == terms[k];
    assert next[i] == t && next[i - 1] == terms[i - 1];
    TrailPathStep(terms[i - 1].subpath, segs, i);
    assert next[|next| - 1].subpath == "/" + Join(segs[..|next|]);
  }

  /** The path of breadcrumb `i` is the path of breadcrumb `i - 1`, '/' and segment `i`. */
  lemma TrailPathStep(prevPath: string, segs: seq<string>, i: nat)
    requires 0 < i < |segs| && prevPath == "/" + Join(segs[..i])
    ensures prevPath + "/" + segs[i] == "/" + Join(segs[..i + 1])
  {
    JoinAppend(segs[..i], segs[i]);
    assert segs[..i + 1] == segs[..i] + [segs[i]];
  }

  class StagingAreaViewer {
    var path: string
    var subpath: string
    var files: seq<FileEntry>
    var requests: seq<Request>
    /** `uploaders.app_info`: importer type to importer configuration. */
    const appInfo: map<string, AppInfo>

    ghost predicate Valid()
      reads this
    {
      subpath == Subpath(path)
    }

    /** `init`: remember the importers and go to the given path. */
    constructor (path0: string, appInfo0: map<string, AppInfo>)
      ensures Valid() && path == path0 && appInfo == appInfo0
      ensures files == [] && requests == [ListDir(Subpath(path0))]
    {
      appInfo := appInfo0;
      files := [];
      requests := [];
      path := path0;
      subpath := "";
      new;
      SetPath(path0);
    }

    /** `updateView`: ask the staging service for the listing of `subpath`. */
    method UpdateView()
      requires Valid()
      modifies this`requests
      ensures Valid()
      ensures requests == old(requests) + [ListDir(Subpath(path))]
    {
      requests := requests + [ListDir(subpath)];
    }

    /** `setPath`: take the new path, derive its subpath, and list it. */
    method SetPath(p: string)
      modifies this`path, this`subpath, this`requests
      ensures Valid() && path == p
      ensures requests == old(requests) + [ListDir(Subpath(p))]
    {
      path := p;
      var parts := Split(p);
      var tokens := |parts| - 1;
      if StartsWithSlash(path) {
        tokens := tokens - 1;
      }
      subpath := Join(parts[|parts| - tokens..]);
      UpdateView();
    }

    /** The listing callback: the rows replace the old ones, so every cached detail row is dropped. */
    method ReceiveListing(listing: seq<ListedFile>)
      requires Valid()
      modifies this`files
      ensures Valid()
      ensures |files| == |listing|
      ensures forall i :: 0 <= i < |listing| ==> files[i] == EntryOf(listing[i])
    {
      var entries: seq<FileEntry> := [];
      var i := 0;
      while i < |listing|
        invariant 0 <= i <= |listing|
        invariant |entries| == i
        invariant forall k :: 0 <= k < i ==> entries[k] == EntryOf(listing[k])
      {
        var f := listing[i];
        entries := entries + [FileEntry(f.name, f.isFolder, f.size, f.mtime, !f.isFolder, None)];
        i := i + 1;
      }
      files := entries;
    }

    /** A click on a folder's button: `this.path += '/' + name`, then `setPath` with it. */
    method OpenFolder(name: string)
      modifies this`path, this`subpath, this`requests
      ensures Valid() && path == old(path) + "/" + name
      ensures requests == old(requests) + [ListDir(Subpath(path))]
      ensures |old(path)| > 0 && IsSegment(name) ==>
                SubpathSegments(path) == SubpathSegments(old(path)) + [name]
    {
      if |path| > 0 && IsSegment(name) {
        OpenFolderSubpath(path, name);
      }
      path := path + "/" + name;
      SetPath(path);
    }

    /**
     * `renderPath`: one breadcrumb per segment of the path without its leading
     * '/', each leading to its predecessor's path plus '/' and its own segment.
     */
    method RenderPath() returns (terms: seq<PathTerm>)
      ensures |terms| == |Split(Stripped(path))|
      ensures forall i :: 0 <= i < |terms| ==> terms[i].term == Split(Stripped(path))[i]
      ensures terms[0].subpath == "/" + terms[0].term
      ensures forall i :: 0 < i < |terms| ==> terms[i].subpath == terms[i - 1].subpath + "/" + terms[i].term
      ensures terms[|terms| - 1].subpath == "/" + Stripped(path)
    {
      var stripped := path;
      if StartsWithSlash(stripped) {
        stripped := stripped[1..];
      }
      var splitPath := Split(stripped);
      terms := [];
      var i := 0;
      while i < |splitPath|
        invariant 0 <= i <= |splitPath| && |terms| == i
        invariant IsTrail(terms, splitPath)
      {
        var prevPath := "";
        if i > 0 {
          prevPath := terms[i - 1].subpath;
        }
        if i > 0 {
          TrailGrow(terms, splitPath);
        } else {
          TrailStart(splitPath);
        }
        terms := terms + [PathTerm(splitPath[i], prevPath + "/" + splitPath[i])];
        i := i + 1;
      }
      JoinSplit(stripped);
      assert splitPath[..|splitPath|] == splitPath;
    }

    /**
     * `renderMoreFileInfo`: a file's detail row is built, and its metadata
     * requested, only when the entry has none cached; the row is cached on the
     * same call, before the request is answered.
     */
    method RenderMoreFileInfo(i: nat) returns (panel: DetailPanel)
      requires Valid() && i < |files|
      modifies this`files, this`requests
      ensures Valid()
      ensures |files| == |old(files)|
      ensures old(files[i].loaded).Some? ==>
        panel == old(files[i].loaded.value) && files == old(files) && requests == old(requests)
      ensures old(files[i].loaded).None? ==>
        && panel == DetailPanel(FilePath(Subpath(path), old(files[i].name)), old(files[i].name))
        && files == old(files)[i := old(files[i]).(loaded := Some(panel))]
        && requests == old(requests) + [Metadata(FilePath(Subpath(path), old(files[i].name)))]
    {
      var fileData := files[i];
      if fileData.loaded.Some? {
        return fileData.loaded.value;
      }
      var filePath := subpath;
      if |filePath| > 0 {
        filePath := filePath + "/";
      }
      filePath := filePath + fileData.name;
      requests := requests + [Metadata(filePath)];
      panel := DetailPanel(filePath, fileData.name);
      files := files[i := fileData.(loaded := Some(panel))];
    }

    /**
     * `initImportApp`: nothing for an unknown importer type; otherwise build
     * the parameters and ask the notebook to add the app.
     */
    method InitImportApp(importType: string, file: Option<string>) returns (outcome: ImportOutcome)
      requires Valid()
      modifies this`requests
      ensures Valid()
      ensures importType !in appInfo ==> outcome == NoImporter
      ensures importType in appInfo ==>
        && outcome != NoImporter
        && (outcome == Thrown <==> ImportThrows(appInfo[importType], Subpath(path), file))
        && (outcome.Launched? ==>
              outcome.appId == appInfo[importType].appId
              && ImportInputsSpec(appInfo[importType], Subpath(path), file, outcome.inputs))
      ensures requests == if outcome.Launched? then old(requests) + [AddApp(outcome.appId, outcome.inputs)]
                          else old(requests)
    {
      if importType !in appInfo {
        return NoImporter;
      }
      var info := appInfo[importType];
      var built := BuildImportInputs(info, subpath, file);
      if built.Failure? {
        return Thrown;
      }
      outcome := Launched(info.appId, built.value);
      requests := requests + [AddApp(info.appId, built.value)];
    }
  }

  /**
   * Expanding a file row, collapsing it and expanding it again shows the same
   * detail row twice and asks for the file's metadata at most once.
   */
  method ExpandCollapseExpand(v: StagingAreaViewer, i: nat) returns (first: DetailPanel, second: DetailPanel)
    requires v.Valid() && i < |v.files|
    modifies v
    ensures v.Valid()
    ensures first == second
    ensures old(v.files[i].loaded).Some? ==> v.requests == old(v.requests)
    ensures old(v.files[i].loaded).None? ==>
      v.requests == old(v.requests) + [Metadata(FilePath(Subpath(v.path), old(v.files[i].name)))]
  {
    first := v.RenderMoreFileInfo(i);
    second := v.RenderMoreFileInfo(i);
  }
}

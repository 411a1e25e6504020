/**
 * NativeExecutableUtil: the archive path and file-name rules, the static
 * memo fields `architecture` and `archStr`, and the search that extracts the
 * first matching executable and loads it.
 *
 * The extractor and `System.load` are parameters: the extractor is a function
 * from (directory, executable name) to an `Extraction`, and loading is a
 * function from the extracted file's absolute path to "linked" (true) or
 * "UnsatisfiedLinkError" (false).
 */
module NativeExe {
  import opened Wrappers
  import opened Strings
  import opened Platform

  const DELIM: string := "/"
  const DEFAULT_SEARCH_PATH: string := "natives" + DELIM
  const META_INF_LIB: string := "META-INF" + DELIM + "lib"

  // ---------------------------------------------------------------------------
  // Directory names

  /** Lower-casing keeps '/' out of a name that had none. */
  lemma LowerKeepsDelimiterOut(s: string)
    requires '/' !in s
    ensures '/' !in Lower(s)
  {
  }

  /** No platform directory name contains the delimiter. */
  lemma DirectoryNameHasNoDelimiter(a: Architecture)
    ensures '/' !in DirectoryName(a)
  {
    LowerKeepsDelimiterOut(a.Name());
  }

  /** The archive directory names of the platforms, as the class comment lays them out. */
  lemma DirectoryNames()
    ensures DirectoryName(LINUX_32) == "linux_32"
    ensures DirectoryName(LINUX_64) == "linux_64"
    ensures DirectoryName(LINUX_ARM) == "linux_arm"
    ensures DirectoryName(LINUX_ARM64) == "linux_arm64"
    ensures DirectoryName(WINDOWS_32) == "windows_32"
    ensures DirectoryName(WINDOWS_64) == "windows_64"
    ensures DirectoryName(OSX_32) == "osx_32"
    ensures DirectoryName(OSX_64) == "osx_64"
    ensures DirectoryName(OSX_PPC) == "osx_ppc"
    ensures DirectoryName(OSX_ARM64) == "osx_arm64"
    ensures DirectoryName(Architecture.UNKNOWN) == "unknown"
    ensures DirectoryName(AIX_32) == "aix_32"
    ensures DirectoryName(AIX_64) == "aix_64"
  {
    LinuxDirectoryNames();
    WindowsDirectoryNames();
    OsxDirectoryNames();
    OthersDirectoryNames();
  }

  lemma LinuxDirectoryNames()
    ensures DirectoryName(LINUX_32) == "linux_32"
    ensures DirectoryName(LINUX_64) == "linux_64"
    ensures DirectoryName(LINUX_ARM) == "linux_arm"
    ensures DirectoryName(LINUX_ARM64) == "linux_arm64"
  {
  }

  lemma WindowsDirectoryNames()
    ensures DirectoryName(WINDOWS_32) == "windows_32"
    ensures DirectoryName(WINDOWS_64) == "windows_64"
  {
  }

  lemma OsxDirectoryNames()
    ensures DirectoryName(OSX_32) == "osx_32"
    ensures DirectoryName(OSX_64) == "osx_64"
    ensures DirectoryName(OSX_PPC) == "osx_ppc"
    ensures DirectoryName(OSX_ARM64) == "osx_arm64"
  {
  }

  lemma OthersDirectoryNames()
    ensures DirectoryName(Architecture.UNKNOWN) == "unknown"
    ensures DirectoryName(AIX_32) == "aix_32"
    ensures DirectoryName(AIX_64) == "aix_64"
  {
  }

  /**
   * `getPlatformExecutablePath` once `archStr` is fixed: the search path,
   * then a delimiter unless the search path is empty or already ends with
   * one, then `archStr` and a closing delimiter.
   */
  function PlatformDirectory(searchPath: string, archStr: string): string {
    (if searchPath == "" || EndsWith(searchPath, DELIM) then searchPath else searchPath + DELIM)
    + archStr + DELIM
  }

  /**
   * The directory starts with the search path and ends with `archStr` and
   * the delimiter; what lies before `archStr` is the search path itself when
   * it is empty or ends with the delimiter, and otherwise the search path
   * plus one delimiter, so a delimiter is never doubled or left out.
   */
  lemma PlatformDirectoryShape(searchPath: string, archStr: string)
    ensures var r := PlatformDirectory(searchPath, archStr);
      && |searchPath| <= |r| && r[..|searchPath|] == searchPath
      && EndsWith(r, archStr + DELIM)
      && var parent := r[..|r| - |archStr| - 1];
         && (parent == searchPath <==> searchPath == "" || EndsWith(searchPath, DELIM))
         && (parent != searchPath ==> parent == searchPath + DELIM)
         && (parent == "" || EndsWith(parent, DELIM))
  {
  }

  /** The documented examples of the rule. */
  lemma PlatformDirectoryExamples()
    ensures PlatformDirectory("foo", DirectoryName(LINUX_32)) == "foo/linux_32/"
    ensures PlatformDirectory("", DirectoryName(LINUX_32)) == "linux_32/"
  {
    LinuxDirectoryNames();
    assert !EndsWith("foo", DELIM);
  }

  /** The built-in search paths, one ending with the delimiter and one without. */
  lemma BuiltInDirectoryExamples()
    ensures PlatformDirectory(DEFAULT_SEARCH_PATH, DirectoryName(WINDOWS_64)) == "natives/windows_64/"
    ensures PlatformDirectory(META_INF_LIB, DirectoryName(OSX_ARM64)) == "META-INF/lib/osx_arm64/"
  {
    NativesDirectoryExample();
    MetaInfDirectoryExample();
  }

  lemma NativesDirectoryExample()
    ensures PlatformDirectory(DEFAULT_SEARCH_PATH, DirectoryName(WINDOWS_64)) == "natives/windows_64/"
  {
    WindowsDirectoryNames();
    assert DEFAULT_SEARCH_PATH == "natives/";
  }

  lemma MetaInfDirectoryExample()
    ensures PlatformDirectory(META_INF_LIB, DirectoryName(OSX_ARM64)) == "META-INF/lib/osx_arm64/"
  {
    OsxDirectoryNames();
    assert META_INF_LIB == "META-INF/lib";
    assert META_INF_LIB[|META_INF_LIB| - 1..] == "b";
  }

  /** A search path given with or without its trailing delimiter names the same directory. */
  lemma TrailingDelimiterIsOptional(searchPath: string, archStr: string)
    requires searchPath != "" && !EndsWith(searchPath, DELIM)
    ensures PlatformDirectory(searchPath + DELIM, archStr) == PlatformDirectory(searchPath, archStr)
  {
    var p := searchPath + DELIM;
    assert p[|p| - 1..] == DELIM;
  }

  /** The text after the last delimiter of `s`. */
  function AfterLastDelimiter(s: string): string
    decreases |s|
  {
    if s == [] || s[|s| - 1] == '/' then [] else AfterLastDelimiter(s[..|s| - 1]) + [s[|s| - 1]]
  }

  /** The last name in a directory path that ends with the delimiter. */
  function LastSegment(dir: string): string
    requires EndsWith(dir, DELIM)
  {
    AfterLastDelimiter(dir[..|dir| - 1])
  }

  lemma {:induction false} AfterDelimitedParent(parent: string, name: string)
    requires parent == [] || parent[|parent| - 1] == '/'
    requires '/' !in name
    ensures AfterLastDelimiter(parent + name) == name
    decreases |name|
  {
    if name == [] {
      assert parent + name == parent;
    } else {
      var init := name[..|name| - 1];
      assert (parent + name)[..|parent + name| - 1] == parent + init;
      AfterDelimitedParent(parent, init);
      assert init + [name[|name| - 1]] == name;
    }
  }

  /** The platform directory's last name is the platform's directory name: the path is the inverse of the name. */
  lemma {:induction false} DirectoryRecordsPlatform(searchPath: string, a: Architecture)
    ensures var dir := PlatformDirectory(searchPath, DirectoryName(a));
      EndsWith(dir, DELIM) && LastSegment(dir) == DirectoryName(a)
  {
    var name := DirectoryName(a);
    var dir := PlatformDirectory(searchPath, name);
    var parent := dir[..|dir| - |name| - 1];
    PlatformDirectoryShape(searchPath, name);
    DirectoryNameHasNoDelimiter(a);
    assert dir[..|dir| - 1] == parent + name;
    AfterDelimitedParent(parent, name);
  }

  /** Two platforms never share a directory name. */
  lemma DirectoryNameIsInjective(a: Architecture, b: Architecture)
    ensures DirectoryName(a) == DirectoryName(b) ==> a == b
  {
    DirectoryNames();
  }

  /** Under one search path, different platforms get different directories. */
  lemma DistinctPlatformsDistinctDirectories(searchPath: string, a: Architecture, b: Architecture)
    requires a != b
    ensures PlatformDirectory(searchPath, DirectoryName(a)) != PlatformDirectory(searchPath, DirectoryName(b))
  {
    DirectoryRecordsPlatform(searchPath, a);
    DirectoryRecordsPlatform(searchPath, b);
    DirectoryNameIsInjective(a, b);
  }

  // ---------------------------------------------------------------------------
  // File names

  predicate IsWindows(a: Architecture) {
    a == WINDOWS_32 || a == WINDOWS_64
  }

  /**
   * `getPlatformExecutableName` for a known architecture: the name itself on
   * Linux, macOS and AIX, the name with ".exe" on Windows, and no name (null)
   * for UNKNOWN and OSX_PPC.
   */
  function ExecutableFileName(exeName: string, a: Architecture): (r: Option<string>)
    ensures r.None? <==> a == Architecture.UNKNOWN || a == OSX_PPC
    ensures r.Some? ==> |exeName| <= |r.value| && r.value[..|exeName|] == exeName
    ensures r.Some? && IsWindows(a) ==> r.value[|exeName|..] == ".exe"
    ensures r.Some? && !IsWindows(a) ==> r.value == exeName
  {
    match a
    case AIX_32 | AIX_64 | LINUX_32 | LINUX_64 | LINUX_ARM | LINUX_ARM64 | OSX_32 | OSX_64 | OSX_ARM64 =>
      Some(exeName)
    case WINDOWS_32 | WINDOWS_64 =>
      Some(exeName + ".exe")
    case _ =>
      None
  }

  /** The executable name a platform file name was built from. */
  function BaseExecutableName(fileName: string, a: Architecture): string {
    if IsWindows(a) && EndsWith(fileName, ".exe") then fileName[..|fileName| - 4] else fileName
  }

  /** The base name is recovered from every platform file name. */
  lemma FileNameRoundTrip(exeName: string, a: Architecture)
    requires ExecutableFileName(exeName, a).Some?
    ensures BaseExecutableName(ExecutableFileName(exeName, a).value, a) == exeName
  {
    var r := ExecutableFileName(exeName, a).value;
    if IsWindows(a) {
      assert r == exeName + ".exe";
      assert r[|r| - 4..] == ".exe";
    }
  }

  /**
   * `getVersionedExecutableName` given the jar's implementation version (null
   * when the manifest has none): "-" and the version are appended exactly
   * when the version is present and non-empty.
   */
  function VersionedExecutableName(exeName: string, version: Option<string>): (r: string)
    ensures |exeName| <= |r| && r[..|exeName|] == exeName
    ensures r[|exeName|..] == (if version.Some? && version.value != "" then "-" + version.value else "")
  {
    if version.Some? && |version.value| > 0 then exeName + "-" + version.value else exeName
  }

  /** The unit test's expectation without a version, and the suffix with one. */
  lemma VersionedNameExamples()
    ensures VersionedExecutableName("native-exe-loader", None) == "native-exe-loader"
    ensures VersionedExecutableName("native-exe-loader", Some("")) == "native-exe-loader"
    ensures VersionedExecutableName("native-exe-loader", Some("1.2.0")) == "native-exe-loader-1.2.0"
  {
  }

  /** The archive layout `xxx[-vvv][.exe]`: the version comes before the Windows extension. */
  lemma ArchiveFileNameLayout(exeName: string, version: string, a: Architecture)
    requires version != "" && a != Architecture.UNKNOWN && a != OSX_PPC
    ensures ExecutableFileName(VersionedExecutableName(exeName, Some(version)), a)
      == Some(exeName + "-" + version + (if IsWindows(a) then ".exe" else ""))
  {
    var v := VersionedExecutableName(exeName, Some(version));
    if IsWindows(a) {
      var r := ExecutableFileName(v, a).value;
      assert r == r[..|v|] + r[|v|..] == v + ".exe";
    } else {
      assert v + "" == v;
    }
  }

  // ---------------------------------------------------------------------------
  // The search

  /** What the extractor reports for one directory: a file extracted to this absolute path, nothing, or an IOException. */
  datatype Extraction = Found(file: string) | NotFound | IOFailure

  /** One question put to the extractor. */
  datatype Query = Query(directory: string, name: string)

  /** What a search did: its result, the questions it asked in order, and the file it handed to `System.load`, if any. */
  datatype Outcome = Outcome(success: bool, queries: seq<Query>, loadedFile: Option<string>)

  /** `List.add(index, element)`: the element goes in at `index` and those from there on move one place right. */
  function Insert(list: seq<string>, index: nat, element: string): (r: seq<string>)
    requires index <= |list|
    ensures |r| == |list| + 1 && r[index] == element
    ensures forall k :: 0 <= k < index ==> r[k] == list[k]
    ensures forall k :: index < k < |r| ==> r[k] == list[k - 1]
  {
    list[..index] + [element] + list[index..]
  }

  /** The candidate search paths in order: the three built-in ones, then the caller's; a null array adds none. */
  function Candidates(searchPaths: Option<seq<string>>): seq<string> {
    [DEFAULT_SEARCH_PATH, "", META_INF_LIB] + (if searchPaths.None? then [] else searchPaths.value)
  }

  /** The three `add(index, element)` calls put the built-in paths first, in order, ahead of the caller's. */
  lemma {:induction false} BuiltInPathsComeFirst(searchPaths: Option<seq<string>>)
    ensures var extra := if searchPaths.None? then [] else searchPaths.value;
      Insert(Insert(Insert(extra, 0, DEFAULT_SEARCH_PATH), 1, ""), 2, META_INF_LIB) == Candidates(searchPaths)
  {
    var extra := if searchPaths.None? then [] else searchPaths.value;
    var l1 := Insert(extra, 0, DEFAULT_SEARCH_PATH);
    var l2 := Insert(l1, 1, "");
    var l3 := Insert(l2, 2, META_INF_LIB);
    assert l3 == [DEFAULT_SEARCH_PATH, "", META_INF_LIB] + extra;
  }

  /** The platform directory of each candidate search path. */
  function Directories(paths: seq<string>, archStr: string): (dirs: seq<string>)
    ensures |dirs| == |paths|
    ensures forall k :: 0 <= k < |paths| ==> dirs[k] == PlatformDirectory(paths[k], archStr)
  {
    seq(|paths|, k requires 0 <= k < |paths| => PlatformDirectory(paths[k], archStr))
  }

  /**
   * The search loop over given directories: ask the extractor for `exeName`
   * in each, move on only when it finds nothing, load the first file it
   * extracts, and give up on the first IOException.
   */
  function Search(extract: (string, string) -> Extraction, load: string -> bool,
                  dirs: seq<string>, exeName: string): Outcome
    decreases |dirs|
  {
    if dirs == [] then Outcome(false, [], None)
    else
      var q := Query(dirs[0], exeName);
      match extract(dirs[0], exeName)
      case Found(f) => Outcome(load(f), [q], Some(f))
      case IOFailure => Outcome(false, [q], None)
      case NotFound =>
        var rest := Search(extract, load, dirs[1..], exeName);
        Outcome(rest.success, [q] + rest.queries, rest.loadedFile)
  }

  /** The extractor found nothing in any of the first `k` directories. */
  ghost predicate MissesBefore(extract: (string, string) -> Extraction, dirs: seq<string>, exeName: string, k: nat)
    requires k <= |dirs|
  {
    forall j :: 0 <= j < k ==> extract(dirs[j], exeName).NotFound?
  }

  lemma MissesExtend(extract: (string, string) -> Extraction, dirs: seq<string>, exeName: string, k: nat)
    requires k < |dirs| && MissesBefore(extract, dirs, exeName, k)
    requires extract(dirs[k], exeName).NotFound?
    ensures MissesBefore(extract, dirs, exeName, k + 1)
  {
  }

  /** `queries` asked for `exeName` in the first `k` directories, in order. */
  ghost predicate Asked(queries: seq<Query>, dirs: seq<string>, exeName: string, k: nat) {
    k <= |dirs| && |queries| == k && forall j :: 0 <= j < k ==> queries[j] == Query(dirs[j], exeName)
  }

  lemma AskedNext(queries: seq<Query>, dirs: seq<string>, exeName: string, k: nat)
    requires k < |dirs| && Asked(queries, dirs, exeName, k)
    ensures Asked(queries + [Query(dirs[k], exeName)], dirs, exeName, k + 1)
  {
  }

  /**
   * The first directory where the extractor finds a file or fails decides the
   * search: the directories up to it are queried in order, none after it, and
   * the call succeeds exactly when it found a file that loads.
   */
  lemma {:induction false} FirstAnswerDecides(extract: (string, string) -> Extraction, load: string -> bool,
                                               dirs: seq<string>, exeName: string, k: nat)
    requires k < |dirs| && MissesBefore(extract, dirs, exeName, k)
    requires !extract(dirs[k], exeName).NotFound?
    ensures var o := Search(extract, load, dirs, exeName);
      var e := extract(dirs[k], exeName);
      && |o.queries| == k + 1
      && (forall j :: 0 <= j <= k ==> o.queries[j] == Query(dirs[j], exeName))
      && o.success == (e.Found? && load(e.file))
      && o.loadedFile == (if e.Found? then Some(e.file) else None)
    decreases k
  {
    if k > 0 {
      assert extract(dirs[0], exeName).NotFound?;
      var rest := dirs[1..];
      assert MissesBefore(extract, rest, exeName, k - 1) by {
        forall j | 0 <= j < k - 1 ensures extract(rest[j], exeName).NotFound? {
          assert rest[j] == dirs[j + 1];
        }
      }
      FirstAnswerDecides(extract, load, rest, exeName, k - 1);
    }
  }

  /** When the extractor finds nothing anywhere, every directory is queried in order and the search fails without loading. */
  lemma {:induction false} AllMissesFail(extract: (string, string) -> Extraction, load: string -> bool,
                                          dirs: seq<string>, exeName: string)
    requires MissesBefore(extract, dirs, exeName, |dirs|)
    ensures var o := Search(extract, load, dirs, exeName);
      && !o.success && o.loadedFile.None?
      && |o.queries| == |dirs|
      && (forall j :: 0 <= j < |dirs| ==> o.queries[j] == Query(dirs[j], exeName))
    decreases |dirs|
  {
    if dirs != [] {
      var rest := dirs[1..];
      assert MissesBefore(extract, rest, exeName, |rest|) by {
        forall j | 0 <= j < |rest| ensures extract(rest[j], exeName).NotFound? {
          assert rest[j] == dirs[j + 1];
        }
      }
      AllMissesFail(extract, load, rest, exeName);
    }
  }

  /** A trace that asked about the first `k + 1` directories in order is the trace of a search decided at `k`. */
  lemma DecidedTrace(extract: (string, string) -> Extraction, load: string -> bool,
                     dirs: seq<string>, exeName: string, k: nat, queries: seq<Query>)
    requires k < |dirs| && MissesBefore(extract, dirs, exeName, k)
    requires !extract(dirs[k], exeName).NotFound?
    requires Asked(queries, dirs, exeName, k + 1)
    ensures var o := Search(extract, load, dirs, exeName);
      var e := extract(dirs[k], exeName);
      queries == o.queries && o.success == (e.Found? && load(e.file))
      && o.loadedFile == (if e.Found? then Some(e.file) else None)
  {
    FirstAnswerDecides(extract, load, dirs, exeName, k);
  }

  /** A trace that asked about every directory in order is the trace of a search that found nothing. */
  lemma ExhaustedTrace(extract: (string, string) -> Extraction, load: string -> bool,
                       dirs: seq<string>, exeName: string, queries: seq<Query>)
    requires MissesBefore(extract, dirs, exeName, |dirs|)
    requires Asked(queries, dirs, exeName, |dirs|)
    ensures var o := Search(extract, load, dirs, exeName);
      queries == o.queries && !o.success && o.loadedFile.None?
  {
    AllMissesFail(extract, load, dirs, exeName);
  }

  /** A file found in the second of three directories is loaded, and the third is never queried. */
  lemma SecondHitSkipsThird(extract: (string, string) -> Extraction, load: string -> bool,
                            d1: string, d2: string, d3: string, exeName: string)
    requires extract(d1, exeName).NotFound? && extract(d2, exeName).Found?
    ensures var o := Search(extract, load, [d1, d2, d3], exeName);
      && o.queries == [Query(d1, exeName), Query(d2, exeName)]
      && o.success == load(extract(d2, exeName).file)
  {
    FirstAnswerDecides(extract, load, [d1, d2, d3], exeName, 1);
  }

  /** An IOException on the first directory ends the search with failure even when the second holds the file. */
  lemma IOFailureEndsSearch(extract: (string, string) -> Extraction, load: string -> bool,
                            d1: string, d2: string, exeName: string)
    requires extract(d1, exeName).IOFailure? && extract(d2, exeName).Found?
    ensures var o := Search(extract, load, [d1, d2], exeName);
      !o.success && o.queries == [Query(d1, exeName)] && o.loadedFile.None?
  {
    FirstAnswerDecides(extract, load, [d1, d2], exeName, 0);
  }

  /** A file that fails to link ends the search: the next directory is not tried. */
  lemma LinkFailureEndsSearch(extract: (string, string) -> Extraction, load: string -> bool,
                              d1: string, d2: string, exeName: string)
    requires extract(d1, exeName).Found? && !load(extract(d1, exeName).file)
    ensures var o := Search(extract, load, [d1, d2], exeName);
      !o.success && o.queries == [Query(d1, exeName)]
  {
    FirstAnswerDecides(extract, load, [d1, d2], exeName, 0);
  }

  // ---------------------------------------------------------------------------
  // The class's static state and its operations

  /**
   * The static fields of NativeExecutableUtil, one object per process:
   * `architecture` (UNKNOWN until a call classifies the host) and `archStr`
   * (null until the first `getPlatformExecutablePath`).
   */
  class NativeExecutableUtil {
    var architecture: Architecture
    var archStr: Option<string>

    constructor()
      ensures architecture == Architecture.UNKNOWN && archStr.None?
    {
      architecture := Architecture.UNKNOWN;
      archStr := None;
    }

    /**
     * `getArchitecture`: while the cached value is UNKNOWN, classify the host
     * from `os.name` and `os.arch` and store the result; once it is a known
     * platform, return it whatever the environment now says.
     */
    method GetArchitecture(osName: string, osArch: string) returns (a: Architecture)
      modifies this`architecture
      ensures a == architecture
      ensures old(architecture) != Architecture.UNKNOWN ==> a == old(architecture)
      ensures old(architecture) == Architecture.UNKNOWN ==> a == Classify(osName, osArch)
    {
      if architecture == Architecture.UNKNOWN {
        var processor := ProcessorOf(osArch);
        if processor != Processor.UNKNOWN {
          var name := Lower(osName);
          if Contains(name, "nix") || Contains(name, "nux") {
            if processor == Processor.INTEL_32 {
              architecture := LINUX_32;
            } else if processor == Processor.INTEL_64 {
              architecture := LINUX_64;
            } else if processor == Processor.ARM {
              architecture := LINUX_ARM;
            } else if processor == Processor.AARCH_64 {
              architecture := LINUX_ARM64;
            }
          } else if Contains(name, "aix") {
            if processor == Processor.PPC {
              architecture := AIX_32;
            } else if processor == Processor.PPC_64 {
              architecture := AIX_64;
            }
          } else if Contains(name, "win") {
            if processor == Processor.INTEL_32 {
              architecture := WINDOWS_32;
            } else if processor == Processor.INTEL_64 {
              architecture := WINDOWS_64;
            }
          } else if Contains(name, "mac") {
            if processor == Processor.INTEL_32 {
              architecture := OSX_32;
            } else if processor == Processor.INTEL_64 {
              architecture := OSX_64;
            } else if processor == Processor.AARCH_64 {
              architecture := OSX_ARM64;
            } else if processor == Processor.PPC {
              architecture := OSX_PPC;
            }
          }
        }
      }
      a := architecture;
    }

    /**
     * `getPlatformExecutablePath`: on the first call fix `archStr` to the
     * lower-cased name of the architecture, then build the platform
     * directory under `searchPath`.
     */
    method GetPlatformExecutablePath(searchPath: string, osName: string, osArch: string) returns (path: string)
      modifies this
      ensures old(archStr).Some? ==> archStr == old(archStr) && architecture == old(architecture)
      ensures old(archStr).None? && old(architecture) != Architecture.UNKNOWN ==> architecture == old(architecture)
      ensures old(archStr).None? && old(architecture) == Architecture.UNKNOWN ==> architecture == Classify(osName, osArch)
      ensures old(archStr).None? ==> archStr == Some(DirectoryName(architecture))
      ensures archStr.Some? && path == PlatformDirectory(searchPath, archStr.value)
    {
      if archStr.None? {
        var a := GetArchitecture(osName, osArch);
        archStr := Some(Lower(a.Name()));
      }
      path := (if searchPath == "" || EndsWith(searchPath, DELIM) then searchPath else searchPath + DELIM)
        + archStr.value + DELIM;
    }

    /** `getPlatformExecutableName`: classify (or recall) the host, then apply the file-name rule. */
    method GetPlatformExecutableName(exeName: string, osName: string, osArch: string) returns (name: Option<string>)
      modifies this`architecture
      ensures architecture == Recall(old(architecture), osName, osArch)
      ensures name == ExecutableFileName(exeName, architecture)
    {
      var a := GetArchitecture(osName, osArch);
      match a
      case AIX_32 | AIX_64 | LINUX_32 | LINUX_64 | LINUX_ARM | LINUX_ARM64 | OSX_32 | OSX_64 | OSX_ARM64 =>
        name := Some(exeName);
      case WINDOWS_32 | WINDOWS_64 =>
        name := Some(exeName + ".exe");
      case _ =>
        name := None;
    }

    /**
     * `loadNativeExecutable(JniExtractor, exeName, searchPaths...)`. On an
     * UNKNOWN host nothing is queried. Otherwise the candidate list is built
     * and searched in order as `Search` describes; `queries` is the trace of
     * questions put to the extractor, and `loaded` the file handed to
     * `System.load`, if any.
     */
    method LoadNativeExecutable(extract: (string, string) -> Extraction, load: string -> bool,
                                exeName: string, searchPaths: Option<seq<string>>,
                                osName: string, osArch: string)
      returns (success: bool, ghost queries: seq<Query>, ghost loaded: Option<string>)
      modifies this
      ensures architecture == Recall(old(architecture), osName, osArch)
      ensures architecture == Architecture.UNKNOWN ==> !success && queries == [] && loaded.None? && archStr == old(archStr)
      ensures architecture != Architecture.UNKNOWN ==>
        && archStr == Some(if old(archStr).Some? then old(archStr).value else DirectoryName(architecture))
        && var o := Search(extract, load, Directories(Candidates(searchPaths), archStr.value), exeName);
           success == o.success && queries == o.queries && loaded == o.loadedFile
    {
      var arch := GetArchitecture(osName, osArch);
      queries, loaded := [], None;
      if arch == Architecture.UNKNOWN {
        // the source only logs "No native executable available for this platform."
        return false, queries, loaded;
      }
      var exePaths := if searchPaths.None? then [] else searchPaths.value;
      exePaths := Insert(exePaths, 0, DEFAULT_SEARCH_PATH);
      exePaths := Insert(exePaths, 1, "");
      exePaths := Insert(exePaths, 2, META_INF_LIB);
      BuiltInPathsComeFirst(searchPaths);
      success, queries, loaded := SearchCandidates(extract, load, exeName, exePaths, osName, osArch);
    }

    /**
     * The for-each loop of `loadNativeExecutable` over the candidate search
     * paths, entered once the host is known: each path becomes a platform
     * directory and is put to the extractor; the first file found is loaded,
     * and an IOException ends the loop.
     */
    method SearchCandidates(extract: (string, string) -> Extraction, load: string -> bool,
                            exeName: string, exePaths: seq<string>, osName: string, osArch: string)
      returns (success: bool, ghost queries: seq<Query>, ghost loaded: Option<string>)
      requires architecture != Architecture.UNKNOWN && exePaths != []
      modifies this
      ensures architecture == old(architecture)
      ensures archStr == Some(if old(archStr).Some? then old(archStr).value else DirectoryName(architecture))
      ensures var o := Search(extract, load, Directories(exePaths, archStr.value), exeName);
        success == o.success && queries == o.queries && loaded == o.loadedFile
    {
      ghost var s := if archStr.Some? then archStr.value else DirectoryName(architecture);
      ghost var dirs := Directories(exePaths, s);
      queries, loaded := [], None;
      var i := 0;
      while i < |exePaths|
        invariant 0 <= i <= |exePaths|
        invariant architecture == old(architecture)
        invariant i == 0 ==> archStr == old(archStr)
        invariant i > 0 ==> archStr == Some(s)
        invariant MissesBefore(extract, dirs, exeName, i)
        invariant Asked(queries, dirs, exeName, i)
      {
        var dir := GetPlatformExecutablePath(exePaths[i], osName, osArch);
        assert archStr == Some(s) && dir == dirs[i];
        AskedNext(queries, dirs, exeName, i);
        queries := queries + [Query(dir, exeName)];
        var extracted := extract(dir, exeName);
        match extracted
        case Found(f) =>
          // System.load; an UnsatisfiedLinkError is caught and the call returns false
          DecidedTrace(extract, load, dirs, exeName, i, queries);
          assert Directories(exePaths, archStr.value) == dirs;
          loaded := Some(f);
          success := load(f);
          return;
        case IOFailure =>
          // the try block encloses the loop: an IOException ends the whole call
          DecidedTrace(extract, load, dirs, exeName, i, queries);
          assert Directories(exePaths, archStr.value) == dirs;
          success := false;
          return;
        case NotFound =>
          MissesExtend(extract, dirs, exeName, i);
          i := i + 1;
      }
      ExhaustedTrace(extract, load, dirs, exeName, queries);
      assert Directories(exePaths, archStr.value) == dirs;
      success := false;
    }

    /**
     * `loadVersionedNativeExecutable`: append the jar's version to the name,
     * then load with the given extractor and no extra search paths.
     */
    method LoadVersionedNativeExecutable(extract: (string, string) -> Extraction, load: string -> bool,
                                         exeName: string, version: Option<string>,
                                         osName: string, osArch: string)
      returns (success: bool, ghost queries: seq<Query>, ghost loaded: Option<string>)
      modifies this
      ensures architecture == Recall(old(architecture), osName, osArch)
      ensures architecture == Architecture.UNKNOWN ==> !success && queries == [] && loaded.None? && archStr == old(archStr)
      ensures architecture != Architecture.UNKNOWN ==>
        && archStr == Some(if old(archStr).Some? then old(archStr).value else DirectoryName(architecture))
        && var o := Search(extract, load, Directories(Candidates(Some([])), archStr.value),
                           VersionedExecutableName(exeName, version));
           success == o.success && queries == o.queries && loaded == o.loadedFile
    {
      var name := VersionedExecutableName(exeName, version);
      success, queries, loaded := LoadNativeExecutable(extract, load, name, Some([]), osName, osArch);
    }
  }
}

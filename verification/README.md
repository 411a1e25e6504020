# native-exe-loader, modelled in Dafny

native-exe-loader unpacks a platform-specific executable from a jar and loads
it. The jar holds one directory per platform (`natives/linux_64/`,
`natives/windows_32/`, ...). Each directory holds the executable as
`xxx[-vvv]`, with `.exe` appended on Windows.

The loader works in three steps:

- It classifies the host from the system properties `os.name` and `os.arch`.
  - `os.arch` is mapped to a processor by ordered substring tests: "arm", "aarch64", "ppc", then "86"/"amd", with "64" choosing the wide variant.
  - The processor and an os family (from "nix"/"nux", "aix", "win", "mac", in that order) select one of 13 architectures from a table.
  - The result is memoised in a static field.
- It builds directory and file names from that architecture.
  - A directory is a search path, plus "/" unless the path is empty or already ends with one, plus the lower-cased architecture name (fixed on first use), plus "/".
  - A file name is the executable name, with ".exe" on Windows and none at all for UNKNOWN and OSX_PPC.
  - The name may carry a "-version" suffix.
- It searches the candidate directories `natives/`, `""` and `META-INF/lib`, followed by the caller's own paths.
  - In each directory it asks an extractor for the executable.
  - It loads the first file extracted.

Modules:

- `Wrappers`: `Option`, which stands in for a Java reference that may be null.
- `Strings`: `contains`, `endsWith` and an ASCII `toLowerCase` over `seq<char>`.
- `Platform`:
  - the `Processor` and `Architecture` enums;
  - the pure classifier `ProcessorOf`/`FamilyOf`/`Entry`/`Classify`;
  - `Recall` and `Replay`, which give the memo's meaning over successive calls;
  - `DirectoryName`.
- `NativeExe`:
  - the path and name rules as functions, with the lemmas about them;
  - the search as the function `Search`, with its lemmas;
  - the class `NativeExecutableUtil`. Its fields are the two static memo fields `architecture` and `archStr`. Its methods are the static methods of the Java class, written as imperative code (if-chains, the `List.add` calls, the `for` loop with early return) and proved against the functions.
- `PlatformUtil`: the class `PlatformUtil`, the second copy of the classifier. Its static memo is the object `PlatformStatics`, which each `PlatformUtil` instance is given when it is built; the client methods here give all instances the same one. This module also proves that the two classifiers agree.

The environment is never read. `os.name`, `os.arch` and the jar's implementation version are parameters. The extractor is a function from (directory, executable name) to `Found(file) | NotFound | IOFailure`. `System.load` is a function from the file to `true` (linked) or `false` (UnsatisfiedLinkError). A search returns, besides its boolean, a ghost trace of the `(directory, name)` questions it put to the extractor, in order.

Three points where the code's behaviour differs from what a reader of the design might expect; the model follows the code:

- The `try` block encloses the whole loop, so an `IOException` on any candidate ends the call with `false`; the remaining candidates are not tried.
- The extractor is asked for the bare executable name, not for the `getPlatformExecutableName` of it (no ".exe" is added on Windows).
- Only UNKNOWN is rejected before the search, so OSX_PPC, which has no file name, is still searched.

## Model

| member | source | states |
|---|---|---|
| Strings.Lower | src/main/java/nativeExeLoader/NativeExecutableUtil.java:147 | `toLowerCase` on ASCII: same length, each character folded, and no upper-case letter left |
| Platform.ProcessorOf | src/main/java/nativeExeLoader/NativeExecutableUtil.java:142-171 | first match wins: ARM exactly when "arm" occurs; AARCH_64 exactly when "aarch64" occurs without "arm"; ppc exactly when "ppc" occurs and neither earlier test matched; intel exactly when "86" or "amd" occurs and no earlier test matched; for ppc and intel the wide variant exactly when "64" occurs; UNKNOWN exactly when no test matches |
| Platform.FamilyOf | src/main/java/nativeExeLoader/NativeExecutableUtil.java:85-129 | the os-family row is chosen by the first of "nix"/"nux", "aix", "win", "mac" that occurs in the lower-cased name, and by that one alone, even when its row has no cell for the processor |
| Platform.TableCellsAreUnique | src/main/java/nativeExeLoader/NativeExecutableUtil.java:86-129 | the (family, processor) table and its inverse `Cell` agree: every supported platform comes from exactly one cell |
| Platform.Classify | src/main/java/nativeExeLoader/NativeExecutableUtil.java:82-130 | UNKNOWN when the processor is UNKNOWN or no family matches; for every supported platform b, the result is b exactly when b's table cell is the detected (family, processor) pair, so each of the 12 cells yields its platform and nothing else does |
| Platform.ReplayIsSticky | src/main/java/nativeExeLoader/NativeExecutableUtil.java:82-134 | over any sequence of calls with changing environments, once a call returns a supported platform every later call returns that same platform |
| Platform.ReplayFromKnown | src/main/java/nativeExeLoader/NativeExecutableUtil.java:82-134 | a supported cached value is returned by every call, whatever `os.name` and `os.arch` say |
| Platform.ReplayIsSound | src/main/java/nativeExeLoader/NativeExecutableUtil.java:82-134 | starting from UNKNOWN, every returned value is UNKNOWN or the classification of an environment seen at or before that call |
| Platform.KnownProcessors | src/main/java/nativeExeLoader/NativeExecutableUtil.java:149-167 | common `os.arch` values: amd64 and x86_64 are INTEL_64, x86 is INTEL_32, aarch64 is AARCH_64, arm is ARM, ppc is PPC, ppc64le is PPC_64, s390x is UNKNOWN |
| Platform.KnownFamilies | src/main/java/nativeExeLoader/NativeExecutableUtil.java:85-128 | Linux, AIX, "Windows 10" and "Mac OS X" select their rows, and FreeBSD selects none |
| Platform.KnownHosts | src/main/java/nativeExeLoader/NativeExecutableUtil.java:82-130 | concrete hosts map to LINUX_64, LINUX_ARM64, WINDOWS_32, OSX_ARM64, OSX_PPC and AIX_64. Linux on ppc64le, Windows on aarch64, AIX on amd64, Linux on s390x and FreeBSD are UNKNOWN, with no error |
| NativeExe.DirectoryNames | src/main/java/nativeExeLoader/NativeExecutableUtil.java:185 | the directory of each platform is its lower-cased enum name (linux_32, ..., aix_64), as in the archive layout |
| NativeExe.DirectoryNameHasNoDelimiter | src/main/java/nativeExeLoader/NativeExecutableUtil.java:185 | no directory name contains "/" |
| NativeExe.DirectoryNameIsInjective | src/main/java/nativeExeLoader/NativeExecutableUtil.java:185 | different platforms have different directory names |
| NativeExe.PlatformDirectoryShape | src/main/java/nativeExeLoader/NativeExecutableUtil.java:188-189 | the directory starts with the search path and ends with the platform name and "/". What precedes the name is the search path itself exactly when the path is empty or ends with "/", and otherwise the path plus one "/". That part is empty or ends with "/" |
| NativeExe.PlatformDirectoryExamples | src/main/java/nativeExeLoader/NativeExecutableUtil.java:188-189 | "foo" on LINUX_32 gives "foo/linux_32/"; "" gives "linux_32/" |
| NativeExe.BuiltInDirectoryExamples | src/main/java/nativeExeLoader/NativeExecutableUtil.java:305-308 | the built-in paths give "natives/windows_64/" and "META-INF/lib/osx_arm64/" (the slash is added to the second only) |
| NativeExe.TrailingDelimiterIsOptional | src/main/java/nativeExeLoader/NativeExecutableUtil.java:188-189 | a search path with or without its trailing "/" names the same directory |
| NativeExe.DirectoryRecordsPlatform | src/main/java/nativeExeLoader/NativeExecutableUtil.java:184-189 | the last name in a platform directory is the platform's directory name (the name is recovered from the path) |
| NativeExe.DistinctPlatformsDistinctDirectories | src/main/java/nativeExeLoader/NativeExecutableUtil.java:184-189 | under one search path, different platforms get different directories |
| NativeExe.ExecutableFileName | src/main/java/nativeExeLoader/NativeExecutableUtil.java:200-222 | null exactly for UNKNOWN and OSX_PPC; otherwise the name is a prefix; on Windows ".exe" follows it and elsewhere nothing does |
| NativeExe.FileNameRoundTrip | src/main/java/nativeExeLoader/NativeExecutableUtil.java:212-216 | the executable name is recovered from every platform file name |
| NativeExe.VersionedExecutableName | src/main/java/nativeExeLoader/NativeExecutableUtil.java:261-266 | the name is kept as a prefix and followed by "-" and the version exactly when the version is non-null and non-empty, by nothing otherwise |
| NativeExe.VersionedNameExamples | src/test/java/nativeExeLoader/NativeExecutableUtilTest.java:12-17 | the test's case: with no version "native-exe-loader" comes back unchanged (also for an empty version); the "1.2.0" case, giving "native-exe-loader-1.2.0", is an illustration beyond the test |
| NativeExe.ArchiveFileNameLayout | src/main/java/nativeExeLoader/NativeExecutableUtil.java:261-266 | composing the version and platform rules yields the archive layout `xxx-vvv[.exe]`, the version before the extension |
| NativeExe.Insert | src/main/java/nativeExeLoader/NativeExecutableUtil.java:305-308 | `List.add(index, e)`: `e` at `index`, the elements before it in place, those after it shifted one right |
| NativeExe.BuiltInPathsComeFirst | src/main/java/nativeExeLoader/NativeExecutableUtil.java:302-308 | the three `add` calls give `natives/`, `""`, `META-INF/lib`, then the caller's paths in order; a null array adds none |
| NativeExe.FirstAnswerDecides | src/main/java/nativeExeLoader/NativeExecutableUtil.java:316-322 | if the extractor finds nothing before directory k and answers at k, the search asks about exactly directories 0..k, in order. It succeeds exactly when k held a file and that file links, and loads only that file |
| NativeExe.AllMissesFail | src/main/java/nativeExeLoader/NativeExecutableUtil.java:316-331 | when no directory yields a file, every directory is asked in order, nothing is loaded and the result is false |
| NativeExe.SecondHitSkipsThird | src/main/java/nativeExeLoader/NativeExecutableUtil.java:316-322 | a file found in the second directory is loaded and the third directory is never asked |
| NativeExe.IOFailureEndsSearch | src/main/java/nativeExeLoader/NativeExecutableUtil.java:301-329 | an IOException on the first directory ends the call with false, even when the next directory holds the file |
| NativeExe.LinkFailureEndsSearch | src/main/java/nativeExeLoader/NativeExecutableUtil.java:319-326 | a file that fails to link ends the call with false; the next directory is not asked |
| NativeExe.NativeExecutableUtil.constructor | src/main/java/nativeExeLoader/NativeExecutableUtil.java:71-72 | the static fields start as UNKNOWN and null |
| NativeExe.NativeExecutableUtil.GetArchitecture | src/main/java/nativeExeLoader/NativeExecutableUtil.java:81-135 | a cached supported platform is returned unchanged; while the cache is UNKNOWN the host is classified and the result stored and returned |
| NativeExe.NativeExecutableUtil.GetPlatformExecutablePath | src/main/java/nativeExeLoader/NativeExecutableUtil.java:183-192 | `archStr` is fixed on the first call to the directory name of the architecture then classified (or recalled) and never changed after; the result is the platform directory of the search path under `archStr` |
| NativeExe.NativeExecutableUtil.GetPlatformExecutableName | src/main/java/nativeExeLoader/NativeExecutableUtil.java:200-223 | the architecture is classified or recalled as by `getArchitecture`, and the name is the file-name rule for it |
| NativeExe.NativeExecutableUtil.LoadNativeExecutable | src/main/java/nativeExeLoader/NativeExecutableUtil.java:294-332 | on UNKNOWN: false, the extractor never asked, nothing loaded, `archStr` untouched. Otherwise `archStr` is fixed, and the result, the trace and the one file handed to `System.load` are those of the search over the platform directories of the candidate list |
| NativeExe.NativeExecutableUtil.SearchCandidates | src/main/java/nativeExeLoader/NativeExecutableUtil.java:316-323 | the `for` loop over the candidates computes exactly the result, the trace and the loaded file of `Search` over their platform directories, fixing `archStr` on the first pass |
| NativeExe.NativeExecutableUtil.LoadVersionedNativeExecutable | src/main/java/nativeExeLoader/NativeExecutableUtil.java:277-284 | the name is first made versioned; then, as `loadNativeExecutable` with no extra paths, UNKNOWN gives false with no question asked and nothing loaded, and otherwise the result, trace and loaded file are those of the search for the versioned name over the three built-in directories |
| PlatformUtil.GetProcessor | src/main/java/nativeExeLoader/PlatformUtil.java:97-127 | the second copy of `getProcessor` agrees with the first on every `os.arch` |
| PlatformUtil.PlatformStatics.constructor | src/main/java/nativeExeLoader/PlatformUtil.java:29 | the static memo starts as UNKNOWN |
| PlatformUtil.PlatformUtil.constructor | src/main/java/nativeExeLoader/PlatformUtil.java:15-29 | an instance holds no state of its own, only the shared static field |
| PlatformUtil.PlatformUtil.GetArchitecture | src/main/java/nativeExeLoader/PlatformUtil.java:36-90 | a cached supported platform is returned unchanged; while the shared cache is UNKNOWN the host is classified, and the result stored and returned |
| PlatformUtil.SharedMemo | src/main/java/nativeExeLoader/PlatformUtil.java:29-89 | two instances share the memo: once the first has returned a supported platform the second returns it too, under any environment |
| PlatformUtil.ClassifiersAgree | src/main/java/nativeExeLoader/PlatformUtil.java:36-127 | from a fresh process (both memos UNKNOWN), for equal `os.name` and `os.arch`, `PlatformUtil.getArchitecture` and `NativeExecutableUtil.getArchitecture` return the same value, namely `Classify` of them |
| PlatformUtil.MemosAgree | src/main/java/nativeExeLoader/PlatformUtil.java:36-90 | whenever the two memos hold the same value, the two `getArchitecture` calls return the same value: the cached platform if supported, else `Classify` of the inputs |

## Left out

- Reading `os.name`, `os.arch` and the jar manifest's implementation version: these are parameters. The version is an `Option<string>`, with `None` standing for null.
- `toLowerCase` is locale-sensitive in Java. The model folds ASCII letters only, so the Turkish dotted/dotless i and other non-ASCII case mappings are not modelled.
- SLF4J logging: it has no effect on results.
- `JniExtractor.extractJni` and `DefaultJniExtractor` belong to the scijava library, which is not part of this model. Extraction is a pure function of (directory, name), so an extractor whose answer changes between calls, or which has side effects, is not modelled.
- `loadNativeExecutable(Class, exeName)` is not modelled: it creates a `DefaultJniExtractor` and returns false when that constructor throws `IOException`. `LoadVersionedNativeExecutable` takes the extractor as a parameter and searches with an empty array of extra paths, as that wrapper does.
- `System.load` and dynamic linking: a function from the file to linked or `UnsatisfiedLinkError`. Loading the same library twice, and JVM-wide library state, are not modelled.
- Thread races on the unsynchronised static fields: every call runs alone.
- The uniqueness of `PlatformUtil`'s static field: Dafny has no mutable statics, so the field is a `PlatformStatics` object passed to each instance's constructor. The model does not prevent building instances over two different such objects. `SharedMemo` and the other client methods use one.
- A null `searchPath` in `getPlatformExecutablePath`: the documentation promises the default path, but the code dereferences it and throws. The model takes a non-null string.
- `searchPaths` given as an array containing null elements: each element is a `string`, so null elements are not modelled.
- `File.getAbsolutePath`: the extracted file is identified by a string already.

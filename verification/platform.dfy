/**
 * Host classification of native-exe-loader: the `Processor` and `Architecture`
 * enums, the first-match chain that reads `os.arch`, and the (os family,
 * processor) table that turns it and `os.name` into an architecture.
 *
 * The environment is not read here: `os.name` and `os.arch` are parameters.
 */
module Platform {
  import opened Strings

  /** The processor families `getProcessor` can report. */
  datatype Processor = UNKNOWN | INTEL_32 | INTEL_64 | PPC | PPC_64 | ARM | AARCH_64
  {
    predicate IsPpc() { this == PPC || this == PPC_64 }
    predicate IsIntel() { this == INTEL_32 || this == INTEL_64 }
    predicate IsWide() { this == PPC_64 || this == INTEL_64 }
  }

  /** The platforms `getArchitecture` can report; UNKNOWN means "no native executable for this host". */
  datatype Architecture =
    | UNKNOWN | LINUX_32 | LINUX_64 | LINUX_ARM | LINUX_ARM64 | WINDOWS_32 | WINDOWS_64
    | OSX_32 | OSX_64 | OSX_PPC | OSX_ARM64 | AIX_32 | AIX_64
  {
    /** The enum constant's name, as Java's `Enum.name()` gives it. */
    function Name(): string {
      match this
      case UNKNOWN => "UNKNOWN"
      case LINUX_32 => "LINUX_32"
      case LINUX_64 => "LINUX_64"
      case LINUX_ARM => "LINUX_ARM"
      case LINUX_ARM64 => "LINUX_ARM64"
      case WINDOWS_32 => "WINDOWS_32"
      case WINDOWS_64 => "WINDOWS_64"
      case OSX_32 => "OSX_32"
      case OSX_64 => "OSX_64"
      case OSX_PPC => "OSX_PPC"
      case OSX_ARM64 => "OSX_ARM64"
      case AIX_32 => "AIX_32"
      case AIX_64 => "AIX_64"
    }
  }

  /** The rows of the classification table, chosen by substrings of `os.name`. */
  datatype Family = Unix | Aix | Windows | Mac | OtherOs

  /**
   * `getProcessor`: ordered substring tests on the lower-cased `os.arch`;
   * the first test that matches decides, and "64" picks the wide variant of
   * ppc and intel.
   */
  function ProcessorOf(osArch: string): (p: Processor)
    ensures var arch := Lower(osArch);
      && (Contains(arch, "arm") ==> p == Processor.ARM)
      && (p == Processor.ARM <==> Contains(arch, "arm"))
      && (p == Processor.AARCH_64 <==> !Contains(arch, "arm") && Contains(arch, "aarch64"))
      && (p.IsPpc() <==> !Contains(arch, "arm") && !Contains(arch, "aarch64") && Contains(arch, "ppc"))
      && (p.IsIntel() <==>
            !Contains(arch, "arm") && !Contains(arch, "aarch64") && !Contains(arch, "ppc")
            && (Contains(arch, "86") || Contains(arch, "amd")))
      && ((p.IsPpc() || p.IsIntel()) ==> (p.IsWide() <==> Contains(arch, "64")))
      && (p == Processor.UNKNOWN <==>
            !Contains(arch, "arm") && !Contains(arch, "aarch64") && !Contains(arch, "ppc")
            && !Contains(arch, "86") && !Contains(arch, "amd"))
  {
    var arch := Lower(osArch);
    if Contains(arch, "arm") then Processor.ARM
    else if Contains(arch, "aarch64") then Processor.AARCH_64
    else if Contains(arch, "ppc") then
      var bits := if Contains(arch, "64") then 64 else 32;
      if bits == 32 then Processor.PPC else Processor.PPC_64
    else if Contains(arch, "86") || Contains(arch, "amd") then
      var bits := if Contains(arch, "64") then 64 else 32;
      if bits == 32 then Processor.INTEL_32 else Processor.INTEL_64
    else Processor.UNKNOWN
  }

  /** The row `getArchitecture` enters: "nix"/"nux", then "aix", then "win", then "mac". */
  function FamilyOf(osName: string): (f: Family)
    ensures var name := Lower(osName);
      && (f == Unix <==> Contains(name, "nix") || Contains(name, "nux"))
      && (f == Aix <==> !Contains(name, "nix") && !Contains(name, "nux") && Contains(name, "aix"))
      && (f == Windows <==>
            !Contains(name, "nix") && !Contains(name, "nux") && !Contains(name, "aix")
            && Contains(name, "win"))
      && (f == Mac <==>
            !Contains(name, "nix") && !Contains(name, "nux") && !Contains(name, "aix")
            && !Contains(name, "win") && Contains(name, "mac"))
  {
    var name := Lower(osName);
    if Contains(name, "nix") || Contains(name, "nux") then Unix
    else if Contains(name, "aix") then Aix
    else if Contains(name, "win") then Windows
    else if Contains(name, "mac") then Mac
    else OtherOs
  }

  /** The classification table: one cell per supported platform, UNKNOWN elsewhere. */
  function Entry(f: Family, p: Processor): Architecture {
    match (f, p)
    case (Unix, INTEL_32) => LINUX_32
    case (Unix, INTEL_64) => LINUX_64
    case (Unix, ARM) => LINUX_ARM
    case (Unix, AARCH_64) => LINUX_ARM64
    case (Aix, PPC) => AIX_32
    case (Aix, PPC_64) => AIX_64
    case (Windows, INTEL_32) => WINDOWS_32
    case (Windows, INTEL_64) => WINDOWS_64
    case (Mac, INTEL_32) => OSX_32
    case (Mac, INTEL_64) => OSX_64
    case (Mac, AARCH_64) => OSX_ARM64
    case (Mac, PPC) => OSX_PPC
    case _ => Architecture.UNKNOWN
  }

  /** The table cell a supported platform comes from. */
  function Cell(a: Architecture): (Family, Processor)
    requires a != Architecture.UNKNOWN
  {
    match a
    case LINUX_32 => (Unix, INTEL_32)
    case LINUX_64 => (Unix, INTEL_64)
    case LINUX_ARM => (Unix, ARM)
    case LINUX_ARM64 => (Unix, AARCH_64)
    case AIX_32 => (Aix, PPC)
    case AIX_64 => (Aix, PPC_64)
    case WINDOWS_32 => (Windows, INTEL_32)
    case WINDOWS_64 => (Windows, INTEL_64)
    case OSX_32 => (Mac, INTEL_32)
    case OSX_64 => (Mac, INTEL_64)
    case OSX_ARM64 => (Mac, AARCH_64)
    case OSX_PPC => (Mac, PPC)
  }

  /** Every supported platform sits in exactly one cell of the table. */
  lemma TableCellsAreUnique(f: Family, p: Processor, a: Architecture)
    ensures Entry(f, p) != Architecture.UNKNOWN ==> Cell(Entry(f, p)) == (f, p)
    ensures a != Architecture.UNKNOWN ==> Entry(Cell(a).0, Cell(a).1) == a
  {
  }

  /**
   * What `getArchitecture` computes when nothing is cached: UNKNOWN for an
   * unknown processor, otherwise the cell of the first matching os family.
   */
  function Classify(osName: string, osArch: string): (a: Architecture)
    ensures ProcessorOf(osArch) == Processor.UNKNOWN ==> a == Architecture.UNKNOWN
    ensures FamilyOf(osName) == OtherOs ==> a == Architecture.UNKNOWN
    ensures a != Architecture.UNKNOWN ==> Cell(a) == (FamilyOf(osName), ProcessorOf(osArch))
    ensures forall b :: b != Architecture.UNKNOWN ==> (a == b <==> Cell(b) == (FamilyOf(osName), ProcessorOf(osArch)))
  {
    var p := ProcessorOf(osArch);
    if p == Processor.UNKNOWN then Architecture.UNKNOWN else Entry(FamilyOf(osName), p)
  }

  /** One call of `getArchitecture` given the value cached in the static field. */
  function Recall(cached: Architecture, osName: string, osArch: string): Architecture {
    if cached == Architecture.UNKNOWN then Classify(osName, osArch) else cached
  }

  /** The two system properties a call reads. */
  datatype Env = Env(osName: string, osArch: string)

  /** The values returned by successive calls of `getArchitecture`, each under its own environment. */
  function Replay(cached: Architecture, envs: seq<Env>): (r: seq<Architecture>)
    ensures |r| == |envs|
    decreases |envs|
  {
    if envs == [] then []
    else
      var a := Recall(cached, envs[0].osName, envs[0].osArch);
      [a] + Replay(a, envs[1..])
  }

  /** Once a call has returned a supported platform, every later call returns that same platform. */
  lemma {:induction false} ReplayIsSticky(cached: Architecture, envs: seq<Env>, i: nat, j: nat)
    requires i <= j < |envs|
    requires Replay(cached, envs)[i] != Architecture.UNKNOWN
    ensures Replay(cached, envs)[j] == Replay(cached, envs)[i]
    decreases |envs|
  {
    var a := Recall(cached, envs[0].osName, envs[0].osArch);
    assert Replay(cached, envs) == [a] + Replay(a, envs[1..]);
    if i == 0 {
      if j > 0 {
        ReplayFromKnown(a, envs[1..], j - 1);
      }
    } else {
      ReplayIsSticky(a, envs[1..], i - 1, j - 1);
    }
  }

  /** A supported cached value is returned by every call. */
  lemma {:induction false} ReplayFromKnown(cached: Architecture, envs: seq<Env>, k: nat)
    requires cached != Architecture.UNKNOWN && k < |envs|
    ensures Replay(cached, envs)[k] == cached
    decreases |envs|
  {
    if k > 0 {
      ReplayFromKnown(cached, envs[1..], k - 1);
    }
  }

  /** Starting from an empty cache, every value a call returns is UNKNOWN or the classification of an environment seen so far. */
  lemma {:induction false} ReplayIsSound(cached: Architecture, envs: seq<Env>, k: nat)
    requires cached == Architecture.UNKNOWN && k < |envs|
    ensures var a := Replay(cached, envs)[k];
      a == Architecture.UNKNOWN || exists j :: 0 <= j <= k && a == Classify(envs[j].osName, envs[j].osArch)
    decreases |envs|
  {
    var a := Recall(cached, envs[0].osName, envs[0].osArch);
    assert Replay(cached, envs) == [a] + Replay(a, envs[1..]);
    if k > 0 {
      if a == Architecture.UNKNOWN {
        ReplayIsSound(a, envs[1..], k - 1);
        var r := Replay(cached, envs)[k];
        if r != Architecture.UNKNOWN {
          var j :| 0 <= j <= k - 1 && r == Classify(envs[1..][j].osName, envs[1..][j].osArch);
          assert envs[1..][j] == envs[j + 1];
        }
      } else {
        ReplayFromKnown(a, envs[1..], k - 1);
        assert a == Classify(envs[0].osName, envs[0].osArch);
      }
    }
  }

  /** The `os.arch` values common JVMs report, as `getProcessor` classifies them. */
  lemma KnownProcessors()
    ensures ProcessorOf("amd64") == Processor.INTEL_64
    ensures ProcessorOf("x86_64") == Processor.INTEL_64
    ensures ProcessorOf("x86") == Processor.INTEL_32
    ensures ProcessorOf("aarch64") == Processor.AARCH_64
    ensures ProcessorOf("arm") == Processor.ARM
    ensures ProcessorOf("ppc") == Processor.PPC
    ensures ProcessorOf("ppc64le") == Processor.PPC_64
    ensures ProcessorOf("s390x") == Processor.UNKNOWN
  {
    ProcessorOfAmd64();
    ProcessorOfX86And64();
    ProcessorOfX86();
    ProcessorOfAarch64();
    ProcessorOfArm();
    ProcessorOfPpc();
    ProcessorOfPpc64le();
    ProcessorOfS390x();
  }

  /** The `os.name` values common JVMs report, as `getArchitecture` assigns them a row. */
  lemma KnownFamilies()
    ensures FamilyOf("Linux") == Unix
    ensures FamilyOf("AIX") == Aix
    ensures FamilyOf("Windows 10") == Windows
    ensures FamilyOf("Mac OS X") == Mac
    ensures FamilyOf("FreeBSD") == OtherOs
  {
    FamilyOfLinux();
    FamilyOfAix();
    FamilyOfWindows();
    FamilyOfMac();
    FamilyOfFreeBsd();
  }

  lemma ProcessorOfAmd64() ensures ProcessorOf("amd64") == Processor.INTEL_64 {
    assert Lower("amd64") == "amd64";
    MissingChar("amd64", "arm", 'r');
    MissingChar("amd64", "aarch64", 'r');
    MissingChar("amd64", "ppc", 'p');
    ContainsAt("amd64", "amd", 0);
    ContainsAt("amd64", "64", 3);
  }

  lemma ProcessorOfX86And64() ensures ProcessorOf("x86_64") == Processor.INTEL_64 {
    assert Lower("x86_64") == "x86_64";
    MissingChar("x86_64", "arm", 'r');
    MissingChar("x86_64", "aarch64", 'r');
    MissingChar("x86_64", "ppc", 'p');
    ContainsAt("x86_64", "86", 1);
    ContainsAt("x86_64", "64", 4);
  }

  lemma ProcessorOfX86() ensures ProcessorOf("x86") == Processor.INTEL_32 {
    assert Lower("x86") == "x86";
    MissingChar("x86", "arm", 'r');
    MissingChar("x86", "aarch64", 'r');
    MissingChar("x86", "ppc", 'p');
    MissingChar("x86", "64", '4');
    ContainsAt("x86", "86", 1);
  }

  /** "aarch64" has no "arm" in it, so the earlier ARM test does not capture it. */
  lemma ProcessorOfAarch64() ensures ProcessorOf("aarch64") == Processor.AARCH_64 {
    assert Lower("aarch64") == "aarch64";
    MissingChar("aarch64", "arm", 'm');
    ContainsAt("aarch64", "aarch64", 0);
  }

  lemma ProcessorOfArm() ensures ProcessorOf("arm") == Processor.ARM {
    assert Lower("arm") == "arm";
    ContainsAt("arm", "arm", 0);
  }

  lemma ProcessorOfPpc() ensures ProcessorOf("ppc") == Processor.PPC {
    assert Lower("ppc") == "ppc";
    MissingChar("ppc", "arm", 'r');
    MissingChar("ppc", "aarch64", 'r');
    MissingChar("ppc", "64", '4');
    ContainsAt("ppc", "ppc", 0);
  }

  lemma ProcessorOfPpc64le() ensures ProcessorOf("ppc64le") == Processor.PPC_64 {
    assert Lower("ppc64le") == "ppc64le";
    MissingChar("ppc64le", "arm", 'r');
    MissingChar("ppc64le", "aarch64", 'r');
    ContainsAt("ppc64le", "ppc", 0);
    ContainsAt("ppc64le", "64", 3);
  }

  lemma ProcessorOfS390x() ensures ProcessorOf("s390x") == Processor.UNKNOWN {
    assert Lower("s390x") == "s390x";
    MissingChar("s390x", "arm", 'r');
    MissingChar("s390x", "aarch64", 'r');
    MissingChar("s390x", "ppc", 'p');
    MissingChar("s390x", "86", '8');
    MissingChar("s390x", "amd", 'a');
  }

  lemma FamilyOfLinux() ensures FamilyOf("Linux") == Unix {
    assert Lower("Linux") == "linux";
    ContainsAt("linux", "nux", 2);
  }

  lemma FamilyOfAix() ensures FamilyOf("AIX") == Aix {
    assert Lower("AIX") == "aix";
    MissingChar("aix", "nix", 'n');
    MissingChar("aix", "nux", 'n');
    ContainsAt("aix", "aix", 0);
  }

  lemma FamilyOfWindows() ensures FamilyOf("Windows 10") == Windows {
    assert Lower("Windows 10") == "windows 10";
    MissingChar("windows 10", "nix", 'x');
    MissingChar("windows 10", "nux", 'u');
    MissingChar("windows 10", "aix", 'a');
    ContainsAt("windows 10", "win", 0);
  }

  lemma FamilyOfMac() ensures FamilyOf("Mac OS X") == Mac {
    assert Lower("Mac OS X") == "mac os x";
    MissingChar("mac os x", "nix", 'n');
    MissingChar("mac os x", "nux", 'n');
    MissingChar("mac os x", "aix", 'i');
    MissingChar("mac os x", "win", 'w');
    ContainsAt("mac os x", "mac", 0);
  }

  lemma FamilyOfFreeBsd() ensures FamilyOf("FreeBSD") == OtherOs {
    assert Lower("FreeBSD") == "freebsd";
    MissingChar("freebsd", "nix", 'n');
    MissingChar("freebsd", "nux", 'n');
    MissingChar("freebsd", "aix", 'a');
    MissingChar("freebsd", "win", 'w');
    MissingChar("freebsd", "mac", 'm');
  }

  /** Hosts with a platform directory, and hosts that are UNKNOWN without any error. */
  lemma KnownHosts()
    ensures Classify("Linux", "amd64") == LINUX_64
    ensures Classify("Linux", "aarch64") == LINUX_ARM64
    ensures Classify("Windows 10", "x86") == WINDOWS_32
    ensures Classify("Mac OS X", "aarch64") == OSX_ARM64
    ensures Classify("Mac OS X", "ppc") == OSX_PPC
    ensures Classify("AIX", "ppc64le") == AIX_64
    ensures Classify("Linux", "ppc64le") == Architecture.UNKNOWN
    ensures Classify("Windows 10", "aarch64") == Architecture.UNKNOWN
    ensures Classify("AIX", "amd64") == Architecture.UNKNOWN
    ensures Classify("Linux", "s390x") == Architecture.UNKNOWN
    ensures Classify("FreeBSD", "amd64") == Architecture.UNKNOWN
  {
    KnownProcessors();
    KnownFamilies();
  }

  /** The lower-cased enum name used as the platform's directory in the archive. */
  function DirectoryName(a: Architecture): string {
    Lower(a.Name())
  }
}

/**
 * `PlatformUtil`, the second copy of the host classifier. Its
 * `getProcessor` and `getArchitecture` repeat the branches of
 * `NativeExecutableUtil`; its memo is a static field, so every instance
 * reads and writes one shared value.
 */
module PlatformUtil {
  import opened Strings
  import opened Platform
  import NativeExe

  /** `PlatformUtil`'s static state: the cached architecture, UNKNOWN at class load. */
  class PlatformStatics {
    var architecture: Architecture

    constructor()
      ensures architecture == Architecture.UNKNOWN
    {
      architecture := Architecture.UNKNOWN;
    }
  }

  /**
   * `PlatformUtil.getProcessor`, written from its own branch chain; it agrees
   * with the `NativeExecutableUtil` copy on every `os.arch`.
   */
  function GetProcessor(osArch: string): (p: Processor)
    ensures p == ProcessorOf(osArch)
  {
    var arch := Lower(osArch);
    if Contains(arch, "arm") then Processor.ARM
    else if Contains(arch, "aarch64") then Processor.AARCH_64
    else if Contains(arch, "ppc") then
      var bits := if Contains(arch, "64") then 64 else 32;
      if bits == 32 then Processor.PPC else Processor.PPC_64
    else if Contains(arch, "86") || Contains(arch, "amd") then
      var bits := if Contains(arch, "64") then 64 else 32;
      if bits == 32 then Processor.INTEL_32 else Processor.INTEL_64
    else Processor.UNKNOWN
  }

  /** An instance of `PlatformUtil`: it has no state of its own, only the class's static field. */
  class PlatformUtil {
    const statics: PlatformStatics

    constructor(statics: PlatformStatics)
      ensures this.statics == statics
    {
      this.statics := statics;
    }

    /**
     * `PlatformUtil.getArchitecture`: while the shared cache is UNKNOWN,
     * classify the host and store the result in it; once it holds a known
     * platform, return that platform whatever the environment says.
     */
    method GetArchitecture(osName: string, osArch: string) returns (a: Architecture)
      modifies statics
      ensures a == statics.architecture
      ensures old(statics.architecture) != Architecture.UNKNOWN ==> a == old(statics.architecture)
      ensures old(statics.architecture) == Architecture.UNKNOWN ==> a == Classify(osName, osArch)
    {
      if statics.architecture == Architecture.UNKNOWN {
        var processor := GetProcessor(osArch);
        if processor != Processor.UNKNOWN {
          var name := Lower(osName);
          if Contains(name, "nix") || Contains(name, "nux") {
            if processor == Processor.INTEL_32 {
              statics.architecture := LINUX_32;
            } else if processor == Processor.INTEL_64 {
              statics.architecture := LINUX_64;
            } else if processor == Processor.ARM {
              statics.architecture := LINUX_ARM;
            } else if processor == Processor.AARCH_64 {
              statics.architecture := LINUX_ARM64;
            }
          } else if Contains(name, "aix") {
            if processor == Processor.PPC {
              statics.architecture := AIX_32;
            } else if processor == Processor.PPC_64 {
              statics.architecture := AIX_64;
            }
          } else if Contains(name, "win") {
            if processor == Processor.INTEL_32 {
              statics.architecture := WINDOWS_32;
            } else if processor == Processor.INTEL_64 {
              statics.architecture := WINDOWS_64;
            }
          } else if Contains(name, "mac") {
            if processor == Processor.INTEL_32 {
              statics.architecture := OSX_32;
            } else if processor == Processor.INTEL_64 {
              statics.architecture := OSX_64;
            } else if processor == Processor.AARCH_64 {
              statics.architecture := OSX_ARM64;
            } else if processor == Processor.PPC {
              statics.architecture := OSX_PPC;
            }
          }
        }
      }
      a := statics.architecture;
    }
  }

  /**
   * Two instances over the one static field: once the first has reported a
   * supported platform, the second reports the same one, even under a
   * different environment.
   */
  method SharedMemo(statics: PlatformStatics, first: Env, second: Env) returns (a1: Architecture, a2: Architecture)
    modifies statics
    ensures a1 == Recall(old(statics.architecture), first.osName, first.osArch)
    ensures a1 != Architecture.UNKNOWN ==> a2 == a1
    ensures a1 == Architecture.UNKNOWN ==> a2 == Classify(second.osName, second.osArch)
    ensures statics.architecture == a2
  {
    var u1 := new PlatformUtil(statics);
    var u2 := new PlatformUtil(statics);
    a1 := u1.GetArchitecture(first.osName, first.osArch);
    a2 := u2.GetArchitecture(second.osName, second.osArch);
  }

  /**
   * In a fresh process the two classes classify a host alike: both report
   * `Classify` of the same `os.name` and `os.arch`.
   */
  method ClassifiersAgree(osName: string, osArch: string) returns (a: Architecture, b: Architecture)
    ensures a == b
    ensures a == Classify(osName, osArch)
  {
    var loader := new NativeExe.NativeExecutableUtil();
    a := loader.GetArchitecture(osName, osArch);
    var statics := new PlatformStatics();
    var util := new PlatformUtil(statics);
    b := util.GetArchitecture(osName, osArch);
  }

  /**
   * The two classes agree whenever their memos hold the same value: both
   * return that value when it is a supported platform, and both classify the
   * host alike while it is UNKNOWN.
   */
  method MemosAgree(loader: NativeExe.NativeExecutableUtil, util: PlatformUtil, osName: string, osArch: string)
    returns (a: Architecture, b: Architecture)
    requires loader.architecture == util.statics.architecture
    modifies loader, util.statics
    ensures a == b
    ensures a == Recall(old(loader.architecture), osName, osArch)
  {
    a := loader.GetArchitecture(osName, osArch);
    b := util.GetArchitecture(osName, osArch);
  }
}

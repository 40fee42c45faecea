/**
 * Target triples: the architecture and operating-system names the builder renders,
 * the host triple it computes for the machine it was built for, the pinned nightly
 * toolchain id and the target the build is run for.
 */
module Triple {
  import opened Wrappers
  import opened Text

  datatype Arch = Arm | X86 | X86_64

  datatype Os = MacOs | Linux | Windows

  /** The name the Rust compiler's `target_arch` setting gives each architecture. */
  function ArchCfg(a: Arch): string {
    match a
    case Arm => "arm"
    case X86 => "x86"
    case X86_64 => "x86_64"
  }

  /** The name the Rust compiler's `target_os` setting gives each system. */
  function OsCfg(o: Os): string {
    match o
    case MacOs => "macos"
    case Linux => "linux"
    case Windows => "windows"
  }

  /**
   * The architecture fragment of a target triple (the `Display` impl of `Arch`): the
   * `target_arch` name, except that x86 renders as `i686`. No fragment contains the
   * `-` separator, so a triple splits uniquely.
   */
  function ArchName(a: Arch): (r: string)
    ensures a != X86 ==> r == ArchCfg(a)
    ensures a == X86 ==> r != ArchCfg(a) && r == "i686"
    ensures '-' !in r
  {
    match a
    case Arm => "arm"
    case X86 => "i686"
    case X86_64 => "x86_64"
  }

  /**
   * The vendor-system fragment of a target triple (the `Display` impl of `OS`): a
   * vendor and a system name joined by `-`. What it names is stated by
   * `OsNameNamesSystem`, kept apart so that the literal strings are unfolded only there.
   */
  function OsName(o: Os): string {
    match o
    case Linux => "unknown-linux-gnu"
    case MacOs => "apple-darwin"
    case Windows => "pc-windows-msvc"
  }

  /**
   * The fragment names Linux and Windows by their `target_os` names, and macOS as
   * `darwin` rather than by its `target_os` name.
   */
  lemma {:induction false} OsNameNamesSystem(o: Os)
    ensures o != MacOs ==> Contains(OsName(o), OsCfg(o))
    ensures o == MacOs ==> Contains(OsName(o), "darwin") && !Contains(OsName(o), OsCfg(o))
  {
    match o
    case Linux =>
      ContainsAt("unknown-linux-gnu", "linux", 8);
    case MacOs =>
      ContainsAt("apple-darwin", "darwin", 6);
      FirstCharAbsent("apple-darwin", "macos");
    case Windows =>
      ContainsAt("pc-windows-msvc", "windows", 3);
  }

  /**
   * `format!("{}-{}", arch, os)`: the architecture fragment is everything before the
   * first `-`, and the system fragment everything after it.
   */
  function HostTriple(a: Arch, o: Os): (r: string)
    ensures |r| == |ArchName(a)| + 1 + |OsName(o)|
    ensures r[|ArchName(a)|] == '-' && '-' !in r[..|ArchName(a)|]
    ensures r[..|ArchName(a)|] == ArchName(a) && r[|ArchName(a)| + 1..] == OsName(o)
  {
    ArchName(a) + "-" + OsName(o)
  }

  /** The values the `--target` option accepts. */
  const AcceptedTargets: seq<string> := [
    "arm-unknown-linux-gnueabi",
    "armv7-unknown-linux-gnueabihf",
    "i686-apple-darwin",
    "x86_64-apple-darwin",
    "i686-unknown-linux-gnu",
    "x86_64-unknown-linux-gnu",
    "i686-pc-windows-msvc",
    "x86_64-pc-windows-msvc"
  ]

  /** The values the positional `host` argument accepts. */
  const AcceptedHosts: seq<string> := ["x86-windows", "x86_64-windows"]

  /** The date of the pinned nightly toolchain. */
  const StableToolchainVersion: string := "2019-07-14"

  /** Distinct (architecture, system) pairs render to distinct host triples. */
  lemma {:induction false} HostTripleInjective(a1: Arch, o1: Os, a2: Arch, o2: Os)
    requires HostTriple(a1, o1) == HostTriple(a2, o2)
    ensures a1 == a2 && o1 == o2
  {
    var t := HostTriple(a1, o1);
    var n1, n2 := |ArchName(a1)|, |ArchName(a2)|;
    assert t[n1] == '-' == t[n2];
    assert ArchName(a1) == t[..n1] == ArchName(a2);
    assert OsName(o1) == t[n1 + 1..] == OsName(o2);
  }

  /**
   * The host triple fixed when the builder is compiled, from the compiler's
   * `target_arch` and `target_os` settings; `None` where the builder refuses to run
   * (`unreachable!`): only x86 and x86_64 on Linux, macOS and Windows are supported.
   * The host is the rendering of the configured architecture and system, and it is
   * one of the values `--target` accepts.
   */
  function BuildHost(targetArch: string, targetOs: string): (r: Option<string>)
    ensures r.Some? <==> (targetArch == "x86" || targetArch == "x86_64")
                         && (targetOs == "linux" || targetOs == "macos" || targetOs == "windows")
    ensures r.Some? ==> r.value in AcceptedTargets
    ensures r.Some? ==> exists a: Arch, o: Os :: a != Arm && ArchCfg(a) == targetArch && OsCfg(o) == targetOs
                                                  && r.value == HostTriple(a, o)
  {
    var arch :=
      if targetArch == "x86" then Some(X86)
      else if targetArch == "x86_64" then Some(X86_64)
      else None;
    var os :=
      if targetOs == "linux" then Some(Linux)
      else if targetOs == "macos" then Some(MacOs)
      else if targetOs == "windows" then Some(Windows)
      else None;
    if arch.None? || os.None? then None
    else
      HostTriplesAccepted(arch.value, os.value);
      Some(HostTriple(arch.value, os.value))
  }

  /** The position of each system's i686 triple in the accepted `--target` list, less two. */
  function OsRank(o: Os): nat {
    match o
    case MacOs => 0
    case Linux => 2
    case Windows => 4
  }

  /**
   * Every host triple of a supported architecture is an accepted `--target` value:
   * the rendering tables reproduce the list entry for entry, i686 before x86_64 for
   * each of macOS, Linux and Windows.
   */
  lemma {:induction false} HostTriplesAccepted(a: Arch, o: Os)
    requires a != Arm
    ensures HostTriple(a, o) == AcceptedTargets[2 + OsRank(o) + (if a == X86 then 0 else 1)]
    ensures HostTriple(a, o) in AcceptedTargets
  {
    if a == X86 {
      I686TriplesAccepted(o);
    } else {
      X86_64TriplesAccepted(o);
    }
  }

  lemma {:induction false} I686TriplesAccepted(o: Os)
    ensures HostTriple(X86, o) == AcceptedTargets[2 + OsRank(o)]
  {
    match o
    case MacOs => I686TripleAcceptedMacOs();
    case Linux => I686TripleAcceptedLinux();
    case Windows => I686TripleAcceptedWindows();
  }

  lemma {:induction false} X86_64TriplesAccepted(o: Os)
    ensures HostTriple(X86_64, o) == AcceptedTargets[3 + OsRank(o)]
  {
    match o
    case MacOs => X86_64TripleAcceptedMacOs();
    case Linux => X86_64TripleAcceptedLinux();
    case Windows => X86_64TripleAcceptedWindows();
  }

  // One lemma per accepted host triple: spelling each rendering out on its own keeps
  // the literal-string reasoning small.

  lemma {:induction false} I686TripleAcceptedMacOs()
    ensures HostTriple(X86, MacOs) == AcceptedTargets[2]
  {
    assert ArchName(X86) + "-" + OsName(MacOs) == "i686-apple-darwin";
  }

  lemma {:induction false} I686TripleAcceptedLinux()
    ensures HostTriple(X86, Linux) == AcceptedTargets[4]
  {
    assert ArchName(X86) + "-" + OsName(Linux) == "i686-unknown-linux-gnu";
  }

  lemma {:induction false} I686TripleAcceptedWindows()
    ensures HostTriple(X86, Windows) == AcceptedTargets[6]
  {
    assert ArchName(X86) + "-" + OsName(Windows) == "i686-pc-windows-msvc";
  }

  lemma {:induction false} X86_64TripleAcceptedMacOs()
    ensures HostTriple(X86_64, MacOs) == AcceptedTargets[3]
  {
    assert ArchName(X86_64) + "-" + OsName(MacOs) == "x86_64-apple-darwin";
  }

  lemma {:induction false} X86_64TripleAcceptedLinux()
    ensures HostTriple(X86_64, Linux) == AcceptedTargets[5]
  {
    assert ArchName(X86_64) + "-" + OsName(Linux) == "x86_64-unknown-linux-gnu";
  }

  lemma {:induction false} X86_64TripleAcceptedWindows()
    ensures HostTriple(X86_64, Windows) == AcceptedTargets[7]
  {
    assert ArchName(X86_64) + "-" + OsName(Windows) == "x86_64-pc-windows-msvc";
  }

  /** The arm rendering on Linux is the first accepted `--target` value without its `eabi` suffix. */
  lemma {:induction false} ArmLinuxIsAcceptedPrefix()
    ensures HostTriple(Arm, Linux) + "eabi" == AcceptedTargets[0]
  {
  }

  /**
   * No arm rendering is an accepted `--target` value: the accepted arm targets
   * carry an `eabi` suffix.
   */
  lemma {:induction false} ArmTriplesNotAccepted(o: Os)
    ensures HostTriple(Arm, o) !in AcceptedTargets
  {
    var t := HostTriple(Arm, o);
    assert t[1] == 'r' && t[3] == '-';
    forall k | 0 <= k < |AcceptedTargets| ensures AcceptedTargets[k] != t {
      if k >= 2 {
        assert AcceptedTargets[k][1] != t[1];
      }
    }
  }

  /** The host the toolchain is chosen for: the `host` argument if given, else the built-in host. */
  function SelectHost(hostArg: Option<string>, builtHost: string): (h: string)
    ensures hostArg.Some? ==> h == hostArg.value
    ensures hostArg.None? ==> h == builtHost
  {
    hostArg.GetOr(builtHost)
  }

  /**
   * The target the build runs for: the `--target` value if given, else the host
   * the toolchain is chosen for (which may itself come from the `host` argument).
   */
  function SelectRunTarget(hostArg: Option<string>, targetArg: Option<string>, builtHost: string): (t: string)
    ensures targetArg.Some? ==> t == targetArg.value
    ensures targetArg.None? && hostArg.Some? ==> t == hostArg.value
    ensures targetArg.None? && hostArg.None? ==> t == builtHost
  {
    targetArg.GetOr(SelectHost(hostArg, builtHost))
  }

  /** The prefix every pinned toolchain id starts with. */
  const ToolchainPrefix: string := "nightly-" + StableToolchainVersion + "-"

  /** `format!("nightly-{}-{}", STABLE_TOOLCHAIN_VERSION, host)`: the pinned prefix followed by the host. */
  function ToolchainId(host: string): (id: string)
    ensures |id| == |ToolchainPrefix| + |host| && |ToolchainPrefix| == 19
    ensures id[..|ToolchainPrefix|] == "nightly-2019-07-14-" && id[|ToolchainPrefix|..] == host
  {
    ToolchainPrefix + host
  }

  /** The host a pinned toolchain id was made for, or `None` for an id of another toolchain. */
  function ToolchainHost(id: string): (h: Option<string>)
    ensures h.Some? ==> ToolchainId(h.value) == id
  {
    if ToolchainPrefix <= id then Some(id[|ToolchainPrefix|..]) else None
  }

  /** The toolchain id determines the host it was made for: `ToolchainHost` inverts `ToolchainId`. */
  lemma {:induction false} ToolchainIdRoundTrip(host: string)
    ensures ToolchainHost(ToolchainId(host)) == Some(host)
    ensures |ToolchainId(host)| == 19 + |host|
  {
  }

  /** Without arguments the run target is the built-in host, which is an accepted `--target` value. */
  lemma {:induction false} DefaultRunTargetAccepted(targetArch: string, targetOs: string)
    requires BuildHost(targetArch, targetOs).Some?
    ensures SelectRunTarget(None, None, BuildHost(targetArch, targetOs).value) in AcceptedTargets
  {
  }

  /**
   * The `host` argument values are not target triples: given one and no `--target`,
   * the run target falls outside the accepted `--target` values and the toolchain id
   * names a host that no rendering of `Arch` and `OS` produces.
   */
  lemma {:induction false} HostArgumentIsNotATriple(h: string, builtHost: string)
    requires h in AcceptedHosts
    ensures SelectRunTarget(Some(h), None, builtHost) !in AcceptedTargets
    ensures forall a: Arch, o: Os :: ToolchainHost(ToolchainId(SelectHost(Some(h), builtHost))) != Some(HostTriple(a, o))
  {
    // Every `host` argument value is shorter than every triple.
    ToolchainIdRoundTrip(h);
    assert |h| < 15;
    forall k | 0 <= k < |AcceptedTargets|
      ensures |AcceptedTargets[k]| > 15
    {
    }
    forall a: Arch, o: Os
      ensures |HostTriple(a, o)| > 15
    {
    }
  }
}

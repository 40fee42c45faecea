/**
 * The subprocesses the builder starts, as values: what starting a program yields,
 * what `run` makes of it, and the commands the builder issues to `rustup`, `cargo`
 * and `rustc`. Nothing is executed; outcomes are inputs and commands are outputs.
 */
module Subprocess {
  import opened Wrappers
  import opened Text

  /** The kinds of I/O error the builder tells apart: only "program not found" is special. */
  datatype ErrorKind = NotFound | OtherError

  /** What starting a program and collecting its output yields. */
  datatype Spawn =
    | Exited(status: int, stdout: string)   // the program ran; any exit status
    | SpawnFailed(kind: ErrorKind)          // the program could not be started

  /**
   * `run`: the program's standard output with surrounding white space trimmed when it
   * could be started, whatever its exit status; the start-up error otherwise.
   */
  function Run(p: Spawn): (r: Result<string, ErrorKind>)
    ensures r.Ok? <==> p.Exited?
    ensures r.Ok? ==> r.value == Trim(p.stdout)
    ensures r.Err? ==> r.error == p.kind
  {
    match p
    case Exited(_, out) => Ok(Trim(out))
    case SpawnFailed(kind) => Err(kind)
  }

  /**
   * The exit status never changes what `run` reports, and what it reports is already
   * trimmed: neither end of it is white space.
   */
  lemma RunIgnoresStatus(s1: int, s2: int, out: string)
    ensures Run(Exited(s1, out)) == Run(Exited(s2, out))
    ensures Trim(Run(Exited(s1, out)).value) == Run(Exited(s1, out)).value
    ensures var v := Run(Exited(s1, out)).value; v != [] ==> !IsWhitespace(v[0]) && !IsWhitespace(v[|v| - 1])
  {
  }

  /** The commands the builder issues. */
  datatype Cmd =
    | RustupVersion                               // rustup --version
    | CargoVersion                                // cargo --version
    | RustcVersion                                // rustc --version
    | ToolchainList                               // rustup toolchain list
    | ToolchainInstall(toolchain: string)         // rustup toolchain install <id>
    | TargetList(toolchain: string)               // rustup target list --toolchain <id>
    | TargetAdd(target: string, toolchain: string) // rustup target add <t> --toolchain <id>

  /** The program name and arguments of a command. */
  function Argv(c: Cmd): (argv: seq<string>)
    ensures |argv| >= 2 && argv[0] in {"rustup", "cargo", "rustc"}
  {
    match c
    case RustupVersion => ["rustup", "--version"]
    case CargoVersion => ["cargo", "--version"]
    case RustcVersion => ["rustc", "--version"]
    case ToolchainList => ["rustup", "toolchain", "list"]
    case ToolchainInstall(id) => ["rustup", "toolchain", "install", id]
    case TargetList(id) => ["rustup", "target", "list", "--toolchain", id]
    case TargetAdd(t, id) => ["rustup", "target", "add", t, "--toolchain", id]
  }

  /** Distinct commands have distinct command lines. */
  lemma ArgvInjective(c1: Cmd, c2: Cmd)
    requires Argv(c1) == Argv(c2)
    ensures c1 == c2
  {
  }

  /** Commands that change the installation: the others only read. */
  predicate Mutates(c: Cmd) {
    c.ToolchainInstall? || c.TargetAdd?
  }

  /** The mutating commands of a command log, in the order they were issued. */
  function Mutating(log: seq<Cmd>): (r: seq<Cmd>)
    ensures |r| <= |log|
    ensures forall k | 0 <= k < |r| :: Mutates(r[k])
  {
    if log == [] then []
    else (if Mutates(log[0]) then [log[0]] else []) + Mutating(log[1..])
  }

  /** The mutating commands of two logs run one after the other are those of each, in order. */
  lemma {:induction false} MutatingAppend(a: seq<Cmd>, b: seq<Cmd>)
    ensures Mutating(a + b) == Mutating(a) + Mutating(b)
  {
    if a != [] {
      assert (a + b)[1..] == a[1..] + b;
      MutatingAppend(a[1..], b);
    } else {
      assert a + b == b;
    }
  }
}

# darwinia-builder: toolchain provisioning model

A Dafny model of the provisioning logic of `darwinia-builder`, the build helper
for the Darwinia node. Before building, the builder works out the host target
triple and the pinned nightly toolchain id (`nightly-2019-07-14-<host>`). It
probes `rustup`, `cargo` and `rustc` for their versions. It installs the
toolchain when `rustup toolchain list` does not mention it. Finally it scans
`rustup target list` for the run target and for `wasm32-unknown-unknown`, and
runs `rustup target add` for whichever of the two is not installed.

Nothing here runs a program. The outputs of the programs the builder starts are
inputs (`Subprocess.Spawn`, `Provision.Responses`). Every command it starts is
returned, in order, as a log of `Subprocess.Cmd` values. The commands that change
the installation are the `ToolchainInstall` and `TargetAdd` entries.

Modules:

- `Wrappers`: `Option` and `Result`.
- `Text`: the Rust string operations the logic depends on, `contains`, `lines` and `trim`.
- `Triple`: the `Arch`/`OS` rendering tables, the host triple, the toolchain id,
  the choice of host and run target, and the accepted `--target` values.
- `Subprocess`: what starting a program yields, `run`, and the commands issued.
- `Provision`: the target-list scan (a method with a loop), the install
  decisions, and `Tool::new` as a method.

## Model

| member | source | states |
|---|---|---|
| `Text.Contains` | src/main.rs:168 | `contains` always finds the empty pattern and never a pattern longer than the text |
| `Text.ContainsIff` | src/main.rs:168 | `contains` holds exactly when the pattern starts at some position of the text; the empty pattern is found everywhere |
| `Text.ContainsAt` | src/main.rs:198-202 | a pattern found at some position makes `contains` true |
| `Text.Lines` | src/main.rs:197 | `lines` yields pieces without line feeds; the empty text has no lines, and a non-empty text without a line feed is one line, less a trailing carriage return |
| `Text.LinesAppend` | src/main.rs:197 | the lines of `s + "\n" + t` are `s` (without a final carriage return) followed by the lines of `t` |
| `Text.Trim` | src/main.rs:273 | `trim` returns the slice of the text after its leading white space, and the result neither starts nor ends with white space |
| `Text.TrimSpec` | src/main.rs:273 | everything `trim` cuts off at either end is white space |
| `Text.TrimKeepsTrimmed` | src/main.rs:273 | a string with no white space at either end is returned unchanged by `trim` |
| `Text.TrimIdempotent` | src/main.rs:273 | trimming twice gives the same string as trimming once |
| `Triple.ArchName` | src/main.rs:104-111 | arm and x86_64 render as their `target_arch` names and x86 as `i686`; no fragment contains the `-` separator |
| `Triple.OsNameNamesSystem` | src/main.rs:128-135 | the Linux and Windows fragments contain their `target_os` names; the macOS fragment contains `darwin` and not `macos` |
| `Triple.HostTriple` | src/main.rs:37 | the triple is the architecture fragment, one `-` and the system fragment, and its first `-` ends the architecture fragment |
| `Triple.HostTripleInjective` | src/main.rs:37 | `"<arch>-<os>"` determines both the architecture and the system |
| `Triple.HostTriplesAccepted` | src/main.rs:53-62 | the six x86 and x86_64 renderings are entries three to eight of the accepted `--target` list, in its order: i686 then x86_64 for macOS, Linux and Windows |
| `Triple.ArmLinuxIsAcceptedPrefix` | src/main.rs:53 | the arm rendering on Linux is the first accepted `--target` value without its `eabi` suffix |
| `Triple.ArmTriplesNotAccepted` | src/main.rs:20-26 | no arm rendering is an accepted `--target` value |
| `Triple.BuildHost` | src/main.rs:19-38 | a host exists exactly for x86/x86_64 on linux/macos/windows; it is the rendering of the architecture and system whose `target_arch`/`target_os` names were configured, and an accepted `--target` value |
| `Triple.SelectHost` | src/main.rs:150 | the `host` argument wins when given, else the built-in host |
| `Triple.SelectRunTarget` | src/main.rs:150-157 | the `--target` value wins when given, else the `host` argument, else the built-in host |
| `Triple.ToolchainId` | src/main.rs:154 | the id is the 19-character prefix `nightly-2019-07-14-` followed by the host |
| `Triple.ToolchainHost` | src/main.rs:154 | a host recovered from an id rebuilds that id with `nightly-2019-07-14-<host>` |
| `Triple.ToolchainIdRoundTrip` | src/main.rs:154 | the id `nightly-2019-07-14-<host>` is 19 characters longer than the host and gives the host back |
| `Triple.DefaultRunTargetAccepted` | src/main.rs:150-157 | with no arguments the run target is the built-in host, an accepted `--target` value |
| `Triple.HostArgumentIsNotATriple` | src/main.rs:43-47 | with `host` set to `x86-windows` or `x86_64-windows` and no `--target`, the run target is not an accepted `--target` value, and the toolchain id names no rendered host triple |
| `Subprocess.Run` | src/main.rs:271-276 | `run` succeeds exactly when the program starts; it then returns the trimmed standard output, and otherwise the start-up error |
| `Subprocess.RunIgnoresStatus` | src/main.rs:272-273 | the exit status never changes what `run` reports, and what it reports is already trimmed |
| `Subprocess.Argv` | src/main.rs:160-222 | every command line starts with `rustup`, `cargo` or `rustc` and has at least one argument |
| `Subprocess.ArgvInjective` | src/main.rs:160-222 | distinct commands have distinct command lines |
| `Subprocess.MutatingAppend` | src/main.rs:173-223 | the mutating commands of two logs run one after the other are those of each, in order |
| `Provision.InitialTool` | src/main.rs:150-158 | before any probe the version fields are empty, the toolchain id is for the `host` argument (else the built-in host), the auxiliary target is `wasm32-unknown-unknown`, and the run target is the `--target` value, else that host |
| `Provision.ScanTargetList` | src/main.rs:194-205 | after the scan, the run flag is true iff some marked line contains the run target; the wasm flag is true iff some marked line contains the wasm target but not the run target |
| `Provision.ScanOrderIndependent` | src/main.rs:197-205 | the flags depend only on which lines are listed, not on their order or repetition |
| `Provision.ScanMonotone` | src/main.rs:194-205 | flags are only ever set: more lines before or after never clear one |
| `Provision.UnmarkedLinesIgnored` | src/main.rs:198 | lines without `(installed)` or `(default)` never change either flag |
| `Provision.RunTargetPriority` | src/main.rs:199-203 | a marked line with both targets sets the run flag and not the wasm flag |
| `Provision.ScanTextMonotone` | src/main.rs:197-205 | putting another line of text in front of the listing never clears a flag |
| `Provision.ExtendedTripleCountsAsRunTarget` | src/main.rs:198-200 | an installed triple that extends the run target (such as `x86_64-unknown-linux-gnux32`) sets the run flag |
| `Provision.InstallIfMissing` | src/main.rs:168-182 | `toolchain install <id>` is issued iff the toolchain listing does not contain the id, at most once, and it is the only command issued there |
| `Provision.MissingTargetAdds` | src/main.rs:207-227 | every command issued is a `target add` for the pinned toolchain, at most one per pending target |
| `Provision.MissingTargetAddsExact` | src/main.rs:207-227 | a target is added exactly when it is pending with a false flag |
| `Provision.MissingTargetAddsPair` | src/main.rs:207-210 | with the two pending targets, the first one's add comes before the second one's |
| `Provision.RequiredChanges` | src/main.rs:166-227 | at most three changes, all mutating and all for the pinned toolchain; only the first can be the install, which is present iff the listing does not contain the toolchain |
| `Provision.RequiredChangesNoneIff` | src/main.rs:166-227 | no mutating command is needed iff the toolchain is listed and both targets are reported installed |
| `Provision.RequiredChangesExact` | src/main.rs:166-227 | the install names exactly the pinned toolchain when it is unlisted; `target add` names exactly the targets whose flag is false, for the pinned toolchain |
| `Provision.RequiredChangesOrder` | src/main.rs:166-227 | when everything is missing, the install comes first, then the run target's add, then the wasm target's |
| `Provision.ProvisionLog` | src/main.rs:160-228 | the log is five probes plus the required changes; it starts with the `rustup`, `cargo` and toolchain probes; an install comes after the toolchain listing, and every target add after both listings |
| `Provision.ProvisionLogMutating` | src/main.rs:160-228 | the mutating commands in the log are exactly the required changes; there are none iff toolchain and both targets are present (idempotence) |
| `Provision.IssueTargetAdds` | src/main.rs:207-227 | the second loop issues exactly the missing-target adds, in order |
| `Provision.ProvisionWithRustup` | src/main.rs:161-228 | once `rustup` answers, the version fields are the trimmed probe outputs and the commands issued are exactly the provisioning log |
| `Provision.NewTool` | src/main.rs:149-244 | `rustup` not found: one probe and empty version fields; any other start-up failure: a panic; otherwise trimmed versions and the full log. The toolchain id and the targets always come from the selected host and run target |

## Left out

- Starting programs and collecting their output (`Command::output`, `spawn`, `wait_with_output`): this is operating-system I/O. Outputs are inputs and commands are a returned log.
- The decoding of program output from bytes (`String::from_utf8_lossy`): output is taken as already-decoded text.
- The `unwrap()` calls after the later probes: when `rustup --version` starts, the model requires the later read-only probes to start too (`Provision.LaterProbesSpawn`). The panics of a failing `toolchain install` or `target add` start are not modelled; their exit status is ignored by the builder, as it is here.
- Argument parsing (`clap`) and the `lazy_static` globals: the `host` and `--target` values are parameters, and the accepted values are constant lists.
- Coloured status lines (`println!`/`eprintln!` with `colored`), the `rustup` install URL message, and `main`'s debug print: presentation only.
- `Builder::new` only pairs `Tool::new` with `EnvVar::new`; `EnvVar::new` reads the current directory and leaves every field empty, so it has no behaviour to model. `OS::new` is never called.
- The cross-compile environment resolver, the linker-configuration writer and the resumable bundle downloader are not in this code base's source, so they are not modelled.
- What a later `rustup` listing shows after an install is `rustup`'s behaviour, not the builder's. Idempotence is therefore stated for listings that mention the toolchain and both targets (`Provision.ProvisionLogMutating`), not as two consecutive runs.
- Installed-ness is substring containment, as in the code. A line that merely extends the run target counts as that target; `Provision.ExtendedTripleCountsAsRunTarget` states this rather than replacing it with exact matching.

/**
 * `Tool::new`: probe for `rustup`, record the versions of `rustup`, `cargo` and
 * `rustc`, install the pinned nightly toolchain when `rustup toolchain list` does
 * not mention it, scan `rustup target list` for the run target and the WebAssembly
 * target, and add whichever of the two is not installed.
 *
 * The outputs of the programs it starts are inputs here; what it starts is
 * returned as a log of commands, in the order it starts them.
 */
module Provision {
  import opened Wrappers
  import opened Text
  import opened Triple
  import opened Subprocess

  /** The auxiliary target every build also needs. */
  const WasmTarget: string := "wasm32-unknown-unknown"

  /** The builder's record of the toolchain it found; version fields stay empty until probed. */
  datatype Tool = Tool(
    rustup: string,
    cargo: string,
    toolchain: string,
    rustc: string,
    wasmTarget: string,
    runTarget: string)

  /** What each read-only command would print (or how starting it would fail). */
  datatype Responses = Responses(
    rustupVersion: Spawn,
    cargoVersion: Spawn,
    toolchainList: Spawn,
    rustcVersion: Spawn,
    targetList: Spawn)

  /** How `Tool::new` ends: with a tool record, or by panicking on an unexpected error. */
  datatype Outcome =
    | Finished(tool: Tool, issued: seq<Cmd>)
    | Panicked(error: ErrorKind, issued: seq<Cmd>)

  /**
   * The tool record before any probe: the versions are empty, the toolchain is the
   * pinned nightly for the host (the `host` argument, else the built-in host), the
   * auxiliary target is WebAssembly, and the run target is the `--target` value,
   * else that host.
   */
  function InitialTool(hostArg: Option<string>, targetArg: Option<string>, builtHost: string): (t: Tool)
    ensures t.rustup == "" && t.cargo == "" && t.rustc == ""
    ensures ToolchainHost(t.toolchain) == Some(hostArg.GetOr(builtHost))
    ensures t.wasmTarget == "wasm32-unknown-unknown"
    ensures targetArg.Some? ==> t.runTarget == targetArg.value
    ensures targetArg.None? ==> t.runTarget == hostArg.GetOr(builtHost)
  {
    var host := SelectHost(hostArg, builtHost);
    ToolchainIdRoundTrip(host);
    Tool("", "", ToolchainId(host), "", WasmTarget, SelectRunTarget(hostArg, targetArg, builtHost))
  }

  // ---------------------------------------------------------------------------
  // Scanning `rustup target list`

  /** A listing line that reports an installed target. */
  predicate Marked(line: string) {
    Contains(line, "(installed)") || Contains(line, "(default)")
  }

  /** Some marked line mentions the run target. */
  predicate RunTargetListed(lines: seq<string>, runTarget: string) {
    exists line | line in lines :: Marked(line) && Contains(line, runTarget)
  }

  /** Some marked line mentions the WebAssembly target without mentioning the run target. */
  predicate WasmTargetListed(lines: seq<string>, runTarget: string, wasmTarget: string) {
    exists line | line in lines :: Marked(line) && !Contains(line, runTarget) && Contains(line, wasmTarget)
  }

  /**
   * The scan loop of `Tool::new`: both flags start false; a marked line that
   * mentions the run target sets the run flag, and otherwise one that mentions the
   * WebAssembly target sets the WebAssembly flag.
   */
  method ScanTargetList(targetList: string, runTarget: string, wasmTarget: string)
    returns (runInstalled: bool, wasmInstalled: bool)
    ensures runInstalled == RunTargetListed(Lines(targetList), runTarget)
    ensures wasmInstalled == WasmTargetListed(Lines(targetList), runTarget, wasmTarget)
  {
    var lines := Lines(targetList);
    wasmInstalled := false;
    runInstalled := false;
    for i := 0 to |lines|
      invariant runInstalled == RunTargetListed(lines[..i], runTarget)
      invariant wasmInstalled == WasmTargetListed(lines[..i], runTarget, wasmTarget)
    {
      var line := lines[i];
      assert lines[..i + 1] == lines[..i] + [line];
      if Marked(line) {
        if Contains(line, runTarget) {
          runInstalled := true;
        } else if Contains(line, wasmTarget) {
          wasmInstalled := true;
        }
      }
    }
    assert lines[..|lines|] == lines;
  }

  /** The flags depend only on which lines are listed, not on their order or repetition. */
  lemma {:induction false} ScanOrderIndependent(l1: seq<string>, l2: seq<string>, runTarget: string, wasmTarget: string)
    requires forall line :: line in l1 <==> line in l2
    ensures RunTargetListed(l1, runTarget) == RunTargetListed(l2, runTarget)
    ensures WasmTargetListed(l1, runTarget, wasmTarget) == WasmTargetListed(l2, runTarget, wasmTarget)
  {
  }

  /** Flags are only ever set: listing more lines, before or after, never clears one. */
  lemma {:induction false} ScanMonotone(a: seq<string>, b: seq<string>, runTarget: string, wasmTarget: string)
    ensures RunTargetListed(a, runTarget) || RunTargetListed(b, runTarget) ==> RunTargetListed(a + b, runTarget)
    ensures WasmTargetListed(a, runTarget, wasmTarget) || WasmTargetListed(b, runTarget, wasmTarget)
            ==> WasmTargetListed(a + b, runTarget, wasmTarget)
  {
  }

  /** Lines without an installed or default marker never change the flags. */
  lemma {:induction false} UnmarkedLinesIgnored(lines: seq<string>, extra: seq<string>, runTarget: string, wasmTarget: string)
    requires forall k | 0 <= k < |extra| :: !Marked(extra[k])
    ensures RunTargetListed(lines + extra, runTarget) == RunTargetListed(lines, runTarget)
    ensures WasmTargetListed(lines + extra, runTarget, wasmTarget) == WasmTargetListed(lines, runTarget, wasmTarget)
  {
  }

  /**
   * The run target takes priority: a marked line mentioning both targets sets only
   * the run flag, so a listing made of such lines leaves the WebAssembly target missing.
   */
  lemma RunTargetPriority(line: string, runTarget: string, wasmTarget: string)
    requires Marked(line) && Contains(line, runTarget) && Contains(line, wasmTarget)
    ensures RunTargetListed([line], runTarget)
    ensures !WasmTargetListed([line], runTarget, wasmTarget)
  {
  }

  /** Putting a line of text in front of the listing never clears a flag. */
  lemma {:induction false} ScanTextMonotone(first: string, rest: string, runTarget: string, wasmTarget: string)
    requires '\n' !in first
    ensures RunTargetListed(Lines(rest), runTarget) ==> RunTargetListed(Lines(first + "\n" + rest), runTarget)
    ensures WasmTargetListed(Lines(rest), runTarget, wasmTarget)
            ==> WasmTargetListed(Lines(first + "\n" + rest), runTarget, wasmTarget)
  {
    LinesAppend(first, rest);
    ScanMonotone([StripCr(first)], Lines(rest), runTarget, wasmTarget);
  }

  /**
   * Installed-ness is substring containment, so an installed triple that merely
   * extends the run target counts as the run target: an installed
   * `x86_64-unknown-linux-gnux32` makes `x86_64-unknown-linux-gnu` look installed.
   */
  lemma {:induction false} ExtendedTripleCountsAsRunTarget(runTarget: string, extension: string)
    ensures RunTargetListed([runTarget + extension + " (installed)"], runTarget)
  {
    var line := runTarget + extension + " (installed)";
    assert Marked(line) by {
      assert line[|runTarget + extension| + 1..] == "(installed)";
      ContainsAt(line, "(installed)", |runTarget + extension| + 1);
    }
    assert Contains(line, runTarget) by {
      ContainsAt(line, runTarget, 0);
    }
    assert line in [line];
  }

  // ---------------------------------------------------------------------------
  // Install decisions

  /** `rustup toolchain install <id>` when the toolchain listing does not mention the id. */
  function InstallIfMissing(toolchainList: string, toolchain: string): (r: seq<Cmd>)
    ensures r == [] <==> Contains(toolchainList, toolchain)
    ensures |r| <= 1
    ensures forall k | 0 <= k < |r| :: r[k] == ToolchainInstall(toolchain)
  {
    if Contains(toolchainList, toolchain) then [] else [ToolchainInstall(toolchain)]
  }

  /** `rustup target add <t> --toolchain <id>` for each pending target not yet installed, in order. */
  function MissingTargetAdds(pending: seq<(string, bool)>, toolchain: string): (r: seq<Cmd>)
    ensures |r| <= |pending|
    ensures forall k | 0 <= k < |r| :: r[k].TargetAdd? && r[k].toolchain == toolchain
  {
    if pending == [] then []
    else
      var last := pending[|pending| - 1];
      MissingTargetAdds(pending[..|pending| - 1], toolchain)
      + (if last.1 then [] else [TargetAdd(last.0, toolchain)])
  }

  /** A target is added exactly when it is pending and not installed. */
  lemma {:induction false} MissingTargetAddsExact(pending: seq<(string, bool)>, toolchain: string, t: string)
    ensures TargetAdd(t, toolchain) in MissingTargetAdds(pending, toolchain) <==> (t, false) in pending
  {
    if pending != [] {
      var init := pending[..|pending| - 1];
      MissingTargetAddsExact(init, toolchain, t);
      assert pending == init + [pending[|pending| - 1]];
    }
  }

  /** With two pending targets, the first one's add comes before the second one's. */
  lemma MissingTargetAddsPair(p0: (string, bool), p1: (string, bool), toolchain: string)
    ensures MissingTargetAdds([p0, p1], toolchain)
            == (if p0.1 then [] else [TargetAdd(p0.0, toolchain)])
               + (if p1.1 then [] else [TargetAdd(p1.0, toolchain)])
  {
  }

  /** The targets `Tool::new` checks, run target first, with their flags. */
  function PendingTargets(targetList: string, tool: Tool): seq<(string, bool)> {
    var lines := Lines(targetList);
    [(tool.runTarget, RunTargetListed(lines, tool.runTarget)),
     (tool.wasmTarget, WasmTargetListed(lines, tool.runTarget, tool.wasmTarget))]
  }

  /**
   * The mutating commands the listings call for, all for the pinned toolchain: at most
   * one toolchain install, which comes first, then at most one add per target.
   */
  function RequiredChanges(toolchainList: string, targetList: string, tool: Tool): (r: seq<Cmd>)
    ensures |r| <= 3
    ensures forall k | 0 <= k < |r| :: Mutates(r[k]) && r[k].toolchain == tool.toolchain
    ensures forall k | 0 < k < |r| :: r[k].TargetAdd?
    ensures ToolchainInstall(tool.toolchain) in r <==> !Contains(toolchainList, tool.toolchain)
  {
    InstallIfMissing(toolchainList, tool.toolchain)
    + MissingTargetAdds(PendingTargets(targetList, tool), tool.toolchain)
  }

  /**
   * Idempotence: no mutating command is called for exactly when the toolchain is
   * listed and both targets are reported installed.
   */
  lemma {:induction false} RequiredChangesNoneIff(toolchainList: string, targetList: string, tool: Tool)
    ensures RequiredChanges(toolchainList, targetList, tool) == []
            <==> Contains(toolchainList, tool.toolchain)
                 && RunTargetListed(Lines(targetList), tool.runTarget)
                 && WasmTargetListed(Lines(targetList), tool.runTarget, tool.wasmTarget)
  {
    var pending := PendingTargets(targetList, tool);
    MissingTargetAddsPair(pending[0], pending[1], tool.toolchain);
  }

  /**
   * The commands called for: the toolchain is installed iff it is not listed, and
   * `target add` names exactly the targets whose flag is false, for the pinned toolchain.
   */
  lemma {:induction false} RequiredChangesExact(toolchainList: string, targetList: string, tool: Tool, c: Cmd)
    ensures c.ToolchainInstall? ==>
      (c in RequiredChanges(toolchainList, targetList, tool)
       <==> c.toolchain == tool.toolchain && !Contains(toolchainList, tool.toolchain))
    ensures c.TargetAdd? ==>
      (c in RequiredChanges(toolchainList, targetList, tool)
       <==> c.toolchain == tool.toolchain
            && ((c.target == tool.runTarget && !RunTargetListed(Lines(targetList), tool.runTarget))
                || (c.target == tool.wasmTarget
                    && !WasmTargetListed(Lines(targetList), tool.runTarget, tool.wasmTarget))))
  {
    var pending := PendingTargets(targetList, tool);
    if c.TargetAdd? && c.toolchain == tool.toolchain {
      MissingTargetAddsExact(pending, tool.toolchain, c.target);
      assert (c.target, false) in pending <==> pending[0] == (c.target, false) || pending[1] == (c.target, false);
    }
  }

  /** When the toolchain and both targets are missing, the install comes first, then the run target, then WebAssembly. */
  lemma {:induction false} RequiredChangesOrder(toolchainList: string, targetList: string, tool: Tool)
    requires !Contains(toolchainList, tool.toolchain)
    requires !RunTargetListed(Lines(targetList), tool.runTarget)
    requires !WasmTargetListed(Lines(targetList), tool.runTarget, tool.wasmTarget)
    ensures RequiredChanges(toolchainList, targetList, tool)
            == [ToolchainInstall(tool.toolchain), TargetAdd(tool.runTarget, tool.toolchain),
                TargetAdd(tool.wasmTarget, tool.toolchain)]
  {
    var pending := PendingTargets(targetList, tool);
    MissingTargetAddsPair(pending[0], pending[1], tool.toolchain);
  }

  // ---------------------------------------------------------------------------
  // Tool::new

  /** The read-only probes after `rustup --version` can be started when `rustup` itself can. */
  predicate LaterProbesSpawn(out: Responses) {
    out.rustupVersion.Exited? ==>
      out.cargoVersion.Exited? && out.toolchainList.Exited?
      && out.rustcVersion.Exited? && out.targetList.Exited?
  }

  /**
   * Every command `Tool::new` starts once `rustup` is found, in order: the version
   * and list probes, with the toolchain install after the toolchain listing and the
   * target adds after the target listing. Besides the changes the listings call for,
   * it holds exactly five probes, the first three being the `rustup`, `cargo` and
   * toolchain probes.
   */
  function ProvisionLog(toolchainList: string, targetList: string, tool: Tool): (r: seq<Cmd>)
    ensures |r| == 5 + |RequiredChanges(toolchainList, targetList, tool)|
    ensures r[..3] == [RustupVersion, CargoVersion, ToolchainList]
    ensures forall k | 0 <= k < |r| && r[k].ToolchainInstall? :: ToolchainList in r[..k]
    ensures forall k | 0 <= k < |r| && r[k].TargetAdd? :: ToolchainList in r[..k] && TargetList(tool.toolchain) in r[..k]
  {
    var install := InstallIfMissing(toolchainList, tool.toolchain);
    var adds := MissingTargetAdds(PendingTargets(targetList, tool), tool.toolchain);
    ListingsBeforeChanges(install, adds, tool.toolchain);
    [RustupVersion, CargoVersion, ToolchainList] + install + [RustcVersion, TargetList(tool.toolchain)] + adds
  }

  /** In the probe-and-change sequence, installs follow the toolchain listing and target adds follow both listings. */
  lemma {:induction false} ListingsBeforeChanges(install: seq<Cmd>, adds: seq<Cmd>, toolchain: string)
    requires forall k | 0 <= k < |install| :: install[k].ToolchainInstall?
    requires forall k | 0 <= k < |adds| :: adds[k].TargetAdd?
    ensures var r := [RustupVersion, CargoVersion, ToolchainList] + install + [RustcVersion, TargetList(toolchain)] + adds;
      (forall k | 0 <= k < |r| && r[k].ToolchainInstall? :: ToolchainList in r[..k])
      && (forall k | 0 <= k < |r| && r[k].TargetAdd? :: ToolchainList in r[..k] && TargetList(toolchain) in r[..k])
  {
    var r := [RustupVersion, CargoVersion, ToolchainList] + install + [RustcVersion, TargetList(toolchain)] + adds;
    var n := |install|;
    forall k | 0 <= k < |r| && r[k].ToolchainInstall?
      ensures ToolchainList in r[..k]
    {
      assert r[..k][2] == ToolchainList;
    }
    forall k | 0 <= k < |r| && r[k].TargetAdd?
      ensures ToolchainList in r[..k] && TargetList(toolchain) in r[..k]
    {
      assert r[..k][2] == ToolchainList;
      assert r[..k][4 + n] == TargetList(toolchain);
    }
  }

  /**
   * The mutating commands `Tool::new` starts are exactly those the listings call
   * for; in particular none when the toolchain and both targets are present.
   */
  lemma {:induction false} ProvisionLogMutating(toolchainList: string, targetList: string, tool: Tool)
    ensures Mutating(ProvisionLog(toolchainList, targetList, tool)) == RequiredChanges(toolchainList, targetList, tool)
    ensures Mutating(ProvisionLog(toolchainList, targetList, tool)) == []
            <==> Contains(toolchainList, tool.toolchain)
                 && RunTargetListed(Lines(targetList), tool.runTarget)
                 && WasmTargetListed(Lines(targetList), tool.runTarget, tool.wasmTarget)
  {
    var install := InstallIfMissing(toolchainList, tool.toolchain);
    var adds := MissingTargetAdds(PendingTargets(targetList, tool), tool.toolchain);
    ProbesAreNotMutating(install, adds, tool.toolchain);
    RequiredChangesNoneIff(toolchainList, targetList, tool);
  }

  /** Interleaving the read-only probes with a sequence of changes leaves the changes as the mutating part. */
  lemma {:induction false} ProbesAreNotMutating(install: seq<Cmd>, adds: seq<Cmd>, toolchain: string)
    requires forall k | 0 <= k < |install| :: Mutates(install[k])
    requires forall k | 0 <= k < |adds| :: Mutates(adds[k])
    ensures Mutating([RustupVersion, CargoVersion, ToolchainList] + install + [RustcVersion, TargetList(toolchain)] + adds)
            == install + adds
  {
    var probes, lists := [RustupVersion, CargoVersion, ToolchainList], [RustcVersion, TargetList(toolchain)];
    var l1 := probes + install;
    var l2 := l1 + lists;
    MutatingReadOnly(probes);
    MutatingOnly(install);
    MutatingAppend(probes, install);
    assert Mutating(l1) == install;
    MutatingReadOnly(lists);
    MutatingAppend(l1, lists);
    assert Mutating(l2) == install;
    MutatingOnly(adds);
    MutatingAppend(l2, adds);
  }

  /** A log of read-only commands has no mutating part. */
  lemma {:induction false} MutatingReadOnly(log: seq<Cmd>)
    requires forall k | 0 <= k < |log| :: !Mutates(log[k])
    ensures Mutating(log) == []
  {
    if log != [] {
      MutatingReadOnly(log[1..]);
    }
  }

  /** A log made only of mutating commands is its own mutating part. */
  lemma {:induction false} MutatingOnly(log: seq<Cmd>)
    requires forall k | 0 <= k < |log| :: Mutates(log[k])
    ensures Mutating(log) == log
  {
    if log != [] {
      MutatingOnly(log[1..]);
    }
  }

  /** The second loop of `Tool::new`: `target add` for each pending target whose flag is false, in order. */
  method IssueTargetAdds(pending: seq<(string, bool)>, toolchain: string) returns (adds: seq<Cmd>)
    ensures adds == MissingTargetAdds(pending, toolchain)
  {
    adds := [];
    for i := 0 to |pending|
      invariant adds == MissingTargetAdds(pending[..i], toolchain)
    {
      var (target, targetInstalled) := pending[i];
      assert pending[..i + 1][..i] == pending[..i];
      if !targetInstalled {
        adds := adds + [TargetAdd(target, toolchain)];
      }
    }
    assert pending[..|pending|] == pending;
  }

  /**
   * The part of `Tool::new` that runs once `rustup` has reported `version`: record
   * the versions, install the toolchain if it is not listed, scan the target listing
   * and add the missing targets. The toolchain and targets of `tool` are kept.
   */
  method ProvisionWithRustup(tool: Tool, version: string, out: Responses) returns (found: Tool, issued: seq<Cmd>)
    requires out.rustupVersion.Exited? && LaterProbesSpawn(out)
    ensures found == tool.(rustup := version, cargo := Run(out.cargoVersion).value, rustc := Run(out.rustcVersion).value)
    ensures issued == ProvisionLog(Run(out.toolchainList).value, Run(out.targetList).value, found)
  {
    found := tool.(rustup := version);
    issued := [RustupVersion];
    issued := issued + [CargoVersion];
    found := found.(cargo := Run(out.cargoVersion).value);

    issued := issued + [ToolchainList];
    var toolchainList := Run(out.toolchainList).value;
    if !Contains(toolchainList, found.toolchain) {
      issued := issued + [ToolchainInstall(found.toolchain)];
    }
    ghost var install := InstallIfMissing(toolchainList, found.toolchain);
    assert issued == [RustupVersion, CargoVersion, ToolchainList] + install;
    issued := issued + [RustcVersion];
    found := found.(rustc := Run(out.rustcVersion).value);

    issued := issued + [TargetList(found.toolchain)];
    var targetList := Run(out.targetList).value;
    var runInstalled, wasmInstalled := ScanTargetList(targetList, found.runTarget, found.wasmTarget);
    var pending := [(found.runTarget, runInstalled), (found.wasmTarget, wasmInstalled)];
    assert pending == PendingTargets(targetList, found);
    var adds := IssueTargetAdds(pending, found.toolchain);
    assert issued == [RustupVersion, CargoVersion, ToolchainList] + install + [RustcVersion, TargetList(found.toolchain)];
    issued := issued + adds;
  }

  /**
   * `Tool::new`. When `rustup` cannot be found the tool is returned with its version
   * fields empty after the one probe; any other failure to start `rustup` panics.
   * Otherwise the versions are the trimmed outputs of the probes and the commands
   * started are the provisioning log of the two listings.
   */
  method NewTool(hostArg: Option<string>, targetArg: Option<string>, builtHost: string, out: Responses)
    returns (r: Outcome)
    requires LaterProbesSpawn(out)
    ensures r.Panicked? <==> out.rustupVersion == SpawnFailed(OtherError)
    ensures r.Panicked? ==> r.error == OtherError && r.issued == [RustupVersion]
    ensures out.rustupVersion == SpawnFailed(NotFound)
            ==> r == Finished(InitialTool(hostArg, targetArg, builtHost), [RustupVersion])
    ensures r.Finished? ==>
              r.tool.toolchain == ToolchainId(SelectHost(hostArg, builtHost))
              && r.tool.runTarget == SelectRunTarget(hostArg, targetArg, builtHost)
              && r.tool.wasmTarget == WasmTarget
    ensures out.rustupVersion.Exited? ==>
              r.Finished?
              && r.tool.rustup == Run(out.rustupVersion).value
              && r.tool.cargo == Run(out.cargoVersion).value
              && r.tool.rustc == Run(out.rustcVersion).value
    ensures out.rustupVersion.Exited? ==>
              r.issued == ProvisionLog(Run(out.toolchainList).value, Run(out.targetList).value, r.tool)
  {
    var tool := InitialTool(hostArg, targetArg, builtHost);
    match Run(out.rustupVersion)
    case Err(NotFound) =>
      r := Finished(tool, [RustupVersion]);
    case Err(OtherError) =>
      r := Panicked(OtherError, [RustupVersion]);
    case Ok(version) =>
      var issued;
      tool, issued := ProvisionWithRustup(tool, version, out);
      r := Finished(tool, issued);
  }
}

/** The builder: Prepare passes the configuration's verdict through; Run
    assembles the step list from the configuration, hands it to the step
    runner, classifies how the run ended, and on success lists the files of
    the output directory for the artifact. The runner itself and the walk of
    the output directory are oracles. */
module Builder {
  import opened Wrappers
  import opened State
  import Configuration

  /** The steps of a build, by kind. */
  datatype Step =
    | Download(resultKey: string)      // commonsteps.StepDownload of the ISO
    | PrepareOutputDir
    | HttpIpDiscover
    | HttpServer
    | CreateZvol
    | CreateDisk
    | CreateVnic
    | ConfigureVnc
    | Bhyve(name: string)
    | TypeBootCommand
    | WaitGuestAddress(timeout: nat)   // in seconds
    | Connect
    | Provision
    | Shutdown
    | CreateSnapshot

  /** The guest address wait is bounded by one hour. */
  const GuestAddressTimeout := 3600

  const CancelledError := "Build was cancelled."
  const HaltedError := "Build was halted."

  /** The step list of a build: the four preparation steps, the disk step,
      the VNIC step when one is to be created, the steps that boot, reach,
      provision and shut down the guest, and a final snapshot for a zvol. */
  function Pipeline(useZvol: bool, vnicCreate: bool, vmName: string): seq<Step> {
    [Download(IsoPathKey), PrepareOutputDir, HttpIpDiscover, HttpServer]
      + [if useZvol then CreateZvol else CreateDisk]
      + (if vnicCreate then [CreateVnic] else [])
      + [ConfigureVnc, Bhyve(vmName), TypeBootCommand, WaitGuestAddress(GuestAddressTimeout), Connect, Provision, Shutdown]
      + (if useZvol then [CreateSnapshot] else [])
  }

  /** The order of the step list: downloading, output directory, HTTP
      address and HTTP server come first; the zvol or disk step comes fifth,
      chosen by the zvol flag; a requested VNIC step comes right after it; the
      boot-to-shutdown steps follow with a one hour wait for the guest
      address; a zvol build ends with the snapshot step. */
  lemma {:induction false} PipelineShape(useZvol: bool, vnicCreate: bool, vmName: string)
    ensures var p := Pipeline(useZvol, vnicCreate, vmName);
      var k := if vnicCreate then 6 else 5;
      && |p| == k + 7 + (if useZvol then 1 else 0)
      && p[..4] == [Download(IsoPathKey), PrepareOutputDir, HttpIpDiscover, HttpServer]
      && p[4] == (if useZvol then CreateZvol else CreateDisk)
      && (vnicCreate ==> p[5] == CreateVnic)
      && p[k..k + 7] == [ConfigureVnc, Bhyve(vmName), TypeBootCommand, WaitGuestAddress(GuestAddressTimeout), Connect, Provision, Shutdown]
      && (useZvol ==> p[|p| - 1] == CreateSnapshot)
  {
    var p := Pipeline(useZvol, vnicCreate, vmName);
    var head := [Download(IsoPathKey), PrepareOutputDir, HttpIpDiscover, HttpServer];
    var disk := [if useZvol then CreateZvol else CreateDisk];
    var vnic := if vnicCreate then [CreateVnic] else [];
    var run := [ConfigureVnc, Bhyve(vmName), TypeBootCommand, WaitGuestAddress(GuestAddressTimeout), Connect, Provision, Shutdown];
    var snap := if useZvol then [CreateSnapshot] else [];
    assert p == head + disk + vnic + run + snap;
    var k := if vnicCreate then 6 else 5;
    assert p[k..k + 7] == run;
  }

  /** The optional steps: the zvol step and the snapshot step are present
      exactly for a zvol build, the disk step exactly otherwise, and the VNIC
      step exactly when one is to be created. */
  lemma {:induction false} PipelineOptionalSteps(useZvol: bool, vnicCreate: bool, vmName: string)
    ensures var p := Pipeline(useZvol, vnicCreate, vmName);
      && (CreateZvol in p <==> useZvol) && (CreateDisk in p <==> !useZvol)
      && (CreateVnic in p <==> vnicCreate) && (CreateSnapshot in p <==> useZvol)
  {
    var p := Pipeline(useZvol, vnicCreate, vmName);
    var head := [Download(IsoPathKey), PrepareOutputDir, HttpIpDiscover, HttpServer];
    var disk := [if useZvol then CreateZvol else CreateDisk];
    var vnic := if vnicCreate then [CreateVnic] else [];
    var run := [ConfigureVnc, Bhyve(vmName), TypeBootCommand, WaitGuestAddress(GuestAddressTimeout), Connect, Provision, Shutdown];
    var snap := if useZvol then [CreateSnapshot] else [];
    assert p == head + disk + vnic + run + snap;
    assert CreateZvol in p <==> CreateZvol in disk;
    assert CreateDisk in p <==> CreateDisk in disk;
    assert CreateVnic in p <==> CreateVnic in vnic;
    assert CreateSnapshot in p <==> CreateSnapshot in snap;
  }

  /** How the build ended, from the state the runner left: a stored error
      wins over cancellation, which wins over a halt; None means the build
      goes on to produce its artifact. */
  function Classify(e: Entries): (r: Option<string>)
    requires ErrorKey in e ==> e[ErrorKey].Failure?
    ensures r.None? <==> ErrorKey !in e && CancelledKey !in e && HaltedKey !in e
    ensures ErrorKey in e ==> r == Some(e[ErrorKey].msg)
    ensures ErrorKey !in e && CancelledKey in e ==> r == Some(CancelledError)
    ensures ErrorKey !in e && CancelledKey !in e && HaltedKey in e ==> r == Some(HaltedError)
  {
    if ErrorKey in e then Some(e[ErrorKey].msg)
    else if CancelledKey in e then Some(CancelledError)
    else if HaltedKey in e then Some(HaltedError)
    else None
  }

  /** One call of the walk callback: the path, whether it is a directory, and
      the error the walk passed along with it. */
  datatype WalkEntry = WalkEntry(path: string, isDir: bool, err: Option<string>)

  /** The paths of the entries that are not directories, in walk order. */
  function NonDirPaths(walk: seq<WalkEntry>): seq<string> {
    if walk == [] then []
    else NonDirPaths(walk[..|walk| - 1]) + (if walk[|walk| - 1].isDir then [] else [walk[|walk| - 1].path])
  }

  /** The error of the first entry that carries one. */
  function FirstError(walk: seq<WalkEntry>): Option<string> {
    if walk == [] then None
    else if FirstError(walk[..|walk| - 1]).Some? then FirstError(walk[..|walk| - 1])
    else walk[|walk| - 1].err
  }

  /** Every file entry, and nothing else, is listed. */
  lemma {:induction false} NonDirPathsExact(walk: seq<WalkEntry>)
    ensures forall i :: 0 <= i < |walk| && !walk[i].isDir ==> walk[i].path in NonDirPaths(walk)
    ensures forall p :: p in NonDirPaths(walk) ==> exists i :: 0 <= i < |walk| && !walk[i].isDir && walk[i].path == p
  {
    if walk != [] {
      var init := walk[..|walk| - 1];
      NonDirPathsExact(init);
      forall i | 0 <= i < |init|
        ensures init[i] == walk[i]
      {
      }
    }
  }

  /** FirstError names the error of an entry, and no earlier entry has one;
      it is None exactly when no entry has one. */
  lemma {:induction false} FirstErrorIsFirst(walk: seq<WalkEntry>)
    ensures FirstError(walk).None? <==> forall i :: 0 <= i < |walk| ==> walk[i].err.None?
    ensures FirstError(walk).Some? ==>
              exists i :: 0 <= i < |walk| && walk[i].err == FirstError(walk)
                          && forall j :: 0 <= j < i ==> walk[j].err.None?
  {
    if walk != [] {
      var init := walk[..|walk| - 1];
      FirstErrorIsFirst(init);
      assert forall i :: 0 <= i < |init| ==> init[i] == walk[i];
      if FirstError(init).None? {
        assert FirstError(walk).Some? ==> walk[|walk| - 1].err == FirstError(walk);
      }
    }
  }

  /** The walk of the output directory with its callback: the first error
      ends the walk and is returned; otherwise every non-directory path is
      collected in walk order. */
  method CollectFiles(walk: seq<WalkEntry>) returns (r: Result<seq<string>>)
    ensures FirstError(walk).Some? ==> r == Err(FirstError(walk).value)
    ensures FirstError(walk).None? ==> r == Ok(NonDirPaths(walk))
  {
    var files := [];
    var i := 0;
    while i < |walk|
      invariant 0 <= i <= |walk|
      invariant FirstError(walk[..i]).None?
      invariant files == NonDirPaths(walk[..i])
    {
      assert walk[..i + 1][..i] == walk[..i];
      if walk[i].err.Some? {
        FirstErrorOfPrefix(walk, i + 1);
        return Err(walk[i].err.value);
      }
      if !walk[i].isDir {
        files := files + [walk[i].path];
      }
      i := i + 1;
    }
    assert walk[..i] == walk;
    r := Ok(files);
  }

  /** Once a prefix has an error, the whole walk has the same first error. */
  lemma {:induction false} FirstErrorOfPrefix(walk: seq<WalkEntry>, n: nat)
    requires n <= |walk| && FirstError(walk[..n]).Some?
    ensures FirstError(walk) == FirstError(walk[..n])
    decreases |walk| - n
  {
    if n < |walk| {
      assert walk[..n + 1][..n] == walk[..n];
      FirstErrorOfPrefix(walk, n + 1);
    } else {
      assert walk[..n] == walk;
    }
  }

  /** The build's artifact: the output directory and its files, with the
      generated data and the disk metadata; `diskName` is the VM's name. */
  datatype Artifact = Artifact(
    dir: string,
    files: seq<string>,
    generatedData: Option<Value>,
    diskName: string,
    diskSize: string)

  /** The runner: from the step list and the state it starts with, the
      state the run leaves. */
  type Runner = (seq<Step>, Entries) -> Entries

  /** state.Get(key): the stored value, or nil. */
  function Lookup(e: Entries, key: string): Option<Value> {
    if key in e then Some(e[key]) else None
  }

  class Builder {
    const config: Configuration.Config

    constructor (config: Configuration.Config)
      ensures this.config == config
    {
      this.config := config;
    }

    /** Builder.Prepare: no generated-data names, and the configuration's
        warnings, errors and defaulted fields unchanged. */
    method Prepare(decodeErr: Option<string>, sdk: Configuration.SdkResults, existing: set<string>)
      returns (generated: seq<string>, warnings: seq<string>, errs: seq<string>)
      modifies config, config.comm
      ensures generated == []
      ensures decodeErr.Some? ==> warnings == [] && errs == [decodeErr.value]
      ensures decodeErr.Some? ==> unchanged(config) && unchanged(config.comm)
      ensures decodeErr.None? ==> config.Defaulted()
      ensures decodeErr.None? ==> warnings == sdk.isoWarnings && errs == config.ErrorsFor(sdk, existing)
    {
      warnings, errs := config.Prepare(decodeErr, sdk, existing);
      generated := [];
    }

    /** The step list Builder.Run assembles from the configuration, one
        append at a time. */
    method AssembleSteps() returns (steps: seq<Step>)
      ensures steps == Pipeline(config.diskUseZvol, config.vnicCreate, config.vmName)
    {
      steps := [Download(IsoPathKey), PrepareOutputDir, HttpIpDiscover, HttpServer];
      if config.diskUseZvol {
        steps := steps + [CreateZvol];
      } else {
        steps := steps + [CreateDisk];
      }
      if config.vnicCreate {
        steps := steps + [CreateVnic];
      }
      steps := steps + [ConfigureVnc, Bhyve(config.vmName), TypeBootCommand,
                        WaitGuestAddress(GuestAddressTimeout), Connect, Provision, Shutdown];
      if config.diskUseZvol {
        steps := steps + [CreateSnapshot];
      }
    }

    /** The state a run starts with: the configuration, the debug flag, the
        hook, the UI and the driver. */
    function InitialEntries(): Entries
      reads config
    {
      map["config" := Handle("config"), "debug" := Flag(config.packerDebug),
          "hook" := Handle("hook"), "ui" := Handle("ui"), "driver" := Handle("driver")]
    }

    /** Builder.Run: the runner gets the assembled steps and the initial
        state; a stored error, a cancellation or a halt ends the build with
        that error; otherwise a walk error ends it; otherwise the artifact
        lists the output directory's files and records the generated data,
        the VM name as disk name and the disk size. */
    method Run(runner: Runner, walk: seq<WalkEntry>) returns (steps: seq<Step>, r: Result<Artifact>)
      requires forall s, e :: ErrorKey in runner(s, e) ==> runner(s, e)[ErrorKey].Failure?
      ensures steps == Pipeline(config.diskUseZvol, config.vnicCreate, config.vmName)
      ensures var final := runner(steps, InitialEntries());
        && (Classify(final).Some? ==> r == Err(Classify(final).value))
        && (Classify(final).None? && FirstError(walk).Some? ==> r == Err(FirstError(walk).value))
        && (Classify(final).None? && FirstError(walk).None? ==>
              r == Ok(Artifact(config.outputDir, NonDirPaths(walk), Lookup(final, GeneratedDataKey),
                               config.vmName, config.diskSize)))
    {
      var state := new StateBag();
      state.Put("config", Handle("config"));
      state.Put("debug", Flag(config.packerDebug));
      state.Put("hook", Handle("hook"));
      state.Put("ui", Handle("ui"));
      state.Put("driver", Handle("driver"));
      assert state.entries == InitialEntries();
      steps := AssembleSteps();
      var final := runner(steps, state.entries);
      var outcome := Classify(final);
      if outcome.Some? {
        return steps, Err(outcome.value);
      }
      var files := CollectFiles(walk);
      if files.Err? {
        return steps, Err(files.msg);
      }
      r := Ok(Artifact(config.outputDir, files.value, Lookup(final, GeneratedDataKey),
                       config.vmName, config.diskSize));
    }
  }
}

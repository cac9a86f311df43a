/** The step that creates a sparse disk image file in the output directory
    when no zvol is used. Its cleanup does nothing. */
module CreateDisk {
  import opened Text
  import opened State
  import opened Host
  import opened Configuration

  function MkfileCommand(size: string, path: string): Command {
    Exec(MkfilePath, ["-n", size, path])
  }

  const CreateError := "Error creating image: "

  /** stepCreateDisk.Run: mkfile -n at Join(output_directory, disk_name); on
      failure "error" is recorded and bhyve_disk_path is not, on success
      bhyve_disk_path is the only key written. */
  method Run(c: Config, sh: Shell, state: StateBag) returns (action: StepAction)
    modifies sh, state
    ensures var path := JoinPath(old(c.outputDir), old(c.diskName));
            var cmd := MkfileCommand(old(c.diskSize), path);
            var r := sh.world(old(sh.trace), cmd);
            && sh.trace == old(sh.trace) + [Ran(cmd, r)]
            && (action == Continue <==> r.Ok())
            && state.entries == if r.Ok() then old(state.entries)[DiskPathKey := Str(path)]
                                else old(state.entries)[ErrorKey := Failure(CreateError + TrimSpace(r.Stderr()))]
  {
    var diskPath := JoinPath(c.outputDir, c.diskName);
    var r := sh.Run(MkfileCommand(c.diskSize, diskPath));
    if !r.Ok() {
      state.Put(ErrorKey, Failure(CreateError + TrimSpace(r.Stderr())));
      return Halt;
    }
    state.Put(DiskPathKey, Str(diskPath));
    return Continue;
  }
}

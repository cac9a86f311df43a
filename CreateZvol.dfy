/** The step that creates the zvol the VM boots from, and removes it again
    when the build is cleaned up. */
module CreateZvol {
  import opened Text
  import opened State
  import opened Host
  import opened Retry
  import opened Configuration

  /** "<pool>/packer0": the one zvol name both Run and Cleanup use. */
  function ZvolPath(pool: string): string {
    pool + "/packer0"
  }

  function CreateCommand(pool: string, size: string): Command {
    Exec(ZfsPath, ["create", "-V", size, ZvolPath(pool)])
  }

  function DestroyCommand(pool: string): Command {
    Exec(ZfsPath, ["destroy", ZvolPath(pool)])
  }

  const CreateError := "Error creating zvol: "
  const DestroyError := "Error destroying zvol: "

  /** stepCreateZvol.Run: one zfs create; its failure is recorded under
      "error" and halts the build, its success writes nothing. */
  method Run(c: Config, sh: Shell, state: StateBag) returns (action: StepAction)
    modifies sh, state
    ensures var cmd := CreateCommand(old(c.diskZPool), old(c.diskSize));
            var r := sh.world(old(sh.trace), cmd);
            && sh.trace == old(sh.trace) + [Ran(cmd, r)]
            && (action == Continue <==> r.Ok())
            && state.entries == if r.Ok() then old(state.entries)
                                else old(state.entries)[ErrorKey := Failure(CreateError + TrimSpace(r.Stderr()))]
  {
    var r := sh.Run(CreateCommand(c.diskZPool, c.diskSize));
    if !r.Ok() {
      state.Put(ErrorKey, Failure(CreateError + TrimSpace(r.Stderr())));
      return Halt;
    }
    return Continue;
  }

  /** stepCreateZvol.Cleanup: zfs destroy, retried as Retry.Attempts states;
      the state bag is not touched. */
  method Cleanup(c: Config, sh: Shell)
    modifies sh
    ensures sh.trace == old(sh.trace) + Attempts(sh.world, old(sh.trace), DestroyCommand(old(c.diskZPool)), DestroyError, 1, Retries)
  {
    RunWithRetries(DestroyCommand(c.diskZPool), DestroyError, sh);
  }
}

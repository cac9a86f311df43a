/** The step that creates the VNIC the guest's network interface uses, and
    deletes it again when the build is cleaned up. The VNIC is always named
    "packer0", whatever the vnic_name setting says. */
module CreateVnic {
  import opened Text
  import opened State
  import opened Host
  import opened Retry
  import opened Configuration

  const VnicName := "packer0"

  function CreateCommand(link: string): Command {
    Exec(DladmPath, ["create-vnic", "-t", "-l", link, VnicName])
  }

  const DeleteCommand := Exec(DladmPath, ["delete-vnic", VnicName])

  const CreateError := "Error creating VNIC: "
  const DeleteError := "Error deleting VNIC: "

  /** stepCreateVNIC.Run: one dladm create-vnic over the configured link; its
      failure is recorded under "error" and halts the build, its success
      writes nothing. */
  method Run(c: Config, sh: Shell, state: StateBag) returns (action: StepAction)
    modifies sh, state
    ensures var cmd := CreateCommand(old(c.vnicLink));
            var r := sh.world(old(sh.trace), cmd);
            && sh.trace == old(sh.trace) + [Ran(cmd, r)]
            && (action == Continue <==> r.Ok())
            && state.entries == if r.Ok() then old(state.entries)
                                else old(state.entries)[ErrorKey := Failure(CreateError + TrimSpace(r.Stderr()))]
  {
    var r := sh.Run(CreateCommand(c.vnicLink));
    if !r.Ok() {
      state.Put(ErrorKey, Failure(CreateError + TrimSpace(r.Stderr())));
      return Halt;
    }
    return Continue;
  }

  /** stepCreateVNIC.Cleanup: dladm delete-vnic, retried as Retry.Attempts
      states; the state bag is not touched. */
  method Cleanup(sh: Shell)
    modifies sh
    ensures sh.trace == old(sh.trace) + Attempts(sh.world, old(sh.trace), DeleteCommand, DeleteError, 1, Retries)
  {
    RunWithRetries(DeleteCommand, DeleteError, sh);
  }
}

# bhyve builder for Packer, modelled in Dafny

This project models the core of a Packer builder plugin. The plugin builds
machine images with bhyve on illumos. It covers:

- **Configuration.** The CPU topology turns into bhyve's `-c` value.
  `Config.Prepare` fills defaults in place and collects validation errors.
  The communicator's host port range is defaulted and checked the same way.
- **Builder.** `Builder.Prepare` passes the configuration's verdict through.
  `Builder.Run`:
  - assembles the step list from the configuration;
  - hands it to the step runner;
  - classifies how the run ended: a stored error, then cancellation, then halt;
  - lists the output directory's files for the artifact.
- **Steps:**
  - create the zvol or the disk image;
  - create the VNIC;
  - discover the host's IPv4 address;
  - boot the VM with bhyve;
  - wait for the guest's address (normalise the VNIC's MAC, scan arp's table);
  - snapshot the zvol and stream it into the output directory.
  The cleanups of the zvol and VNIC steps retry up to four times; the bhyve
  step's cleanup destroys the VM.
- **Driver.** The boot and reboot argument lists, and the guards on the
  tracked process and its end channel in `Start`, `Stop`, `WaitForShutdown`
  and in the handling of one exit.

### How the outside world is modelled

The external programs are zfs, dladm, arp, mkfile, bhyve and bhyvectl. They,
the file system and process kills are answered by an oracle,
`Host.Shell.world`. The oracle maps the trace of everything that happened
before, plus the command, to that command's outcome. The outcome is either a
start error, or an exit code with the program's output. So every property
holds for every possible behaviour of those programs.

- Every run, background start, sleep and cleanup log line is appended to
  `Host.Shell.trace`.
- Whether the build's context has been cancelled is a second oracle over the
  trace.
- The SDK's own checks arrive as `Configuration.SdkResults`.
- `os.Stat` becomes the set of existing paths.
- The interface lookup becomes `HttpIpDiscover.Lookup`.
- The step runner is a function from the step list and the initial state to
  the final state.
- `filepath.Walk` becomes the sequence of callback calls it makes.

The state bag is a class over a `map<string, Value>`, written with `Put`.
Configuration objects, steps and the driver are classes whose methods update
their fields in place.

Go semantics the model writes out:

- `strings.Split("", sep)` is `[""]`.
- `strings.Fields`, `strings.TrimSpace` with Unicode white space.
- A line scanner that drops one trailing `\r` per line.
- `%d` formatting, and `%02s`, which pads with zeros.
- `net.IP.To4` for 4-byte and IPv4-mapped 16-byte addresses.
- The publishing of an `*exec.ExitError`'s `ExitCode()`, and 0 for any
  other wait error.

## Model

| member | source | states |
|---|---|---|
| Cpu.CPUConfig.MaxCPUs | builder/bhyve/config.go:63-85 | sockets×cores×threads when all three are positive. With no sockets: the cores, times the threads when threads are positive. With neither: the threads. For non-negative counts the result is 0 exactly when every count is 0. |
| Cpu.CPUConfig.CpusValue | builder/bhyve/config.go:32-47 | A cpus of 0 becomes the topology maximum. A count above a non-zero maximum is clamped to it. The value never exceeds a non-zero maximum. |
| Cpu.CPUConfig.Cmdline | builder/bhyve/config.go:26-61 | The -c value is exactly "1" when both the maximum and cpus are 0. Otherwise it starts with "cpus=". |
| Cpu.CmdlineFields | builder/bhyve/config.go:49-60 | Split at commas, the -c value is "cpus=N", then sockets=, cores= and threads=, in that order, each present exactly when its count is positive. |
| Cpu.CPUConfig.CountText | builder/bhyve/config.go:49-60 | The text built by the successive appends starts with "cpus=". |
| Cpu.CountTextIsJoin | builder/bhyve/config.go:49-60 | The successive Sprintf appends equal the comma join of those fields. |
| Cpu.FieldsHaveNoComma | builder/bhyve/config.go:49-60 | No field holds a comma, since counts print as decimal digits. |
| Cpu.CountTextFields | builder/bhyve/config.go:49-60 | Split at commas, the appended text gives back exactly the fields it was built from. |
| Comm.HostPortErrors | builder/bhyve/comm_config.go:28-35 | No error exactly when 0 <= min <= max. The range error is present exactly when min > max, and it comes first. The sign error is present exactly when min < 0, and it comes last. |
| Comm.CommConfig.Prepare | builder/bhyve/comm_config.go:17-38 | Zero ports become 2222 and 4444, non-zero ones are kept. The errors are the communicator's, then the range and sign checks on the defaulted ports. No warnings. |
| Configuration.VncPortErrors | builder/bhyve/config.go:194-207 | No VNC port error exactly when 5900 <= min <= max <= 65535. Each of the three messages is present exactly when its own condition holds. |
| Configuration.Config.FillDiskDefaults | builder/bhyve/config.go:147-162 | An empty disk name becomes "disk-<build name>" and an empty pool "zones". Memory below 10 becomes 512. Other values are kept. |
| Configuration.Config.FillOutputDefaults | builder/bhyve/config.go:164-177 | An empty output directory becomes "output-<build name>" and an empty VM name "packer-<build name>". Other values are kept. |
| Configuration.Config.FillVncDefaults | builder/bhyve/config.go:179-189 | An empty bind address becomes 127.0.0.1. Zero VNC ports become 5900 and 6000. Other values are kept. |
| Configuration.Config.FillVnicDefaults | builder/bhyve/config.go:209-215 | An empty VNIC link takes host_nic. An empty VNIC name becomes "packer0". Other values are kept. |
| Configuration.Config.FillDefaults | builder/bhyve/config.go:147-215 | All ten defaults together; a non-empty (non-zero) field keeps its value. |
| Configuration.Config.SetDefaults | builder/bhyve/config.go:141-215 | Defaulted: all ten defaults plus the communicator's zero ports defaulted; every other field, host_nic and the build name included, unchanged. The communicator gives no warning. |
| Configuration.Config.PrepareDecoded | builder/bhyve/config.go:133-221 | Defaulted: all defaults, including the communicator ports. Every other field is unchanged. The warnings are the ISO warnings. The errors are the SDK errors, the host port errors, the disk size error, the existing-output-directory error (unless forced), the CD and VNC SDK errors and the VNC port errors, in that order. |
| Configuration.Config.Prepare | builder/bhyve/config.go:117-222 | A decoding error is returned alone and nothing is touched. Otherwise the fields are Defaulted and the warnings and errors are those of PrepareDecoded. |
| Configuration.ErrorsForEmpty | builder/bhyve/config.go:133-221 | Prepare reports no error exactly when: every SDK check passed, 0 <= host_port_min <= host_port_max, a disk size is given, the output directory is absent or force is set, and 5900 <= vnc_port_min <= vnc_port_max <= 65535. |
| GuestAddress.PadOctet | builder/bhyve/step_wait_guest_address.go:87-89 | %02s: the width is max(2, length). The octet is kept at the end. Only '0's are added, in front. |
| GuestAddress.PadJoin | builder/bhyve/step_wait_guest_address.go:84-93 | The loop builds exactly the padded octets joined by ':'. The result is never empty. |
| GuestAddress.MacStep | builder/bhyve/step_wait_guest_address.go:86-90 | One pass appends the next padded octet, after a ':' unless it is the first, to the join of those before it. |
| GuestAddress.NormalizeMac | builder/bhyve/step_wait_guest_address.go:84-93 | The normalisation of dladm's output is exactly NormalizedMac, and never empty. |
| GuestAddress.MacOctets | builder/bhyve/step_wait_guest_address.go:84-93 | Splitting the normalised MAC at ':' gives back dladm's trimmed octets one for one, each padded to width 2. |
| GuestAddress.FirstWhere | builder/bhyve/step_wait_guest_address.go:118-134 | The index of the first row from a start on that passes the row test, or the row count when none does; no row before it passes. |
| GuestAddress.FirstListing | builder/bhyve/step_wait_guest_address.go:118-134 | The index of the first row from a start on that lists the MAC (the 4th of 4 fields or the 5th of 5), or the row count when none does. |
| GuestAddress.ScanAnswerFirst | builder/bhyve/step_wait_guest_address.go:112-137 | The scan answers "" exactly when no row after the three header lines lists the MAC. Otherwise the answer is the address of a row that lists the MAC, and no earlier row after the headers lists it. |
| GuestAddress.ScanArpTable | builder/bhyve/step_wait_guest_address.go:112-137 | The loop returns exactly ScanAnswer: the second field of the first listing row after the headers, or "". |
| GuestAddress.GetVnicMac | builder/bhyve/step_wait_guest_address.go:63-94 | Exactly one `dladm show-vnic -p -o macaddress <vnic>` run. "" exactly when it fails, the normalised MAC of its output otherwise. |
| GuestAddress.GetVnicIp | builder/bhyve/step_wait_guest_address.go:96-138 | Exactly one `arp -a -n` start. "" when it cannot start, otherwise the scan's answer for its output lines. |
| GuestAddress.PollsWithinTimeout | builder/bhyve/step_wait_guest_address.go:44-57 | The 10 s waits of the poll loop never add up past the timeout. |
| GuestAddress.PollsHaltReason | builder/bhyve/step_wait_guest_address.go:44-57 | When the last poll found nothing, the loop ended because the context was cancelled or because one more 10 s wait would pass the timeout. |
| GuestAddress.PollsStopAtFirstAnswer | builder/bhyve/step_wait_guest_address.go:44-57 | The loop records only arp starts and 10 s waits, and every poll before the last answered "": the loop stops at the first answer. |
| GuestAddress.PollOnce | builder/bhyve/step_wait_guest_address.go:45-56 | One pass: one arp start whose answer is returned. It stops on an answer, a cancellation or the coming deadline, and otherwise sleeps 10 s. |
| GuestAddress.WaitForAddress | builder/bhyve/step_wait_guest_address.go:44-57 | The trace gains exactly Polls. Continue exactly when the last poll answered, with only guestAddress written, holding that answer. Halt leaves the state as it was, and only on a cancellation or the timeout. Every poll before the last answered "". |
| GuestAddress.Run | builder/bhyve/step_wait_guest_address.go:26-58 | No MAC: "error" is put and the step halts without polling. Otherwise one dladm run, then WaitForAddress's trace and outcome for the normalised MAC: Continue with the first non-empty answer, Halt only on a cancellation or the timeout. |
| Retry.Attempt | builder/bhyve/step_create_zvol.go:62-73 | One pass of the loop body. Success stops. A failed last attempt logs and stops. Any other failure sleeps 5 s and continues. |
| Retry.RunWithRetries | builder/bhyve/step_create_zvol.go:60-74 | The trace gains exactly Attempts from attempt 1 to 4. |
| Retry.AttemptsCount | builder/bhyve/step_create_vnic.go:59-73 | Between 1 and 4 runs, and at most one log line. |
| Retry.StopsAtFirstSuccess | builder/bhyve/step_create_vnic.go:59-73 | Only the one command is run. A successful run is always the last event: the loop stops at the first success. |
| Retry.AllAttemptsFail | builder/bhyve/step_create_zvol.go:60-74 | When no attempt succeeds: exactly 4 runs, 3 sleeps and one log line. |
| CreateZvol.Run | builder/bhyve/step_create_zvol.go:18-43 | Exactly one `zfs create -V <size> <pool>/packer0`. Continue exactly when it succeeds, with the state unchanged. On failure, "error" is "Error creating zvol: " plus the trimmed stderr, and nothing else changes. |
| CreateZvol.Cleanup | builder/bhyve/step_create_zvol.go:45-75 | `zfs destroy <pool>/packer0`, retried as Attempts states, with the "Error destroying zvol: " log. |
| CreateVnic.Run | builder/bhyve/step_create_vnic.go:20-44 | Exactly one `dladm create-vnic -t -l <link> packer0`. Continue exactly when it succeeds. Otherwise only "error" is written. |
| CreateVnic.Cleanup | builder/bhyve/step_create_vnic.go:46-74 | `dladm delete-vnic packer0`, retried as Attempts states, with the "Error deleting VNIC: " log. |
| CreateDisk.Run | builder/bhyve/step_create_disk.go:17-43 | Exactly one `mkfile -n <size> <Join(output dir, disk name)>`. On success only bhyve_disk_path is written, with that path. On failure only "error" is written. |
| CreateSnapshot.ErrorText | builder/bhyve/step_create_snapshot.go:33-35 | A failed operation's message starts with that operation's prefix. |
| CreateSnapshot.PerformInOrder | builder/bhyve/step_create_snapshot.go:26-76 | The operations run in list order, each at most once, starting with the first. |
| CreateSnapshot.PerformSucceeds | builder/bhyve/step_create_snapshot.go:31-77 | No error is recorded exactly when all operations ran and every one succeeded. |
| CreateSnapshot.PerformFails | builder/bhyve/step_create_snapshot.go:31-72 | When an error is recorded, the last operation run failed, all earlier ones succeeded, and the message starts with the failed operation's prefix. |
| CreateSnapshot.Perform1 | builder/bhyve/step_create_snapshot.go:31-38 | One block: one run. The shared stderr buffer grows by that command's stderr. A failure writes only "error", with ErrorText. |
| CreateSnapshot.PerformAll | builder/bhyve/step_create_snapshot.go:22-77 | The trace gains exactly Events of the list. The result is true exactly when FirstFailure is none. On failure "error" holds that message and nothing else changes. |
| CreateSnapshot.Run | builder/bhyve/step_create_snapshot.go:18-78 | PerformAll's result for `zfs snapshot`, creating the output file, `zfs send` into it and `zfs destroy`, in that order. Continue exactly when none failed. |
| HttpIpDiscover.To4 | builder/bhyve/step_http_ip_discover.go:46-49 | An IPv4 form exists exactly for 4-byte and IPv4-mapped 16-byte addresses. It is their last four bytes. |
| HttpIpDiscover.DottedQuadReadsBack | builder/bhyve/step_http_ip_discover.go:50 | The dotted text splits into four decimal numbers that parse back to the four bytes. |
| HttpIpDiscover.FirstIPv4IsFirst | builder/bhyve/step_http_ip_discover.go:35-52 | Nothing is found exactly when no entry has an IPv4 form. Otherwise the result is the form of an entry that no earlier entry has. |
| HttpIpDiscover.SelectHostIP | builder/bhyve/step_http_ip_discover.go:35-52 | The loop yields the dotted form of the first IPv4 entry, or "" when there is none. |
| HttpIpDiscover.Run | builder/bhyve/step_http_ip_discover.go:17-63 | Lookup failure, or no IPv4 address: Halt with the state untouched. Otherwise http_ip is the only key written, and the step continues. |
| Host.WaitOf | builder/bhyve/step_bhyve.go:65-76 | A started program's wait is clean exactly when it exited with status 0. Otherwise it is an ExitError. |
| Host.ExitRc | builder/bhyve/driver.go:105-109 | A non-zero published code is always the ExitError's code. A clean exit and any other error publish 0. |
| Host.ExitRcIsExitStatus | builder/bhyve/step_bhyve.go:64-78 | For a started program the published code is its exit status, whichever way it ended. |
| VmArgs.SlotArgsAt | builder/bhyve/step_bhyve.go:36-45 | Each device becomes the pair "-s", "<slot>,<emulation>", in device order: word 2k is "-s" and word 2k+1 is device k's. |
| VmArgs.SlotReadsBack | builder/bhyve/step_bhyve.go:36-45 | A device word read up to its first comma gives back the device's slot. |
| StepBhyve.SlotsDistinct | builder/bhyve/step_bhyve.go:24-45 | The VM's devices sit on the distinct slots 0, 1, 2, 5, 29, 30 and 31. |
| StepBhyve.ArgsShape | builder/bhyve/step_bhyve.go:31-45 | 23 words: the fixed options, the seven device arguments, the name last. The CD argument is "2,ahci-cd,<iso>". |
| StepBhyve.ArgsSlots | builder/bhyve/step_bhyve.go:24-45 | Every device argument follows a "-s" and names its intended slot before its first comma. |
| StepBhyve.StepBhyve.Run | builder/bhyve/step_bhyve.go:20-87 | Exactly one bhyve start with those arguments. Halt exactly when it fails, and then nothing is stored. Otherwise a fresh, empty end channel is set and the argument list is kept for the watcher. |
| StepBhyve.StepBhyve.Watch | builder/bhyve/step_bhyve.go:63-82 | Exactly one code is sent: 0 after a clean exit, else ExitRc. A clean exit relaunches with the argument list Run kept, CD included. The end channel is cleared. |
| StepBhyve.StepBhyve.Cleanup | builder/bhyve/step_bhyve.go:89-105 | Exactly `bhyvectl --vm=<name> --destroy`. A failure only adds the "Error stopping VM: " log line. |
| Driver.BootRebootShareCommon | builder/bhyve/driver.go:38-68 | Both lists start with the same 20 common words and end with the VM name. The boot list adds only "-s", "3,ahci-cd,<iso>" before the name. |
| Driver.BootArgsAsDevices | builder/bhyve/driver.go:38-64 | The boot list is the fixed options, one -s pair per common device and then the CD, then the name. |
| Driver.SlotArgsAppend | builder/bhyve/driver.go:59-64 | Appending devices appends their -s pairs. |
| Driver.BootSlotsDistinct | builder/bhyve/driver.go:29-54 | The boot devices use the distinct slots 0, 4, 6, 30:0, 30:1, 31 and 3. |
| Driver.BootArgsSlots | builder/bhyve/driver.go:38-64 | Every boot device argument follows a "-s" and names its intended slot before its first comma. |
| Driver.BhyveDriver.Start | builder/bhyve/driver.go:26-123 | Requires no tracked process (otherwise a panic). One bhyve start with the boot list. On failure: "Error starting VM: <err>", nothing tracked, channel unchanged. On success: the new process and a fresh, empty end channel are tracked, and the reboot list is kept for the watcher. |
| Driver.BhyveDriver.Stop | builder/bhyve/driver.go:125-136 | Nothing tracked: no effect and no error. Otherwise exactly one kill of the tracked process, whose error is returned. |
| Driver.BhyveDriver.WaitForShutdown | builder/bhyve/driver.go:138-153 | True at once without an end channel. Otherwise true exactly when the end channel delivers before the cancellation. |
| Driver.BhyveDriver.HandleExit | builder/bhyve/driver.go:92-117 | Clean exit: relaunch with the reboot list Start kept, track the new command, send nothing. Any other outcome: send ExitRc and clear both the process and the channel. |
| Builder.PipelineShape | builder/bhyve/builder.go:51-102 | The steps start download, output directory, HTTP address, HTTP server. The zvol or disk step is fifth, chosen by the zvol flag. A requested VNIC step comes right after it. Then come VNC, bhyve, boot command, a 3600 s guest-address wait, connect, provision and shutdown. A zvol build ends with the snapshot step. |
| Builder.PipelineOptionalSteps | builder/bhyve/builder.go:51-102 | The zvol and snapshot steps are present exactly for a zvol build, the disk step exactly otherwise, and the VNIC step exactly when requested. |
| Builder.Classify | builder/bhyve/builder.go:108-119 | A stored error wins, then "Build was cancelled.", then "Build was halted.". None exactly when none of the three keys is set. |
| Builder.NonDirPathsExact | builder/bhyve/builder.go:121-130 | Every non-directory entry is listed, and nothing else. |
| Builder.FirstErrorIsFirst | builder/bhyve/builder.go:121-134 | The walk's error is that of an entry with no earlier error. None exactly when no entry has one. |
| Builder.FirstErrorOfPrefix | builder/bhyve/builder.go:121-134 | An error in a prefix of the walk is the walk's error. |
| Builder.CollectFiles | builder/bhyve/builder.go:120-134 | The walk's first error is returned. Without one, the non-directory paths in walk order. |
| Builder.Builder.Prepare | builder/bhyve/builder.go:26-33 | No generated-data names. The configuration's warnings and errors are passed through unchanged, and its fields are left as Config.Prepare leaves them. |
| Builder.Builder.AssembleSteps | builder/bhyve/builder.go:51-102 | The appends build exactly Pipeline for the zvol flag, the VNIC flag and the VM name. |
| Builder.Builder.Run | builder/bhyve/builder.go:35-147 | The runner gets those steps and a state holding config, debug, hook, ui and driver. A Classify verdict is returned as the error. Next, a walk error. Otherwise the artifact: the output directory, its files, generated_data, the VM name as diskName and the disk size. |

## Left out

- Decoding of the template and the SDK's sub-configuration checks (ISO, HTTP, shutdown, CD, VNC, communicator). Their results are inputs.
- Every `log`/`ui` message except the cleanup failures, which are all a retrying cleanup or the bhyvectl destroy leaves behind. Messages change no state.
- Wall-clock time: the 5 s retry sleeps are recorded as events. The guest-address poll is modelled as 10 s ticks against the timeout, with cancellation as an oracle. The race between the timer and the context is not modelled: the model stops at the last tick before the deadline. The poll answer's link to the MAC is a ghost parameter of `GuestAddress.WaitForAddress`, and Run's normalised MAC is a ghost result.
- The goroutine watchers, the mutexes and channel interleavings. Only the handling of one exit is modelled, as a sequential method (`StepBhyve.StepBhyve.Watch`, `Driver.BhyveDriver.HandleExit`).
- The driver's watcher loop as a whole: on its next pass it waits again on the first process and still holds the lock from the deferred unlock. Its behaviour after a reboot is a concurrency matter and is not modelled.
- Driver.BhyveDriver.WaitForShutdown: the value taken from the end channel is not modelled, and which of the two channels is ready first is a parameter.
- Driver.BhyveDriver.Stop: the kill is an oracle command. The error text of a failed kill is given as the exit-status or start-error text.
- GuestAddress.GetVnicIp: a failing `StdoutPipe` is not modelled. A started arp is assumed to deliver its complete output, and the final `cmd.Wait` is not modelled.
- GuestAddress.GetVnicMac: the failure log line is not modelled.
- Cpu.CPUConfig.MaxCPUs: Go's 64-bit overflow of the products is not modelled; integers are unbounded.
- Text.JoinPath: `filepath.Join` without its `Clean` step, so paths with "." or ".." or repeated separators are not normalised.
- The empty `Cleanup` methods of the disk, snapshot, HTTP-address and guest-address steps. They do nothing and have no member.
- CreateSnapshot.Run: the source writes the four operations out one after another, each with the same early return. The model runs them as the iterations of one loop over `Ops`. Closing the output file is not modelled.
- Builder.Builder.Run: the step runner, the steps it runs whose files are not part of this model (download, output directory, HTTP server, VNC, boot command, connect, provision, shutdown), and `filepath.Walk` are oracles. The type assertion on a stored error is a precondition on the runner.
- The plugin's registration in main.go.

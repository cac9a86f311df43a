/** The build's state bag (multistep.BasicStateBag): a keyed store that every
    step reads and writes in place. Values are tagged by the Go type the code
    stores under each key; handles to objects the model does not follow (the
    config pointer, the UI, the hook, the driver) are kept by name only. */
module State {

  datatype Value =
    | Str(s: string)          // a Go string
    | Num(n: int)             // a Go int
    | Flag(b: bool)           // a Go bool
    | Failure(msg: string)    // a Go error, by its Error() text
    | Handle(name: string)    // a pointer or interface the model does not follow

  type Entries = map<string, Value>

  /** multistep.StepAction: what a step's Run tells the runner. */
  datatype StepAction = Continue | Halt

  const ErrorKey := "error"
  const CancelledKey := "cancelled"          // multistep.StateCancelled
  const HaltedKey := "halted"                // multistep.StateHalted
  const DiskPathKey := "bhyve_disk_path"
  const HttpIpKey := "http_ip"
  const GuestAddressKey := "guestAddress"
  const IsoPathKey := "iso_path"
  const VncPortKey := "vnc_port"
  const VncPasswordKey := "vnc_password"
  const GeneratedDataKey := "generated_data"

  /** state.Get(key).(string) succeeds. */
  predicate HasStr(e: Entries, key: string) {
    key in e && e[key].Str?
  }

  /** state.Get(key).(int) succeeds. */
  predicate HasNum(e: Entries, key: string) {
    key in e && e[key].Num?
  }

  class StateBag {
    var entries: Entries

    constructor ()
      ensures entries == map[]
    {
      entries := map[];
    }

    /** state.Put: overwrites one key and leaves every other key as it was. */
    method Put(key: string, v: Value)
      modifies this
      ensures entries == old(entries)[key := v]
    {
      entries := entries[key := v];
    }
  }
}

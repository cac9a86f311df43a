/** The communicator part of the configuration: the host port range used to
    reach the guest, defaulted and checked in place. */
module Comm {

  const DefaultHostPortMin := 2222
  const DefaultHostPortMax := 4444
  const HostPortRangeError := "host_port_min must be less than host_port_max"
  const HostPortSignError := "host_port_min must be positive"

  /** The checks Prepare makes itself, in the order it appends their errors:
      the range check first, then the sign check. */
  function HostPortErrors(min: int, max: int): (r: seq<string>)
    ensures r == [] <==> 0 <= min <= max
    ensures |r| <= 2
    ensures HostPortRangeError in r <==> min > max
    ensures HostPortSignError in r <==> min < 0
    ensures min > max ==> r[0] == HostPortRangeError
    ensures min < 0 ==> r[|r| - 1] == HostPortSignError
  {
    (if min > max then [HostPortRangeError] else [])
      + (if min < 0 then [HostPortSignError] else [])
  }

  class CommConfig {
    var hostPortMin: int
    var hostPortMax: int

    constructor (hostPortMin: int, hostPortMax: int)
      ensures this.hostPortMin == hostPortMin && this.hostPortMax == hostPortMax
    {
      this.hostPortMin := hostPortMin;
      this.hostPortMax := hostPortMax;
    }

    /** Fills the port defaults, then appends its own checks after the errors
        of the embedded communicator configuration (`commErrs`, produced by the
        SDK). It never produces a warning. */
    method Prepare(commErrs: seq<string>) returns (warnings: seq<string>, errs: seq<string>)
      modifies this
      ensures hostPortMin == (if old(hostPortMin) == 0 then DefaultHostPortMin else old(hostPortMin))
      ensures hostPortMax == (if old(hostPortMax) == 0 then DefaultHostPortMax else old(hostPortMax))
      ensures warnings == []
      ensures errs == commErrs + HostPortErrors(hostPortMin, hostPortMax)
    {
      if hostPortMin == 0 {
        hostPortMin := DefaultHostPortMin;
      }
      if hostPortMax == 0 {
        hostPortMax := DefaultHostPortMax;
      }
      warnings := [];
      errs := commErrs;
      if hostPortMin > hostPortMax {
        errs := errs + [HostPortRangeError];
      }
      if hostPortMin < 0 {
        errs := errs + [HostPortSignError];
      }
    }
  }
}

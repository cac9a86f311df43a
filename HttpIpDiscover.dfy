/** The step that finds the host's IPv4 address on the NIC the VNIC is
    created over, for the HTTP server the guest's installer fetches from. */
module HttpIpDiscover {
  import opened Wrappers
  import opened Text
  import opened State
  import opened Configuration

  type Byte = b: int | 0 <= b < 256

  /** The net.Addr values an interface reports: *net.IPNet, *net.IPAddr, or
      some other implementation. A nil IP is the empty sequence. */
  datatype Addr = IPNet(ip: seq<Byte>) | IPAddr(ip: seq<Byte>) | OtherAddr

  /** What net.InterfaceByName(host_nic) and its Addrs() answered. */
  datatype Lookup =
    | NoSuchInterface(err: string)
    | AddrsFailed(err: string)
    | Addresses(addrs: seq<Addr>)

  const V4InV6Prefix: seq<Byte> := [0, 0, 0, 0, 0, 0, 0, 0, 0, 0, 255, 255]

  /** net.IP.To4: a four-byte address as it is, the last four bytes of an
      IPv4-mapped sixteen-byte address, nothing otherwise. */
  function To4(ip: seq<Byte>): (r: Option<seq<Byte>>)
    ensures r.Some? <==> |ip| == 4 || (|ip| == 16 && ip[..12] == V4InV6Prefix)
    ensures r.Some? ==> |r.value| == 4 && r.value == ip[|ip| - 4..]
  {
    if |ip| == 4 then Some(ip)
    else if |ip| == 16 && ip[..12] == V4InV6Prefix then Some(ip[12..])
    else None
  }

  /** The IPv4 form of an address entry, if it has one. */
  function IPv4Of(a: Addr): (r: Option<seq<Byte>>)
    ensures r.Some? ==> |r.value| == 4
  {
    match a
    case IPNet(ip) => To4(ip)
    case IPAddr(ip) => To4(ip)
    case OtherAddr => None
  }

  /** net.IP.String() of a four-byte address: dotted decimal. */
  function DottedQuad(ip: seq<Byte>): string
    requires |ip| == 4
  {
    Join([Itoa(ip[0]), Itoa(ip[1]), Itoa(ip[2]), Itoa(ip[3])], '.')
  }

  /** The dotted text splits back into four decimal numbers that are the four
      bytes, so no address is lost or confused with another. */
  lemma DottedQuadReadsBack(ip: seq<Byte>)
    requires |ip| == 4
    ensures var parts := Split(DottedQuad(ip), '.');
            |parts| == 4 && forall k :: 0 <= k < 4 ==> parts[k] == Itoa(ip[k]) && ParseInt(parts[k]) == ip[k]
  {
    var parts := [Itoa(ip[0]), Itoa(ip[1]), Itoa(ip[2]), Itoa(ip[3])];
    forall k | 0 <= k < 4
      ensures '.' !in parts[k] && ParseInt(parts[k]) == ip[k]
    {
      ItoaHasNoSeparator(ip[k], '.');
      ItoaRoundTrip(ip[k]);
    }
    SplitJoin(parts, '.');
  }

  /** The first entry, in list order, with an IPv4 form. */
  function FirstIPv4(addrs: seq<Addr>): (r: Option<seq<Byte>>)
    ensures r.Some? ==> |r.value| == 4
  {
    if addrs == [] then None
    else if IPv4Of(addrs[0]).Some? then IPv4Of(addrs[0])
    else FirstIPv4(addrs[1..])
  }

  /** FirstIPv4 finds nothing exactly when no entry has an IPv4 form, and
      otherwise the form of an entry that no earlier entry has. */
  lemma {:induction false} FirstIPv4IsFirst(addrs: seq<Addr>)
    ensures FirstIPv4(addrs).None? <==> forall i :: 0 <= i < |addrs| ==> IPv4Of(addrs[i]).None?
    ensures FirstIPv4(addrs).Some? ==>
              exists i :: 0 <= i < |addrs| && IPv4Of(addrs[i]) == FirstIPv4(addrs)
                          && forall j :: 0 <= j < i ==> IPv4Of(addrs[j]).None?
  {
    if addrs != [] && IPv4Of(addrs[0]).None? {
      var rest := addrs[1..];
      FirstIPv4IsFirst(rest);
      assert forall i :: 0 < i < |addrs| ==> addrs[i] == rest[i - 1];
      if FirstIPv4(rest).Some? {
        var i :| 0 <= i < |rest| && IPv4Of(rest[i]) == FirstIPv4(rest)
                 && forall j :: 0 <= j < i ==> IPv4Of(rest[j]).None?;
        assert IPv4Of(addrs[i + 1]) == FirstIPv4(addrs);
        assert forall j :: 0 <= j < i + 1 ==> IPv4Of(addrs[j]).None?;
      }
    } else if addrs != [] {
      assert IPv4Of(addrs[0]) == FirstIPv4(addrs);
    }
  }

  /** The loop over the addresses: the first entry with an IPv4 form gives
      the host IP, and "" means there was none. */
  method SelectHostIP(addrs: seq<Addr>) returns (hostIP: string)
    ensures FirstIPv4(addrs).None? ==> hostIP == ""
    ensures FirstIPv4(addrs).Some? ==> hostIP == DottedQuad(FirstIPv4(addrs).value)
  {
    hostIP := "";
    var i := 0;
    while i < |addrs|
      invariant 0 <= i <= |addrs|
      invariant hostIP == ""
      invariant FirstIPv4(addrs) == FirstIPv4(addrs[i..])
    {
      var ip: seq<Byte> := [];
      match addrs[i] {
        case IPNet(v) => ip := v;
        case IPAddr(v) => ip := v;
        case OtherAddr =>
      }
      assert addrs[i..][1..] == addrs[i + 1..];
      if ip == [] {
        i := i + 1;
        continue;
      }
      var v4 := To4(ip);
      if v4.None? {
        i := i + 1;
        continue;
      }
      hostIP := DottedQuad(v4.value);
      break;
    }
  }

  /** stepHTTPIPDiscover.Run: every failure halts without touching the state
      bag; success records the address under "http_ip". */
  method Run(lookup: Lookup, state: StateBag) returns (action: StepAction)
    modifies state
    ensures !lookup.Addresses? ==> action == Halt && state.entries == old(state.entries)
    ensures lookup.Addresses? ==>
              var v := FirstIPv4(lookup.addrs);
              && (action == Continue <==> v.Some?)
              && state.entries == if v.Some? then old(state.entries)[HttpIpKey := Str(DottedQuad(v.value))]
                                  else old(state.entries)
  {
    if lookup.NoSuchInterface? || lookup.AddrsFailed? {
      return Halt;
    }
    var hostIP := SelectHostIP(lookup.addrs);
    if hostIP == "" {
      return Halt;
    }
    state.Put(HttpIpKey, Str(hostIP));
    return Continue;
  }
}

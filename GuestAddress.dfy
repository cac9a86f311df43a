/** Discovery of the guest's IP address: the MAC address of the build VNIC is
    read with dladm (which prints octets without leading zeros) and padded,
    then arp's table is polled until a row lists that MAC. */
module GuestAddress {
  import opened Text
  import opened State
  import opened Host

  const PollSeconds := 10
  const MacLookupError := "Error getting VNIC MAC address"

  function ShowVnicMac(vnic: string): Command {
    Exec(DladmPath, ["show-vnic", "-p", "-o", "macaddress", vnic])
  }

  const ArpTable := Exec(ArpPath, ["-a", "-n"])

  // ---------------------------------------------------------------------------
  // MAC normalisation

  /** fmt.Sprintf("%02s", item): the item left-padded with '0' to width 2. */
  function PadOctet(item: string): (r: string)
    ensures |r| == if |item| < 2 then 2 else |item|
    ensures r[|r| - |item|..] == item
    ensures forall i :: 0 <= i < |r| - |item| ==> r[i] == '0'
  {
    if |item| < 2 then Zeros(2 - |item|) + item else item
  }

  function PadAll(items: seq<string>): (r: seq<string>)
    ensures |r| == |items|
  {
    seq(|items|, i requires 0 <= i < |items| => PadOctet(items[i]))
  }

  /** The MAC address get_vnic_mac builds from dladm's output. */
  function NormalizedMac(out: string): string {
    Join(PadAll(Split(TrimSpace(out), ':')), ':')
  }

  lemma PadAllPrefix(items: seq<string>, i: nat)
    requires i < |items|
    ensures PadAll(items[..i + 1]) == PadAll(items[..i]) + [PadOctet(items[i])]
  {
    assert items[..i + 1] == items[..i] + [items[i]];
  }

  /** The loop of get_vnic_mac: octets are padded and joined by ':' one by one. */
  method PadJoin(items: seq<string>) returns (mac: string)
    requires items != []
    ensures mac == Join(PadAll(items), ':')
    ensures mac != ""
  {
    mac := "";
    var i := 0;
    while i < |items|
      invariant 0 <= i <= |items|
      invariant (i == 0 && mac == "") || (0 < i && mac == Join(PadAll(items[..i]), ':') && mac != "")
    {
      var octet := PadOctet(items[i]);
      MacStep(items, i, mac);
      if mac == "" {
        mac := octet;
      } else {
        mac := mac + ":" + octet;
      }
      i := i + 1;
    }
    assert items[..i] == items;
  }

  /** get_vnic_mac's normalisation of dladm's output. */
  method NormalizeMac(out: string) returns (mac: string)
    ensures mac == NormalizedMac(out)
    ensures mac != ""
  {
    mac := PadJoin(Split(TrimSpace(out), ':'));
  }

  /** One pass of get_vnic_mac's loop appends the next padded octet to the
      join of those before it. */
  lemma MacStep(items: seq<string>, i: nat, mac: string)
    requires i < |items|
    requires (i == 0 && mac == "") || (0 < i && mac == Join(PadAll(items[..i]), ':') && mac != "")
    ensures var octet := PadOctet(items[i]);
            var next := if mac == "" then octet else mac + ":" + octet;
            next == Join(PadAll(items[..i + 1]), ':') && next != ""
  {
    var octet := PadOctet(items[i]);
    PadAllPrefix(items, i);
    if i == 0 {
      assert PadAll(items[..0]) == [];
    } else {
      JoinSnoc(PadAll(items[..i]), octet, ':');
    }
  }

  /** Padding adds only zeros, so an octet without ':' stays without one. */
  lemma PadOctetNoColon(item: string)
    requires ':' !in item
    ensures ':' !in PadOctet(item)
  {
    var r := PadOctet(item);
    forall k | 0 <= k < |r|
      ensures r[k] != ':'
    {
      if k >= |r| - |item| {
        assert r[k] == r[|r| - |item|..][k - (|r| - |item|)];
      }
    }
  }

  /** The normalised MAC has exactly as many ':'-separated octets as dladm's
      trimmed output, each of them that octet padded to width 2. */
  lemma MacOctets(out: string)
    ensures Split(NormalizedMac(out), ':') == PadAll(Split(TrimSpace(out), ':'))
  {
    var items := Split(TrimSpace(out), ':');
    var padded := PadAll(items);
    forall i | 0 <= i < |padded|
      ensures ':' !in padded[i]
    {
      PadOctetNoColon(items[i]);
    }
    SplitJoin(padded, ':');
  }

  // ---------------------------------------------------------------------------
  // The arp table

  /** An arp row lists `mac` as its physical address: with an empty "Flags"
      column it has four fields and the address is the fourth, otherwise five
      and the address is the fifth. */
  predicate ListsMac(row: string, mac: string) {
    var f := Fields(row);
    (|f| == 4 && f[3] == mac) || (|f| == 5 && f[4] == mac)
  }

  /** Some row after the three header lines lists `mac` and has `ip` as its
      second field. */
  predicate ListedIn(lines: seq<string>, mac: string, ip: string) {
    exists i :: 3 <= i < |lines| && ListsMac(lines[i], mac) && Fields(lines[i])[1] == ip
  }

  /** The index of the first of `lines` from i on that satisfies `p`, or
      |lines| when none does. */
  function FirstWhere(lines: seq<string>, p: string -> bool, i: nat): (j: nat)
    ensures j == |lines| || (i <= j < |lines| && p(lines[j]))
    ensures forall m :: i <= m < j && m < |lines| ==> !p(lines[m])
    decreases |lines| - i
  {
    if i >= |lines| then |lines|
    else if p(lines[i]) then i
    else FirstWhere(lines, p, i + 1)
  }

  /** The index of the first row from i on that lists `mac`, or |lines| when
      none does. */
  function FirstListing(lines: seq<string>, mac: string, i: nat): (j: nat)
    ensures j == |lines| || (i <= j < |lines| && ListsMac(lines[j], mac))
    ensures forall m :: i <= m < j && m < |lines| ==> !ListsMac(lines[m], mac)
  {
    FirstWhere(lines, row => ListsMac(row, mac), i)
  }

  /** What the scan of get_vnic_ip answers: the second field of the first row
      after the three header lines that lists `mac`, or "" when none does. */
  function ScanAnswer(lines: seq<string>, mac: string): string {
    var j := FirstListing(lines, mac, 3);
    if j < |lines| then Fields(lines[j])[1] else ""
  }

  /** The answer is "" exactly when no row after the headers lists `mac`;
      otherwise that row is listed with the answer as its address, and no
      earlier row lists `mac`. */
  lemma ScanAnswerFirst(lines: seq<string>, mac: string)
    ensures var ip := ScanAnswer(lines, mac);
            && (ip == "" <==> forall i :: 3 <= i < |lines| ==> !ListsMac(lines[i], mac))
            && (ip != "" ==> ListedIn(lines, mac, ip))
            && (ip != "" ==>
                  exists j :: 3 <= j < |lines| && ListsMac(lines[j], mac) && Fields(lines[j])[1] == ip
                    && forall m :: 3 <= m < j ==> !ListsMac(lines[m], mac))
  {
    var j := FirstListing(lines, mac, 3);
    if j < |lines| {
      FieldsNonEmpty(lines[j]);
      assert Fields(lines[j])[1] != "";
    }
  }

  /** What get_vnic_ip answers for arp's output `out`. */
  function ArpAnswer(out: string, mac: string): string {
    ScanAnswer(Lines(out), mac)
  }

  /** The scan of get_vnic_ip: the header lines are skipped, and the second
      field of the first row that lists `mac` is the answer; "" when no row
      does. */
  method ScanArpTable(lines: seq<string>, mac: string) returns (ip: string)
    ensures ip == ScanAnswer(lines, mac)
  {
    var i := 3;
    while i < |lines|
      invariant 3 <= i
      invariant FirstListing(lines, mac, i) == FirstListing(lines, mac, 3)
    {
      var fields := Fields(lines[i]);
      if |fields| == 4 {
        if fields[3] == mac {
          return fields[1];
        }
      } else if |fields| == 5 {
        if fields[4] == mac {
          return fields[1];
        }
      }
      i := i + 1;
    }
    return "";
  }

  // ---------------------------------------------------------------------------
  // The commands and the step

  /** get_vnic_mac: "" when dladm fails, the normalised MAC otherwise. */
  method GetVnicMac(vnic: string, sh: Shell) returns (mac: string)
    modifies sh
    ensures var r := sh.world(old(sh.trace), ShowVnicMac(vnic));
            && sh.trace == old(sh.trace) + [Ran(ShowVnicMac(vnic), r)]
            && mac == (if r.Ok() then NormalizedMac(r.Stdout()) else "")
            && (mac == "" <==> !r.Ok())
  {
    var r := sh.Run(ShowVnicMac(vnic));
    if !r.Ok() {
      return "";
    }
    mac := NormalizeMac(r.Stdout());
  }

  /** get_vnic_ip: arp is started and its output scanned line by line; "" when
      arp cannot be started or no row lists the MAC. */
  method GetVnicIp(mac: string, sh: Shell) returns (ip: string)
    modifies sh
    ensures var r := sh.world(old(sh.trace), ArpTable);
            && sh.trace == old(sh.trace) + [Started(ArpTable, r)]
            && ip == if r.Started() then ArpAnswer(r.Stdout(), mac) else ""
  {
    var r := sh.Start(ArpTable);
    if !r.Started() {
      return "";
    }
    ip := ScanArpTable(Lines(r.Stdout()), mac);
  }

  // ---------------------------------------------------------------------------
  // The poll loop

  /** What one poll answers once starting arp gave `r`: get_vnic_ip's result. */
  function PollAnswer(r: CmdResult, mac: string): string {
    if r.Started() then ArpAnswer(r.Stdout(), mac) else ""
  }

  /** The same, as the function of arp's outcome the poll loop below is
      stated over. */
  function PollAnswers(mac: string): CmdResult -> string {
    r => PollAnswer(r, mac)
  }

  /** `answer` is the answer of get_vnic_ip for `mac`, on every outcome of
      arp. */
  ghost predicate AnswersFor(answer: CmdResult -> string, mac: string) {
    forall r {:trigger PollAnswer(r, mac)} :: answer(r) == PollAnswer(r, mac)
  }

  /** What the last poll of `ps` answered. */
  function LastAnswer(ps: seq<Event>, answer: CmdResult -> string): string
    requires ps != [] && ps[|ps| - 1].Started?
  {
    answer(ps[|ps| - 1].result)
  }

  /** The poll loop ends after a poll made `elapsed` seconds in: the guest was
      found, the build was cancelled, or the step's context runs out before
      the next 10-second tick. */
  predicate PollStops(ip: string, cancelled: bool, elapsed: nat, timeout: nat) {
    ip != "" || cancelled || elapsed + PollSeconds > timeout
  }

  /** What the poll loop adds to the trace `t` from `elapsed` seconds on: an
      arp start and, unless that ends the loop, a 10-second wait and the polls
      after it. `cancelled` tells whether the build's context is done. */
  function Polls(world: World, cancelled: seq<Event> -> bool, t: seq<Event>, answer: CmdResult -> string, elapsed: nat, timeout: nat): (ps: seq<Event>)
    ensures |ps| >= 1 && ps[|ps| - 1].Started? && ps[|ps| - 1].cmd == ArpTable
    decreases timeout - elapsed
  {
    var r := world(t, ArpTable);
    var e := [Started(ArpTable, r)];
    if PollStops(answer(r), cancelled(t + e), elapsed, timeout) then e
    else e + [Slept(PollSeconds)] + Polls(world, cancelled, t + e + [Slept(PollSeconds)], answer, elapsed + PollSeconds, timeout)
  }

  /** The poll that ends the loop adds its arp start and nothing more. */
  lemma PollsLast(world: World, cancelled: seq<Event> -> bool, t: seq<Event>, answer: CmdResult -> string, elapsed: nat, timeout: nat)
    requires var e := [Started(ArpTable, world(t, ArpTable))];
             PollStops(answer(world(t, ArpTable)), cancelled(t + e), elapsed, timeout)
    ensures Polls(world, cancelled, t, answer, elapsed, timeout) == [Started(ArpTable, world(t, ArpTable))]
  {
  }

  /** A poll that does not end the loop is followed by a wait and the next
      poll. */
  lemma PollsNext(world: World, cancelled: seq<Event> -> bool, t: seq<Event>, answer: CmdResult -> string, elapsed: nat, timeout: nat)
    requires var e := [Started(ArpTable, world(t, ArpTable))];
             !PollStops(answer(world(t, ArpTable)), cancelled(t + e), elapsed, timeout)
    ensures var e := [Started(ArpTable, world(t, ArpTable))];
            t + Polls(world, cancelled, t, answer, elapsed, timeout)
              == t + e + [Slept(PollSeconds)] + Polls(world, cancelled, t + e + [Slept(PollSeconds)], answer, elapsed + PollSeconds, timeout)
  {
    var e := [Started(ArpTable, world(t, ArpTable))];
    var rest := Polls(world, cancelled, t + e + [Slept(PollSeconds)], answer, elapsed + PollSeconds, timeout);
    assert Polls(world, cancelled, t, answer, elapsed, timeout) == e + [Slept(PollSeconds)] + rest;
    assert t + (e + [Slept(PollSeconds)] + rest) == t + e + [Slept(PollSeconds)] + rest;
  }

  /** The same, read from the front: a poll that does not end the loop is
      followed by its wait and the rest of the loop. */
  lemma PollsUnfold(world: World, cancelled: seq<Event> -> bool, t: seq<Event>, answer: CmdResult -> string, elapsed: nat, timeout: nat)
    requires var e := [Started(ArpTable, world(t, ArpTable))];
             !PollStops(answer(world(t, ArpTable)), cancelled(t + e), elapsed, timeout)
    ensures var e := [Started(ArpTable, world(t, ArpTable))];
            Polls(world, cancelled, t, answer, elapsed, timeout)
              == [Started(ArpTable, world(t, ArpTable)), Slept(PollSeconds)]
                 + Polls(world, cancelled, t + e + [Slept(PollSeconds)], answer, elapsed + PollSeconds, timeout)
  {
    var e := [Started(ArpTable, world(t, ArpTable))];
    assert e + [Slept(PollSeconds)] == [Started(ArpTable, world(t, ArpTable)), Slept(PollSeconds)];
  }

  /** When the poll after the trace `before` ends the loop, that poll's arp
      start completes the trace and is the loop's last event. */
  lemma PollsDone(world: World, cancelled: seq<Event> -> bool, t: seq<Event>, ps: seq<Event>, before: seq<Event>,
                  answer: CmdResult -> string, elapsed: nat, timeout: nat)
    requires before + Polls(world, cancelled, before, answer, elapsed, timeout) == t + ps && ps != []
    requires var e := [Started(ArpTable, world(before, ArpTable))];
             PollStops(answer(world(before, ArpTable)), cancelled(before + e), elapsed, timeout)
    ensures before + [Started(ArpTable, world(before, ArpTable))] == t + ps
    ensures ps[|ps| - 1] == Started(ArpTable, world(before, ArpTable))
    ensures LastAnswer(ps, answer) == answer(world(before, ArpTable))
  {
    PollsLast(world, cancelled, before, answer, elapsed, timeout);
    LastOfAppend(t, ps);
  }

  /** The waits of the loop never pass the timeout. */
  lemma {:induction false} PollsWithinTimeout(world: World, cancelled: seq<Event> -> bool, t: seq<Event>, answer: CmdResult -> string, elapsed: nat, timeout: nat)
    requires elapsed <= timeout
    ensures elapsed + PollSeconds * Sleeps(Polls(world, cancelled, t, answer, elapsed, timeout)) <= timeout
    decreases timeout - elapsed
  {
    var r := world(t, ArpTable);
    var e := [Started(ArpTable, r)];
    if PollStops(answer(r), cancelled(t + e), elapsed, timeout) {
      PollsLast(world, cancelled, t, answer, elapsed, timeout);
      assert Sleeps(e) == 0 by {
        assert e[1..] == [];
      }
    } else {
      var t' := t + e + [Slept(PollSeconds)];
      var rest := Polls(world, cancelled, t', answer, elapsed + PollSeconds, timeout);
      PollsUnfold(world, cancelled, t, answer, elapsed, timeout);
      PollsWithinTimeout(world, cancelled, t', answer, elapsed + PollSeconds, timeout);
      SleepsAfterPoll(r, rest);
      assert PollSeconds * (1 + Sleeps(rest)) == PollSeconds + PollSeconds * Sleeps(rest);
    }
  }

  /** A loop that ends without an answer ends because the build was cancelled
      or because one more tick would pass the timeout. */
  lemma {:induction false} PollsHaltReason(world: World, cancelled: seq<Event> -> bool, t: seq<Event>, answer: CmdResult -> string, elapsed: nat, timeout: nat)
    ensures var ps := Polls(world, cancelled, t, answer, elapsed, timeout);
            answer(ps[|ps| - 1].result) == "" ==>
              cancelled(t + ps) || elapsed + PollSeconds * (Sleeps(ps) + 1) > timeout
    decreases timeout - elapsed
  {
    var r := world(t, ArpTable);
    var e := [Started(ArpTable, r)];
    var ps := Polls(world, cancelled, t, answer, elapsed, timeout);
    if PollStops(answer(r), cancelled(t + e), elapsed, timeout) {
      assert ps == e by {
        PollsLast(world, cancelled, t, answer, elapsed, timeout);
      }
      assert Sleeps(e) == 0 by {
        assert e[1..] == [];
      }
      assert PollSeconds * (Sleeps(ps) + 1) == PollSeconds;
    } else {
      var t' := t + e + [Slept(PollSeconds)];
      var rest := Polls(world, cancelled, t', answer, elapsed + PollSeconds, timeout);
      assert ps == [Started(ArpTable, r), Slept(PollSeconds)] + rest by {
        PollsUnfold(world, cancelled, t, answer, elapsed, timeout);
      }
      PollsHaltReason(world, cancelled, t', answer, elapsed + PollSeconds, timeout);
      assert t' == t + [Started(ArpTable, r), Slept(PollSeconds)];
      HaltReasonStep(cancelled, t, t', r, rest, answer, elapsed, timeout);
    }
  }

  /** The halting reason of the rest of the loop, seen from one poll and wait
      earlier. */
  lemma HaltReasonStep(cancelled: seq<Event> -> bool, t: seq<Event>, t': seq<Event>, r: CmdResult, rest: seq<Event>, answer: CmdResult -> string, elapsed: nat, timeout: nat)
    requires t' == t + [Started(ArpTable, r), Slept(PollSeconds)]
    requires rest != [] && rest[|rest| - 1].Started?
    requires answer(rest[|rest| - 1].result) == "" ==>
               cancelled(t' + rest) || elapsed + PollSeconds + PollSeconds * (Sleeps(rest) + 1) > timeout
    ensures var ps := [Started(ArpTable, r), Slept(PollSeconds)] + rest;
            answer(ps[|ps| - 1].result) == "" ==>
              cancelled(t + ps) || elapsed + PollSeconds * (Sleeps(ps) + 1) > timeout
  {
    var ps := [Started(ArpTable, r), Slept(PollSeconds)] + rest;
    LastOfAppend([Started(ArpTable, r), Slept(PollSeconds)], rest);
    assert t + ps == t' + rest;
    SleepsAfterPoll(r, rest);
    assert PollSeconds * (Sleeps(ps) + 1) == PollSeconds + PollSeconds * (Sleeps(rest) + 1);
  }

  lemma LastOfAppend(a: seq<Event>, b: seq<Event>)
    requires b != []
    ensures (a + b)[|a + b| - 1] == b[|b| - 1]
  {
  }

  /** A poll and its wait count one wait. */
  lemma SleepsAfterPoll(r: CmdResult, rest: seq<Event>)
    ensures Sleeps([Started(ArpTable, r), Slept(PollSeconds)] + rest) == 1 + Sleeps(rest)
  {
    var a := [Started(ArpTable, r), Slept(PollSeconds)] + rest;
    assert a[1..] == [Slept(PollSeconds)] + rest;
    assert a[1..][1..] == rest;
  }

  /** An event the poll loop records: an arp start or a 10-second wait. */
  predicate PollEvent(x: Event) {
    x == Slept(PollSeconds) || (x.Started? && x.cmd == ArpTable)
  }

  predicate OnlyPolls(a: seq<Event>) {
    forall k :: 0 <= k < |a| ==> PollEvent(a[k])
  }

  /** Every arp start in `a` but the last one answered "". */
  predicate FoundNothingBefore(a: seq<Event>, answer: CmdResult -> string) {
    forall k :: 0 <= k < |a| - 1 && a[k].Started? ==> answer(a[k].result) == ""
  }

  /** A poll that found nothing, and its wait, in front keep both properties. */
  lemma EmptyPollFirst(r: CmdResult, rest: seq<Event>, answer: CmdResult -> string)
    requires answer(r) == "" && rest != []
    requires OnlyPolls(rest) && FoundNothingBefore(rest, answer)
    ensures var a := [Started(ArpTable, r), Slept(PollSeconds)] + rest;
            OnlyPolls(a) && FoundNothingBefore(a, answer)
  {
    var a := [Started(ArpTable, r), Slept(PollSeconds)] + rest;
    forall k | 0 <= k < |a|
      ensures PollEvent(a[k])
      ensures k < |a| - 1 && a[k].Started? ==> answer(a[k].result) == ""
    {
      if k >= 2 {
        assert a[k] == rest[k - 2];
      }
    }
  }

  /** The loop records only arp starts and 10-second waits, and every poll
      before the last found nothing: the loop stops at the first answer. */
  lemma {:induction false} PollsStopAtFirstAnswer(world: World, cancelled: seq<Event> -> bool, t: seq<Event>, answer: CmdResult -> string, elapsed: nat, timeout: nat)
    ensures OnlyPolls(Polls(world, cancelled, t, answer, elapsed, timeout))
    ensures FoundNothingBefore(Polls(world, cancelled, t, answer, elapsed, timeout), answer)
    decreases timeout - elapsed
  {
    var r := world(t, ArpTable);
    var e := [Started(ArpTable, r)];
    if PollStops(answer(r), cancelled(t + e), elapsed, timeout) {
      PollsLast(world, cancelled, t, answer, elapsed, timeout);
    } else {
      var t' := t + e + [Slept(PollSeconds)];
      PollsUnfold(world, cancelled, t, answer, elapsed, timeout);
      PollsStopAtFirstAnswer(world, cancelled, t', answer, elapsed + PollSeconds, timeout);
      EmptyPollFirst(r, Polls(world, cancelled, t', answer, elapsed + PollSeconds, timeout), answer);
    }
  }

  /** One pass of the poll loop, `elapsed` seconds in: get_vnic_ip, then,
      without an answer, the select between the 10-second timer and the
      context: the loop stops on an answer, on cancellation, or when the
      context's deadline comes before the next tick, and otherwise the pass
      waits 10 seconds. */
  method PollOnce(mac: string, ghost answer: CmdResult -> string, elapsed: nat, timeout: nat, sh: Shell) returns (ip: string, stop: bool)
    requires AnswersFor(answer, mac)
    modifies sh
    ensures var r := sh.world(old(sh.trace), ArpTable);
            var e := [Started(ArpTable, r)];
            && ip == answer(r)
            && stop == PollStops(ip, sh.interrupted(old(sh.trace) + e), elapsed, timeout)
            && sh.trace == old(sh.trace) + e + (if stop then [] else [Slept(PollSeconds)])
  {
    ghost var r := sh.world(sh.trace, ArpTable);
    ip := GetVnicIp(mac, sh);
    assert ip == PollAnswer(r, mac);
    if ip != "" || sh.interrupted(sh.trace) || elapsed + PollSeconds > timeout {
      return ip, true;
    }
    sh.Sleep(PollSeconds);
    stop := false;
  }

  /** The poll loop of stepWaitGuestAddress.Run for the MAC `mac`: it polls
      until an answer, a cancellation or the timeout; an answer is stored as
      the guest address and the step continues, otherwise it halts. The
      contract is stated over `answer`, get_vnic_ip's answer for `mac` as a
      function of arp's outcome; Run passes PollAnswers(mac). */
  method WaitForAddress(mac: string, ghost answer: CmdResult -> string, timeout: nat, sh: Shell, state: StateBag) returns (action: StepAction)
    requires AnswersFor(answer, mac)
    modifies sh, state
    ensures var ps := Polls(sh.world, sh.interrupted, old(sh.trace), answer, 0, timeout);
            var ip := LastAnswer(ps, answer);
            && sh.trace == old(sh.trace) + ps
            && (action == Continue <==> ip != "")
            && (action == Continue ==> state.entries == old(state.entries)[GuestAddressKey := Str(ip)])
            && (action == Halt ==> state.entries == old(state.entries))
            && (action == Halt ==> sh.interrupted(sh.trace) || PollSeconds * (Sleeps(ps) + 1) > timeout)
            && FoundNothingBefore(ps, answer)
  {
    ghost var t := sh.trace;
    ghost var ps := Polls(sh.world, sh.interrupted, t, answer, 0, timeout);
    PollsHaltReason(sh.world, sh.interrupted, t, answer, 0, timeout);
    PollsStopAtFirstAnswer(sh.world, sh.interrupted, t, answer, 0, timeout);
    var elapsed: nat := 0;
    var guestAddress, stop := PollOnce(mac, answer, elapsed, timeout, sh);
    ghost var before := t;
    while !stop
      modifies sh
      invariant elapsed <= timeout
      invariant sh.trace == before + [Started(ArpTable, sh.world(before, ArpTable))] + (if stop then [] else [Slept(PollSeconds)])
      invariant guestAddress == answer(sh.world(before, ArpTable))
      invariant stop == PollStops(guestAddress, sh.interrupted(before + [Started(ArpTable, sh.world(before, ArpTable))]), elapsed, timeout)
      invariant before + Polls(sh.world, sh.interrupted, before, answer, elapsed, timeout) == t + ps
      decreases timeout - elapsed
    {
      PollsNext(sh.world, sh.interrupted, before, answer, elapsed, timeout);
      before := sh.trace;
      elapsed := elapsed + PollSeconds;
      guestAddress, stop := PollOnce(mac, answer, elapsed, timeout, sh);
    }
    PollsDone(sh.world, sh.interrupted, t, ps, before, answer, elapsed, timeout);
    assert LastAnswer(ps, answer) == guestAddress;
    if guestAddress != "" {
      state.Put(GuestAddressKey, Str(guestAddress));
      return Continue;
    }
    return Halt;
  }

  /** stepWaitGuestAddress.Run. The MAC is looked up once; without it the step
      fails at once and nothing is polled. Otherwise the poll loop runs for the
      normalised MAC, which is `mac`. */
  method Run(vnicName: string, timeout: nat, sh: Shell, state: StateBag) returns (action: StepAction, ghost mac: string)
    modifies sh, state
    ensures var r := sh.world(old(sh.trace), ShowVnicMac(vnicName));
            !r.Ok() ==> && action == Halt
                        && sh.trace == old(sh.trace) + [Ran(ShowVnicMac(vnicName), r)]
                        && state.entries == old(state.entries)[ErrorKey := Failure(MacLookupError)]
    ensures var r := sh.world(old(sh.trace), ShowVnicMac(vnicName));
            var ps := Polls(sh.world, sh.interrupted, old(sh.trace) + [Ran(ShowVnicMac(vnicName), r)], PollAnswers(mac), 0, timeout);
            var ip := LastAnswer(ps, PollAnswers(mac));
            r.Ok() ==>
              && sh.trace == old(sh.trace) + [Ran(ShowVnicMac(vnicName), r)] + ps
              && (action == Continue <==> ip != "")
              && (action == Continue ==> state.entries == old(state.entries)[GuestAddressKey := Str(ip)])
              && (action == Halt ==> state.entries == old(state.entries))
              && (action == Halt ==> sh.interrupted(sh.trace) || PollSeconds * (Sleeps(ps) + 1) > timeout)
              && FoundNothingBefore(ps, PollAnswers(mac))
    ensures var r := sh.world(old(sh.trace), ShowVnicMac(vnicName));
            r.Ok() ==> mac == NormalizedMac(r.Stdout())
  {
    var vnicMac := GetVnicMac(vnicName, sh);
    mac := vnicMac;
    if vnicMac == "" {
      state.Put(ErrorKey, Failure(MacLookupError));
      return Halt, mac;
    }
    action := WaitForAddress(vnicMac, PollAnswers(vnicMac), timeout, sh, state);
  }
}

/** The CPU part of the builder configuration: how the requested CPU count and
    the socket/core/thread topology become bhyve's `-c` value. */
module Cpu {
  import opened Text

  /** Optional list element: [x] when b holds, [] otherwise. */
  function When(b: bool, x: string): seq<string> {
    if b then [x] else []
  }

  /** "key=value" for an integer value. */
  function Field(key: string, v: int): (r: string)
    ensures key + "=" < r
  {
    key + "=" + Itoa(v)
  }

  /** fmt.Sprintf("%s,key=%d", s, v). */
  function AppendField(s: string, key: string, v: int): (r: string)
    ensures s < r
  {
    s + "," + key + "=" + Itoa(v)
  }

  lemma FieldHasNoComma(key: string, v: int)
    requires ',' !in key
    ensures ',' !in Field(key, v)
  {
    ItoaHasNoSeparator(v, ',');
  }

  lemma AppendFieldIsJoin(parts: seq<string>, s: string, key: string, v: int)
    requires parts != [] && Join(parts, ',') == s
    ensures Join(parts + [Field(key, v)], ',') == AppendField(s, key, v)
  {
    JoinSnoc(parts, Field(key, v), ',');
    assert AppendField(s, key, v) == s + [','] + Field(key, v);
  }

  datatype CPUConfig = CPUConfig(cpuCount: int, socketCount: int, coreCount: int, threadCount: int) {

    /** The number of vCPUs the topology describes. */
    function MaxCPUs(): (r: int)
      ensures socketCount > 0 && coreCount > 0 && threadCount > 0 ==> r == socketCount * coreCount * threadCount
      ensures socketCount > 0 && coreCount <= 0 ==> r == (if threadCount > 0 then socketCount * threadCount else socketCount)
      ensures socketCount > 0 && coreCount > 0 && threadCount <= 0 ==> r == socketCount * coreCount
      ensures socketCount == 0 && coreCount != 0 ==> r == (if threadCount > 0 then coreCount * threadCount else coreCount)
      ensures socketCount == 0 && coreCount == 0 ==> r == threadCount
      ensures socketCount >= 0 && coreCount >= 0 && threadCount >= 0 ==>
                r >= 0 && (r == 0 <==> socketCount == 0 && coreCount == 0 && threadCount == 0)
    {
      var total := socketCount;
      var total := if coreCount > 0 && total > 0 then total * coreCount else total;
      // no sockets given: take the number of cores
      var total := if total == 0 then coreCount else total;
      var total := if threadCount > 0 && total != 0 then total * threadCount else total;
      // nothing else given: take the number of threads
      if total == 0 then threadCount else total
    }

    /** The value written after "cpus=": the requested count, defaulted to the
        topology maximum and clamped to it when the maximum is not zero. */
    function CpusValue(): (n: int)
      ensures cpuCount == 0 ==> n == MaxCPUs()
      ensures cpuCount != 0 && MaxCPUs() != 0 && cpuCount > MaxCPUs() ==> n == MaxCPUs()
      ensures cpuCount != 0 && (MaxCPUs() == 0 || cpuCount <= MaxCPUs()) ==> n == cpuCount
      ensures MaxCPUs() != 0 ==> n <= MaxCPUs()
    {
      var total := MaxCPUs();
      var count := if cpuCount == 0 then total else cpuCount;
      if count > total && total != 0 then total else count
    }

    /** The "key=value" pieces of the topology that are present, in order. */
    function TopologyFields(): seq<string> {
      When(socketCount > 0, Field("sockets", socketCount))
        + When(coreCount > 0, Field("cores", coreCount))
        + When(threadCount > 0, Field("threads", threadCount))
    }

    /** The argument of bhyve's -c option. */
    function Cmdline(): (r: string)
      ensures r == "1" <==> MaxCPUs() == 0 && cpuCount == 0
      ensures r != "1" ==> "cpus=" < r
    {
      if MaxCPUs() == 0 && cpuCount == 0 then "1" else CountText(CpusValue())
    }

    /** "cpus=N", then ",sockets=", ",cores=" and ",threads=" with their
        counts for each of those that is positive. */
    function CountText(cpus: int): (r: string)
      ensures "cpus=" < r
    {
      var s0 := Field("cpus", cpus);
      var s1 := if socketCount > 0 then AppendField(s0, "sockets", socketCount) else s0;
      var s2 := if coreCount > 0 then AppendField(s1, "cores", coreCount) else s1;
      var s3 := if threadCount > 0 then AppendField(s2, "threads", threadCount) else s2;
      assert "cpus=" < s0 <= s1 <= s2 <= s3;
      s3
    }
  }

  /** Outside the single-vCPU case the -c argument reads back, field by field,
      as "cpus=N" followed by the sockets, cores and threads entries that are
      positive, in that order and no others. */
  lemma CmdlineFields(c: CPUConfig)
    requires !(c.MaxCPUs() == 0 && c.cpuCount == 0)
    ensures Split(c.Cmdline(), ',') == [Field("cpus", c.CpusValue())] + c.TopologyFields()
  {
    CountTextFields(c, c.CpusValue());
  }

  lemma CountTextFields(c: CPUConfig, cpus: int)
    ensures Split(c.CountText(cpus), ',') == [Field("cpus", cpus)] + c.TopologyFields()
  {
    CountTextIsJoin(c, cpus);
    FieldsHaveNoComma(c, cpus);
    SplitJoin([Field("cpus", cpus)] + c.TopologyFields(), ',');
  }

  lemma FieldsHaveNoComma(c: CPUConfig, cpus: int)
    ensures NoneContains([Field("cpus", cpus)] + c.TopologyFields(), ',')
  {
    var parts := [Field("cpus", cpus)] + c.TopologyFields();
    FieldHasNoComma("cpus", cpus);
    FieldHasNoComma("sockets", c.socketCount);
    FieldHasNoComma("cores", c.coreCount);
    FieldHasNoComma("threads", c.threadCount);
    var a := [Field("cpus", cpus)];
    var b := a + When(c.socketCount > 0, Field("sockets", c.socketCount));
    var d := b + When(c.coreCount > 0, Field("cores", c.coreCount));
    assert parts == d + When(c.threadCount > 0, Field("threads", c.threadCount));
    NoneContainsWhen(a, c.socketCount > 0, Field("sockets", c.socketCount), ',');
    NoneContainsWhen(b, c.coreCount > 0, Field("cores", c.coreCount), ',');
    NoneContainsWhen(d, c.threadCount > 0, Field("threads", c.threadCount), ',');
  }

  lemma NoneContainsWhen(parts: seq<string>, b: bool, x: string, sep: char)
    requires NoneContains(parts, sep) && sep !in x
    ensures NoneContains(parts + When(b, x), sep)
  {
  }

  lemma CountTextIsJoin(c: CPUConfig, cpus: int)
    ensures c.CountText(cpus) == Join([Field("cpus", cpus)] + c.TopologyFields(), ',')
  {
    var a := [Field("cpus", cpus)];
    var b := a + When(c.socketCount > 0, Field("sockets", c.socketCount));
    var d := b + When(c.coreCount > 0, Field("cores", c.coreCount));
    var parts := d + When(c.threadCount > 0, Field("threads", c.threadCount));
    assert parts == a + c.TopologyFields();
    var s0 := Field("cpus", cpus);
    var s1 := if c.socketCount > 0 then AppendField(s0, "sockets", c.socketCount) else s0;
    var s2 := if c.coreCount > 0 then AppendField(s1, "cores", c.coreCount) else s1;
    var s3 := if c.threadCount > 0 then AppendField(s2, "threads", c.threadCount) else s2;
    assert Join(a, ',') == s0;
    if c.socketCount > 0 { AppendFieldIsJoin(a, s0, "sockets", c.socketCount); } else { assert b == a; }
    assert Join(b, ',') == s1;
    if c.coreCount > 0 { AppendFieldIsJoin(b, s1, "cores", c.coreCount); } else { assert d == b; }
    assert Join(d, ',') == s2;
    if c.threadCount > 0 { AppendFieldIsJoin(d, s2, "threads", c.threadCount); } else { assert parts == d; }
    assert c.CountText(cpus) == s3 == Join(parts, ',');
  }
}

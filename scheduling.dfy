/** `scheduling.py`: for each logical queue of a port, one `sched_cfg` entry
    (priority and which rate limits are in force) and one `sched_shaping` entry
    (the rates), sent as two batched modifies. */
module Scheduling {
  import opened Builtins
  import opened Bfrt

  /** One logical queue's policy; an absent rate (None) means no cap or no
      guarantee, which is not the same as a rate of 0. */
  datatype QueueCfg = QueueCfg(maxPriority: int, minRate: Option<int>, maxRate: Option<int>)

  /** What `tf1.tm.port.cfg` reports for a port: its port group and the
      physical queue behind each logical queue. */
  datatype PortCfg = PortCfg(pgId: int, egressQidQueues: seq<int>)

  const DevPorts: seq<int> := [16]

  /** The built-in QID_CFG, logical queue by logical queue. */
  const DefaultQidCfg: seq<(int, QueueCfg)> := [
    (0, QueueCfg(7, Some(800000), None)),         // real-time gaming: 800 Mbit/s guaranteed, no cap
    (1, QueueCfg(5, Some(2000000), Some(7000000))),
    (2, QueueCfg(3, Some(750000), Some(4000000))),
    (3, QueueCfg(2, None, Some(6000000))),        // streaming: no guarantee
    (4, QueueCfg(1, None, Some(5000000)))         // best effort: no guarantee
  ]

  const PortCfgTable := "tf1.tm.port.cfg"
  const SchedCfgTable := "tf1.tm.queue.sched_cfg"
  const SchedShapingTable := "tf1.tm.queue.sched_shaping"

  /** QID_CFG: the decoded CONFIG_FILE object when the variable names an
      existing file, with its keys converted by `int`, else the built-in one. */
  function LoadQidCfg(config: Option<seq<(string, QueueCfg)>>): (r: Result<seq<(int, QueueCfg)>, string>)
    ensures config.None? ==> r == Ok(DefaultQidCfg)
    ensures config.Some? ==> r == IntKeyed(config.value)
    ensures r.Ok? ==> DistinctKeys(r.value)
  {
    match config
    case None => Ok(DefaultQidCfg)
    case Some(items) => IntKeyed(items)
  }

  /** `dev_port >> 7`: the pipe a device port belongs to, 128 ports per pipe
      (Python's shift rounds toward minus infinity). */
  function Pipe(devPort: int): (p: int)
    ensures p * 128 <= devPort < p * 128 + 128
  {
    devPort / 128
  }

  /** `rate or 0`: an absent rate is programmed as 0. */
  function RateValue(rate: Option<int>): (r: int)
    ensures r == 0 <==> rate.None? || rate == Some(0)
    ensures rate.Some? ==> r == rate.value
  {
    match rate
    case None => 0
    case Some(v) => v
  }

  /** The key of both queue tables: the port group and the physical queue, as
      two differently named fields. */
  function QueueKey(pgId: int, pgQueue: int): (r: seq<Field>)
    ensures |r| == 2 && r[0].name != r[1].name
    ensures r[0].value == pgId && r[1].value == pgQueue
  {
    [Field("pg_id", pgId), Field("pg_queue", pgQueue)]
  }

  /** The `sched_cfg` data of one logical queue: four distinctly named fields. */
  function SchedCfgData(cfg: QueueCfg): (r: seq<DataField>)
    ensures |r| == 4 && UniqueNames(r)
  {
    [ DataField("max_priority", StrVal(Str(cfg.maxPriority))),
      DataField("max_rate_enable", BoolVal(cfg.maxRate.Some?)),
      DataField("min_rate_enable", BoolVal(cfg.minRate.Some?)),
      DataField("scheduling_enable", BoolVal(true)) ]
  }

  /** The `sched_shaping` data of one logical queue: six distinctly named fields. */
  function ShapingData(cfg: QueueCfg): (r: seq<DataField>)
    ensures |r| == 6 && UniqueNames(r)
  {
    [ DataField("unit", StrVal("BPS")),
      DataField("provisioning", StrVal("UPPER")),
      DataField("max_rate", IntVal(RateValue(cfg.maxRate))),
      DataField("min_rate", IntVal(RateValue(cfg.minRate))),
      DataField("max_burst_size", IntVal(0)),
      DataField("min_burst_size", IntVal(0)) ]
  }

  /** The four parallel lists `apply_sched_policy` builds. */
  datatype Batches = Batches(cfgKeys: seq<seq<Field>>, cfgData: seq<seq<DataField>>,
                             shapingKeys: seq<seq<Field>>, shapingData: seq<seq<DataField>>)

  /** Every logical queue of the policy has a physical queue on the port. */
  predicate AllMapped(qidMap: seq<int>, qidCfg: seq<(int, QueueCfg)>)
  {
    forall i :: 0 <= i < |qidCfg| ==> ListIndex(qidMap, qidCfg[i].0).Some?
  }

  /** Item i of each list is built from the i-th logical queue of the policy. */
  predicate BatchesFor(b: Batches, pgId: int, qidMap: seq<int>, qidCfg: seq<(int, QueueCfg)>, n: int)
    requires 0 <= n <= |qidCfg|
    requires forall i :: 0 <= i < n ==> ListIndex(qidMap, qidCfg[i].0).Some?
  {
    && |b.cfgKeys| == n && |b.cfgData| == n && |b.shapingKeys| == n && |b.shapingData| == n
    && forall i :: 0 <= i < n ==>
         && b.cfgKeys[i] == QueueKey(pgId, ListIndex(qidMap, qidCfg[i].0).value)
         && b.shapingKeys[i] == b.cfgKeys[i]
         && b.cfgData[i] == SchedCfgData(qidCfg[i].1)
         && b.shapingData[i] == ShapingData(qidCfg[i].1)
  }

  /** The batches for a policy whose logical queues are all mapped. */
  function SchedBatches(pgId: int, qidMap: seq<int>, qidCfg: seq<(int, QueueCfg)>): Batches
    requires AllMapped(qidMap, qidCfg)
  {
    var keys := seq(|qidCfg|, i requires 0 <= i < |qidCfg| && AllMapped(qidMap, qidCfg) =>
                                QueueKey(pgId, ListIndex(qidMap, qidCfg[i].0).value));
    Batches(keys, seq(|qidCfg|, i requires 0 <= i < |qidCfg| => SchedCfgData(qidCfg[i].1)),
            keys, seq(|qidCfg|, i requires 0 <= i < |qidCfg| => ShapingData(qidCfg[i].1)))
  }

  /** The two batched modifies one port's policy sends. */
  function SchedCalls(port: PortCfg, qidCfg: seq<(int, QueueCfg)>): seq<Call>
    requires AllMapped(port.egressQidQueues, qidCfg)
  {
    var b := SchedBatches(port.pgId, port.egressQidQueues, qidCfg);
    [EntryModCall(SchedCfgTable, b.cfgKeys, b.cfgData), EntryModCall(SchedShapingTable, b.shapingKeys, b.shapingData)]
  }

  /** The `for logical_qid, cfg in qid_cfg.items()` loop: the four lists, or the
      IndexError of the first logical queue the port has no physical queue for. */
  method BuildSchedBatches(pgId: int, qidMap: seq<int>, qidCfg: seq<(int, QueueCfg)>)
    returns (r: Result<Batches, int>)
    ensures r.Ok? <==> AllMapped(qidMap, qidCfg)
    ensures r.Ok? ==> BatchesFor(r.value, pgId, qidMap, qidCfg, |qidCfg|)
    ensures r.Ok? ==> r.value == SchedBatches(pgId, qidMap, qidCfg)
    ensures r.Err? ==> exists i :: 0 <= i < |qidCfg| && r.error == qidCfg[i].0
                                  && ListIndex(qidMap, qidCfg[i].0).None?
                                  && forall j :: 0 <= j < i ==> ListIndex(qidMap, qidCfg[j].0).Some?
  {
    var cfgKeys, cfgData := [], [];
    var shapingKeys, shapingData := [], [];
    for i := 0 to |qidCfg|
      invariant forall j :: 0 <= j < i ==> ListIndex(qidMap, qidCfg[j].0).Some?
      invariant BatchesFor(Batches(cfgKeys, cfgData, shapingKeys, shapingData), pgId, qidMap, qidCfg, i)
    {
      var (logicalQid, cfg) := qidCfg[i];
      var physical := ListIndex(qidMap, logicalQid);
      if physical.None? {
        return Err(logicalQid);
      }
      cfgKeys := cfgKeys + [QueueKey(pgId, physical.value)];
      cfgData := cfgData + [SchedCfgData(cfg)];
      shapingKeys := shapingKeys + [QueueKey(pgId, physical.value)];
      shapingData := shapingData + [ShapingData(cfg)];
    }
    r := Ok(Batches(cfgKeys, cfgData, shapingKeys, shapingData));
    assert r.value == SchedBatches(pgId, qidMap, qidCfg);
  }

  /** `apply_sched_policy(controller, dev_port, qid_cfg)`; `port` is what the
      hardware read of the port's configuration returns. On an IndexError
      nothing is sent. */
  method ApplySchedPolicy(c: Controller, devPort: int, port: PortCfg, qidCfg: seq<(int, QueueCfg)>)
    returns (pipe: int, r: Result<Batches, int>)
    modifies c`log
    ensures pipe == Pipe(devPort)
    ensures r.Ok? <==> AllMapped(port.egressQidQueues, qidCfg)
    ensures r.Ok? ==> BatchesFor(r.value, port.pgId, port.egressQidQueues, qidCfg, |qidCfg|)
                      && c.log == old(c.log) + SchedCalls(port, qidCfg)
    ensures r.Err? ==> c.log == old(c.log)
  {
    pipe := devPort / 128;
    r := BuildSchedBatches(port.pgId, port.egressQidQueues, qidCfg);
    if r.Ok? {
      c.EntryMod(SchedCfgTable, r.value.cfgKeys, r.value.cfgData);
      c.EntryMod(SchedShapingTable, r.value.shapingKeys, r.value.shapingData);
    }
  }

  predicate AllPortsMapped(devPorts: seq<int>, ports: map<int, PortCfg>, qidCfg: seq<(int, QueueCfg)>)
    requires forall i :: 0 <= i < |devPorts| ==> devPorts[i] in ports
  {
    forall i :: 0 <= i < |devPorts| ==> AllMapped(ports[devPorts[i]].egressQidQueues, qidCfg)
  }

  /** The calls made for `devPorts` in turn, up to the first port whose queue
      list lacks one of the policy's logical queues. */
  function PortCalls(devPorts: seq<int>, ports: map<int, PortCfg>, qidCfg: seq<(int, QueueCfg)>): seq<Call>
    requires forall i :: 0 <= i < |devPorts| ==> devPorts[i] in ports
  {
    if devPorts == [] then []
    else if !AllMapped(ports[devPorts[0]].egressQidQueues, qidCfg) then []
    else SchedCalls(ports[devPorts[0]], qidCfg) + PortCalls(devPorts[1..], ports, qidCfg)
  }

  lemma PortCallsStep(devPorts: seq<int>, k: int, ports: map<int, PortCfg>, qidCfg: seq<(int, QueueCfg)>)
    requires forall i :: 0 <= i < |devPorts| ==> devPorts[i] in ports
    requires 0 <= k < |devPorts|
    ensures PortCalls(devPorts[k..], ports, qidCfg)
            == if !AllMapped(ports[devPorts[k]].egressQidQueues, qidCfg) then []
               else SchedCalls(ports[devPorts[k]], qidCfg) + PortCalls(devPorts[k + 1..], ports, qidCfg)
  {
    assert devPorts[k..][1..] == devPorts[k + 1..];
  }

  /** The `for dev_port in DEV_PORTS` loop of `main`. */
  method ApplyToPorts(c: Controller, devPorts: seq<int>, ports: map<int, PortCfg>, qidCfg: seq<(int, QueueCfg)>)
    returns (ok: bool)
    requires forall i :: 0 <= i < |devPorts| ==> devPorts[i] in ports
    modifies c`log
    ensures ok <==> AllPortsMapped(devPorts, ports, qidCfg)
    ensures c.log == old(c.log) + PortCalls(devPorts, ports, qidCfg)
  {
    ok := true;
    for k := 0 to |devPorts|
      invariant forall i :: 0 <= i < k ==> AllMapped(ports[devPorts[i]].egressQidQueues, qidCfg)
      invariant c.log + PortCalls(devPorts[k..], ports, qidCfg) == old(c.log) + PortCalls(devPorts, ports, qidCfg)
    {
      ghost var before := c.log;
      ghost var rest := PortCalls(devPorts[k + 1..], ports, qidCfg);
      PortCallsStep(devPorts, k, ports, qidCfg);
      var _, r := ApplySchedPolicy(c, devPorts[k], ports[devPorts[k]], qidCfg);
      if r.Err? {
        ok := false;
        return;
      }
      ghost var sent := SchedCalls(ports[devPorts[k]], qidCfg);
      assert c.log == before + sent;
      assert c.log + rest == before + (sent + rest);
    }
    assert devPorts[|devPorts|..] == [];
  }

  /** `main`: set up the three tables, apply the policy to every port in
      DEV_PORTS, tear down; an IndexError ends the run before the tear-down. */
  method RunScheduling(c: Controller, qidCfg: seq<(int, QueueCfg)>, ports: map<int, PortCfg>) returns (ok: bool)
    requires forall i :: 0 <= i < |DevPorts| ==> DevPorts[i] in ports
    modifies c`log
    ensures ok <==> AllPortsMapped(DevPorts, ports, qidCfg)
    ensures c.log == old(c.log) + [SetupCall([PortCfgTable, SchedCfgTable, SchedShapingTable])]
                     + PortCalls(DevPorts, ports, qidCfg) + (if ok then [TearDownCall] else [])
  {
    c.SetupTables([PortCfgTable, SchedCfgTable, SchedShapingTable]);
    ok := ApplyToPorts(c, DevPorts, ports, qidCfg);
    if ok {
      c.TearDown();
    }
  }

  // ---------------------------------------------------------------------------
  // Properties
  // ---------------------------------------------------------------------------

  /** No two fields of an entry's data share a name. */
  predicate UniqueNames(data: seq<DataField>)
  {
    forall i, j :: 0 <= i < j < |data| ==> data[i].name != data[j].name
  }

  /** The first value named `name` in a list of data fields. */
  function Lookup(data: seq<DataField>, name: string): Option<DataValue>
  {
    if data == [] then None
    else if data[0].name == name then Some(data[0].value)
    else Lookup(data[1..], name)
  }

  /** With unique names, looking a field up by its name finds that field. */
  lemma UniqueNamesLookup(data: seq<DataField>, k: int)
    requires UniqueNames(data) && 0 <= k < |data|
    ensures Lookup(data, data[k].name) == Some(data[k].value)
  {
    LookupAt(data, data[k].name, k);
  }

  /** The first field named `name` sits at position k. */
  lemma {:induction false} LookupAt(data: seq<DataField>, name: string, k: int)
    requires 0 <= k < |data| && data[k].name == name
    requires forall j :: 0 <= j < k ==> data[j].name != name
    ensures Lookup(data, name) == Some(data[k].value)
  {
    if k > 0 {
      LookupAt(data[1..], name, k - 1);
    }
  }

  /** How the device reads a rate back: the enable flag says whether the limit
      exists, the value says how large it is. */
  function DecodeRate(enable: Option<DataValue>, value: Option<DataValue>): Option<int>
  {
    if enable == Some(BoolVal(true)) && value.Some? && value.value.IntVal? then Some(value.value.i) else None
  }

  /** The programmed pair (enable flag in `sched_cfg`, value in `sched_shaping`)
      gives back exactly the configured optional rate: an unset rate is
      "disabled, 0", a set rate of 0 is "enabled, 0". The priority reads back
      from its decimal text. */
  lemma {:induction false} RateEncodingRoundTrip(cfg: QueueCfg)
    ensures DecodeRate(Lookup(SchedCfgData(cfg), "max_rate_enable"), Lookup(ShapingData(cfg), "max_rate")) == cfg.maxRate
    ensures DecodeRate(Lookup(SchedCfgData(cfg), "min_rate_enable"), Lookup(ShapingData(cfg), "min_rate")) == cfg.minRate
    ensures Lookup(SchedCfgData(cfg), "max_priority").Some? && Lookup(SchedCfgData(cfg), "max_priority").value.StrVal?
    ensures ParseInt(Lookup(SchedCfgData(cfg), "max_priority").value.s) == Some(cfg.maxPriority)
  {
    QueueEntryFields(cfg);
    StrRoundTrip(cfg.maxPriority);
  }

  /** An enable flag is set exactly when its rate is configured; an unset rate is
      always programmed as 0; the rest of every entry is fixed. */
  lemma QueueEntryFields(cfg: QueueCfg)
    ensures Lookup(SchedCfgData(cfg), "max_rate_enable") == Some(BoolVal(cfg.maxRate != None))
    ensures Lookup(SchedCfgData(cfg), "min_rate_enable") == Some(BoolVal(cfg.minRate != None))
    ensures cfg.maxRate.None? ==> Lookup(ShapingData(cfg), "max_rate") == Some(IntVal(0))
    ensures cfg.minRate.None? ==> Lookup(ShapingData(cfg), "min_rate") == Some(IntVal(0))
    ensures Lookup(SchedCfgData(cfg), "scheduling_enable") == Some(BoolVal(true))
    ensures Lookup(ShapingData(cfg), "unit") == Some(StrVal("BPS"))
    ensures Lookup(ShapingData(cfg), "provisioning") == Some(StrVal("UPPER"))
    ensures Lookup(ShapingData(cfg), "max_burst_size") == Some(IntVal(0))
    ensures Lookup(ShapingData(cfg), "min_burst_size") == Some(IntVal(0))
    ensures Lookup(ShapingData(cfg), "max_rate") == Some(IntVal(RateValue(cfg.maxRate)))
    ensures Lookup(ShapingData(cfg), "min_rate") == Some(IntVal(RateValue(cfg.minRate)))
    ensures Lookup(SchedCfgData(cfg), "max_priority") == Some(StrVal(Str(cfg.maxPriority)))
  {
    var d, h := SchedCfgData(cfg), ShapingData(cfg);
    LookupAt(d, "max_priority", 0);
    LookupAt(d, "max_rate_enable", 1);
    LookupAt(d, "min_rate_enable", 2);
    LookupAt(d, "scheduling_enable", 3);
    LookupAt(h, "unit", 0);
    LookupAt(h, "provisioning", 1);
    LookupAt(h, "max_rate", 2);
    LookupAt(h, "min_rate", 3);
    LookupAt(h, "max_burst_size", 4);
    LookupAt(h, "min_burst_size", 5);
  }

  /** Port 16 is in pipe 0. */
  lemma DefaultPortPipe()
    ensures Pipe(DevPorts[0]) == 0
  {
  }

  /** In the built-in policy queue 0 has a guarantee and no cap, so its
      `sched_cfg` entry enables only the minimum rate and its `sched_shaping`
      entry carries a maximum of 0 that is not in force. */
  lemma DefaultQueueZeroIsUncapped()
    ensures DistinctKeys(DefaultQidCfg)
    ensures DecodeRate(Lookup(SchedCfgData(DefaultQidCfg[0].1), "max_rate_enable"),
                       Lookup(ShapingData(DefaultQidCfg[0].1), "max_rate")) == None
    ensures Lookup(ShapingData(DefaultQidCfg[0].1), "max_rate") == Some(IntVal(0))
    ensures Lookup(SchedCfgData(DefaultQidCfg[0].1), "min_rate_enable") == Some(BoolVal(true))
  {
    RateEncodingRoundTrip(DefaultQidCfg[0].1);
    QueueEntryFields(DefaultQidCfg[0].1);
  }

  /** Every queue of the built-in policy maps onto a port whose queue list has at
      least five entries. */
  lemma DefaultPolicyNeedsFiveQueues(qidMap: seq<int>)
    ensures AllMapped(qidMap, DefaultQidCfg) <==> |qidMap| >= 5
  {
    if !(|qidMap| >= 5) {
      assert DefaultQidCfg[4].0 == 4;
      assert ListIndex(qidMap, DefaultQidCfg[4].0).None?;
    }
  }
}

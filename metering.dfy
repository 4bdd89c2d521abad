/** `metering.py`: one two-rate three-colour meter entry (section 2 of RFC 2698)
    per (TEID, QFI) pair, for `UeCount` consecutive TEIDs and every configured
    QFI. */
module Metering {
  import opened Builtins
  import opened Bfrt

  /** The token-bucket parameters of one QFI: rates in kbit/s, bursts in kbit. */
  datatype MeterParams = MeterParams(cirKbps: int, pirKbps: int, cbsKbits: int, pbsKbits: int)

  const QfiMeterParams: map<int, MeterParams> := map[
    1 := MeterParams(20_000, 100_000, 120, 360),      // URLLC (QID0)
    5 := MeterParams(20_000, 100_000, 480, 1440),     // IoT (QID1)
    3 := MeterParams(70_000, 800_000, 480, 1500),     // Gaming (QID2)
    7 := MeterParams(50_000, 100_000, 180, 540),      // Video call (QID3)
    4 := MeterParams(250_000, 450_000, 700, 1_440),   // YouTube (QID4)
    2 := MeterParams(150_000, 350_000, 850, 2160),    // Twitch (QID5)
    6 := MeterParams(100_000, 500_000, 960, 2_880),   // Downloads (QID6)
    8 := MeterParams(450_000, 800_000, 1500, 2500),   // File sync (QID7)
    9 := MeterParams(80_000, 220_000, 600, 1800)      // Browsing (QID7)
  ]

  const BaseTeid: int := 0x0001
  const UeCount: nat := 110
  /** `sorted(QFI_METER_PARAMS.keys())`. */
  const Qfis: seq<int> := [1, 2, 3, 4, 5, 6, 7, 8, 9]

  const MeterTable := "Ingress.QoSMeter.meter_table"
  const TeidField := "hdr.gtpu.teid"
  const QfiField := "hdr.gtpu_ext_psc.qfi"
  const SetColor := "Ingress.QoSMeter.set_color"

  /** What section 2 of RFC 2698 asks of a meter's parameters: positive burst
      sizes, and a peak rate no lower than the committed rate; the table also
      keeps the peak burst no smaller than the committed burst. */
  predicate TwoRateParams(p: MeterParams)
  {
    0 < p.cirKbps <= p.pirKbps && 0 < p.cbsKbits <= p.pbsKbits
  }

  predicate StrictlyIncreasing(s: seq<int>)
  {
    forall i, j :: 0 <= i < j < |s| ==> s[i] < s[j]
  }

  // ---------------------------------------------------------------------------
  // The entries
  // ---------------------------------------------------------------------------

  function MeterKey(teid: int, qfi: int): seq<Field>
  {
    [Field(TeidField, teid), Field(QfiField, qfi)]
  }

  function MeterParamFields(p: MeterParams): seq<Field>
  {
    [ Field("$METER_SPEC_CIR_KBPS", p.cirKbps),
      Field("$METER_SPEC_PIR_KBPS", p.pirKbps),
      Field("$METER_SPEC_CBS_KBITS", p.cbsKbits),
      Field("$METER_SPEC_PBS_KBITS", p.pbsKbits) ]
  }

  /** The value of the first field named `name`. */
  function FieldValue(fs: seq<Field>, name: string): Option<int>
  {
    if fs == [] then None
    else if fs[0].name == name then Some(fs[0].value)
    else FieldValue(fs[1..], name)
  }

  /** The first field named `name` sits at position k. */
  lemma {:induction false} FieldValueAt(fs: seq<Field>, name: string, k: int)
    requires 0 <= k < |fs| && fs[k].name == name
    requires forall j :: 0 <= j < k ==> fs[j].name != name
    ensures FieldValue(fs, name) == Some(fs[k].value)
  {
    if k > 0 {
      FieldValueAt(fs[1..], name, k - 1);
    }
  }

  /** How the driver reads a meter's parameters back: by field name. */
  function DecodeParams(fs: seq<Field>): Option<MeterParams>
  {
    var cir, pir := FieldValue(fs, "$METER_SPEC_CIR_KBPS"), FieldValue(fs, "$METER_SPEC_PIR_KBPS");
    var cbs, pbs := FieldValue(fs, "$METER_SPEC_CBS_KBITS"), FieldValue(fs, "$METER_SPEC_PBS_KBITS");
    if cir.Some? && pir.Some? && cbs.Some? && pbs.Some? then
      Some(MeterParams(cir.value, pir.value, cbs.value, pbs.value))
    else None
  }

  /** A `set_color` meter keyed by the TEID and the QFI, whose parameters read
      back as the QFI's own. */
  function MeterEntry(teid: int, qfi: int, p: MeterParams): (r: TableEntry)
    ensures |r.key| == 2 && TeidOf(r) == teid && QfiOf(r) == qfi
    ensures r.key[0].name == TeidField && r.key[1].name == QfiField
    ensures r.action == SetColor
    ensures DecodeParams(r.params) == Some(p)
  {
    var fs := MeterParamFields(p);
    FieldValueAt(fs, "$METER_SPEC_PIR_KBPS", 1);
    FieldValueAt(fs, "$METER_SPEC_CBS_KBITS", 2);
    FieldValueAt(fs, "$METER_SPEC_PBS_KBITS", 3);
    TableEntry(MeterKey(teid, qfi), SetColor, MeterParamFields(p))
  }

  predicate Covers(params: map<int, MeterParams>, qfis: seq<int>)
  {
    forall q :: q in qfis ==> q in params
  }

  /** The entries of one UE: one per QFI, in the order of `qfis`. */
  function UeEntries(teid: int, qfis: seq<int>, params: map<int, MeterParams>): (r: seq<TableEntry>)
    requires Covers(params, qfis)
  {
    seq(|qfis|, j requires 0 <= j < |qfis| => MeterEntry(teid, qfis[j], params[qfis[j]]))
  }

  /** The entries of the first `ueCount` UEs, UE by UE. */
  function MeterEntries(baseTeid: int, ueCount: nat, qfis: seq<int>, params: map<int, MeterParams>): (r: seq<TableEntry>)
    requires Covers(params, qfis)
    ensures |r| == ueCount * |qfis|
  {
    if ueCount == 0 then []
    else
      assert (ueCount - 1) * |qfis| + |qfis| == ueCount * |qfis|;
      MeterEntries(baseTeid, ueCount - 1, qfis, params) + UeEntries(baseTeid + ueCount - 1, qfis, params)
  }

  /** The nested `for ue` / `for qfi` loop of `main`, appending entry by entry. */
  method BuildMeterEntries(baseTeid: int, ueCount: nat, qfis: seq<int>, params: map<int, MeterParams>)
    returns (entries: seq<TableEntry>)
    requires Covers(params, qfis)
    ensures entries == MeterEntries(baseTeid, ueCount, qfis, params)
  {
    entries := [];
    for ue := 0 to ueCount
      invariant entries == MeterEntries(baseTeid, ue, qfis, params)
    {
      var teid := baseTeid + ue;
      ghost var done := entries;
      for j := 0 to |qfis|
        invariant entries == done + UeEntries(teid, qfis[..j], params)
      {
        var qfi := qfis[j];
        var p := params[qfi];
        entries := entries + [MeterEntry(teid, qfi, p)];
        assert UeEntries(teid, qfis[..j + 1], params) == UeEntries(teid, qfis[..j], params) + [MeterEntry(teid, qfi, p)];
      }
      assert qfis[..|qfis|] == qfis;
    }
  }

  /** `main`: set up the meter table, show TEIDs as hex, program all entries. */
  method RunMetering(c: Controller)
    modifies c`log
    ensures c.log == old(c.log) + [ SetupCall([MeterTable]),
                                    AnnotateCall(MeterTable, TeidField, "hex"),
                                    ProgramCall(MeterTable, MeterEntries(BaseTeid, UeCount, Qfis, QfiMeterParams)),
                                    TearDownCall ]
  {
    ConfiguredTableIsWellFormed();
    c.SetupTables([MeterTable]);
    c.AddAnnotation(MeterTable, TeidField, "hex");
    var entries := BuildMeterEntries(BaseTeid, UeCount, Qfis, QfiMeterParams);
    c.ProgramTable(MeterTable, entries);
    c.TearDown();
  }

  // ---------------------------------------------------------------------------
  // Properties
  // ---------------------------------------------------------------------------

  /** The entry at position `ue·|qfis| + j` is the meter of TEID `baseTeid + ue`
      and QFI `qfis[j]`, carrying that QFI's parameters. */
  lemma {:induction false} MeterEntryAt(baseTeid: int, ueCount: nat, qfis: seq<int>, params: map<int, MeterParams>,
                                        ue: nat, j: nat)
    requires Covers(params, qfis)
    requires ue < ueCount && j < |qfis|
    ensures ue * |qfis| + j < |MeterEntries(baseTeid, ueCount, qfis, params)|
    ensures MeterEntries(baseTeid, ueCount, qfis, params)[ue * |qfis| + j]
         == MeterEntry(baseTeid + ue, qfis[j], params[qfis[j]])
  {
    var q := |qfis|;
    if ue == ueCount - 1 {
      assert ue * q + j == (ueCount - 1) * q + j;
    } else {
      MeterEntryAt(baseTeid, ueCount - 1, qfis, params, ue, j);
      assert ue * q + j < (ue + 1) * q <= (ueCount - 1) * q by {
        assert (ue + 1) * q == ue * q + q;
        MultiplyMonotone(ue + 1, ueCount - 1, q);
      }
    }
  }

  lemma MultiplyMonotone(a: nat, b: nat, q: nat)
    requires a <= b
    ensures a * q <= b * q
  {
  }

  /** The TEID of an entry's match key. */
  function TeidOf(e: TableEntry): int
    requires |e.key| == 2
  {
    e.key[0].value
  }

  function QfiOf(e: TableEntry): int
    requires |e.key| == 2
  {
    e.key[1].value
  }

  /** A `set_color` meter of a TEID in range and a listed QFI, carrying that
      QFI's CIR, PIR, CBS and PBS in that order. */
  predicate IsMeterEntry(e: TableEntry, baseTeid: int, ueCount: nat, qfis: seq<int>, params: map<int, MeterParams>)
    requires Covers(params, qfis)
  {
    && |e.key| == 2
    && baseTeid <= TeidOf(e) < baseTeid + ueCount
    && QfiOf(e) in qfis
    && e == MeterEntry(TeidOf(e), QfiOf(e), params[QfiOf(e)])
  }

  /** Every entry is the meter of some UE's TEID and some listed QFI, with that
      QFI's parameters. */
  lemma {:induction false} MeterEntriesShape(baseTeid: int, ueCount: nat, qfis: seq<int>, params: map<int, MeterParams>)
    requires Covers(params, qfis)
    ensures forall e :: e in MeterEntries(baseTeid, ueCount, qfis, params) ==> IsMeterEntry(e, baseTeid, ueCount, qfis, params)
  {
    if ueCount > 0 {
      var pre := MeterEntries(baseTeid, ueCount - 1, qfis, params);
      var last := UeEntries(baseTeid + ueCount - 1, qfis, params);
      MeterEntriesShape(baseTeid, ueCount - 1, qfis, params);
      forall e | e in pre + last ensures IsMeterEntry(e, baseTeid, ueCount, qfis, params) {
        if e in pre {
          assert IsMeterEntry(e, baseTeid, ueCount - 1, qfis, params);
        } else {
          var j :| 0 <= j < |last| && last[j] == e;
          assert qfis[j] in qfis;
        }
      }
    }
  }

  /** The set of TEIDs that entries match on. */
  function Teids(es: seq<TableEntry>): set<int>
  {
    set i | 0 <= i < |es| && |es[i].key| == 2 :: TeidOf(es[i])
  }

  /** The TEIDs programmed are exactly `baseTeid .. baseTeid + ueCount - 1`. */
  lemma MeterTeidsAreRange(baseTeid: int, ueCount: nat, qfis: seq<int>, params: map<int, MeterParams>)
    requires Covers(params, qfis) && |qfis| > 0
    ensures forall t :: t in Teids(MeterEntries(baseTeid, ueCount, qfis, params)) <==> baseTeid <= t < baseTeid + ueCount
  {
    var es := MeterEntries(baseTeid, ueCount, qfis, params);
    MeterEntriesShape(baseTeid, ueCount, qfis, params);
    forall t ensures t in Teids(es) <==> baseTeid <= t < baseTeid + ueCount {
      if t in Teids(es) {
        var i :| 0 <= i < |es| && |es[i].key| == 2 && TeidOf(es[i]) == t;
        assert es[i] in es;
      }
      if baseTeid <= t < baseTeid + ueCount {
        MeterEntryAt(baseTeid, ueCount, qfis, params, t - baseTeid, 0);
        var i := (t - baseTeid) * |qfis| + 0;
        assert |es[i].key| == 2 && TeidOf(es[i]) == t;
      }
    }
  }

  /** `(teid, qfi)` match keys in strictly increasing lexicographic order. */
  predicate KeyBefore(a: TableEntry, b: TableEntry)
    requires |a.key| == 2 && |b.key| == 2
  {
    TeidOf(a) < TeidOf(b) || (TeidOf(a) == TeidOf(b) && QfiOf(a) < QfiOf(b))
  }

  /** With the QFIs sorted, the entries are ordered by TEID first and QFI
      second, strictly, so no two share a match key. */
  lemma {:induction false} MeterEntriesOrdered(baseTeid: int, ueCount: nat, qfis: seq<int>, params: map<int, MeterParams>)
    requires Covers(params, qfis) && StrictlyIncreasing(qfis)
    ensures forall e :: e in MeterEntries(baseTeid, ueCount, qfis, params) ==> |e.key| == 2
    ensures forall i, j :: 0 <= i < j < |MeterEntries(baseTeid, ueCount, qfis, params)| ==>
              KeyBefore(MeterEntries(baseTeid, ueCount, qfis, params)[i], MeterEntries(baseTeid, ueCount, qfis, params)[j])
  {
    var es := MeterEntries(baseTeid, ueCount, qfis, params);
    MeterEntriesShape(baseTeid, ueCount, qfis, params);
    if ueCount > 0 {
      var pre := MeterEntries(baseTeid, ueCount - 1, qfis, params);
      var last := UeEntries(baseTeid + ueCount - 1, qfis, params);
      MeterEntriesOrdered(baseTeid, ueCount - 1, qfis, params);
      MeterEntriesShape(baseTeid, ueCount - 1, qfis, params);
      forall i | 0 <= i < |pre| ensures |pre[i].key| == 2 && TeidOf(pre[i]) < baseTeid + ueCount - 1 {
        assert pre[i] in pre;
      }
      forall i, j | 0 <= i < j < |es| ensures KeyBefore(es[i], es[j]) {
        if j < |pre| {
          assert es[i] == pre[i] && es[j] == pre[j];
        } else if i < |pre| {
          assert es[i] == pre[i] && es[j] == last[j - |pre|];
        } else {
          assert es[i] == last[i - |pre|] && es[j] == last[j - |pre|];
        }
      }
    }
  }

  /** No two entries share a `(teid, qfi)` match key. */
  lemma MeterKeysUnique(baseTeid: int, ueCount: nat, qfis: seq<int>, params: map<int, MeterParams>)
    requires Covers(params, qfis) && StrictlyIncreasing(qfis)
    ensures forall i, j :: 0 <= i < j < |MeterEntries(baseTeid, ueCount, qfis, params)| ==>
              MeterEntries(baseTeid, ueCount, qfis, params)[i].key != MeterEntries(baseTeid, ueCount, qfis, params)[j].key
  {
    MeterEntriesOrdered(baseTeid, ueCount, qfis, params);
  }

  /** `Qfis` is the configured table's key set in ascending order. */
  lemma QfisAreSortedKeys()
    ensures StrictlyIncreasing(Qfis)
    ensures (set j | 0 <= j < |Qfis| :: Qfis[j]) == QfiMeterParams.Keys
    ensures Covers(QfiMeterParams, Qfis)
  {
    assert QfiMeterParams.Keys == {1, 2, 3, 4, 5, 6, 7, 8, 9};
    assert forall q :: q in Qfis ==> q in QfiMeterParams;
    assert (set j | 0 <= j < |Qfis| :: Qfis[j]) == {1, 2, 3, 4, 5, 6, 7, 8, 9} by {
      assert Qfis[0] == 1 && Qfis[1] == 2 && Qfis[2] == 3 && Qfis[3] == 4 && Qfis[4] == 5;
      assert Qfis[5] == 6 && Qfis[6] == 7 && Qfis[7] == 8 && Qfis[8] == 9;
    }
  }

  /** Every configured QFI has CIR ≤ PIR and CBS ≤ PBS, all positive. */
  lemma ConfiguredTableIsWellFormed()
    ensures forall q :: q in QfiMeterParams ==> TwoRateParams(QfiMeterParams[q])
    ensures Covers(QfiMeterParams, Qfis)
  {
    QfisAreSortedKeys();
  }

  /** The configured run programs 110 × 9 = 990 entries, with unique keys, for
      TEIDs 1 .. 110. */
  lemma ConfiguredRun()
    ensures Covers(QfiMeterParams, Qfis)
    ensures |MeterEntries(BaseTeid, UeCount, Qfis, QfiMeterParams)| == 990
    ensures forall i, j :: 0 <= i < j < |MeterEntries(BaseTeid, UeCount, Qfis, QfiMeterParams)| ==>
              MeterEntries(BaseTeid, UeCount, Qfis, QfiMeterParams)[i].key
              != MeterEntries(BaseTeid, UeCount, Qfis, QfiMeterParams)[j].key
    ensures forall t :: t in Teids(MeterEntries(BaseTeid, UeCount, Qfis, QfiMeterParams)) <==> 1 <= t <= 110
  {
    QfisAreSortedKeys();
    MeterTeidsAreRange(BaseTeid, UeCount, Qfis, QfiMeterParams);
    MeterKeysUnique(BaseTeid, UeCount, Qfis, QfiMeterParams);
  }
}

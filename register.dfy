/** `register.py`: read the telemetry registers, keep the non-zero cells, rank
    them by value (largest first), optionally export them as CSV and show the
    top K; or clear the registers. */
module Register {
  import opened Builtins
  import opened Bfrt

  const RegisterNames: seq<string> :=
    ["Egress.IntStats.packet_count_register", "Egress.IntStats.byte_count_register"]

  const CsvHeader: seq<string> := ["index", "value"]

  // ---------------------------------------------------------------------------
  // Filtering and ranking a snapshot
  // ---------------------------------------------------------------------------

  /** `v == 0 or v == (0, 0)`: the cells the filter drops, which are exactly
      the values a clear writes. */
  function IsZero(v: RegValue): (z: bool)
    ensures z <==> Cleared(v) == v
  {
    v == Counter(0) || v == CounterPair(0, 0)
  }

  /** The sort key: the counter itself, or the sum of a pair. */
  function SortKey(v: RegValue): (k: int)
    ensures IsZero(v) ==> k == 0
  {
    match v
    case Counter(n) => n
    case CounterPair(a, b) => a + b
  }

  /** The non-zero cells of a snapshot. */
  function NonZero(s: seq<RegRow>): (r: seq<RegRow>)
    ensures r == [] <==> forall i :: 0 <= i < |s| ==> IsZero(s[i].value)
  {
    if s == [] then []
    else
      assert s == [s[0]] + s[1..];
      (if IsZero(s[0].value) then [] else [s[0]]) + NonZero(s[1..])
  }

  /** The filter keeps every non-zero cell as often as it occurs and no zero cell. */
  lemma {:induction false} NonZeroCounts(s: seq<RegRow>)
    ensures forall x :: multiset(NonZero(s))[x] == if IsZero(x.value) then 0 else multiset(s)[x]
  {
    if s != [] {
      NonZeroCounts(s[1..]);
      assert s == [s[0]] + s[1..];
    }
  }

  lemma NonZeroCons(h: RegRow, t: seq<RegRow>)
    ensures NonZero([h] + t) == (if IsZero(h.value) then [] else [h]) + NonZero(t)
  {
    assert ([h] + t)[1..] == t;
  }

  /** Non-increasing by sort key; the order of equal keys is not specified. */
  predicate SortedDesc(s: seq<RegRow>)
  {
    forall i, j :: 0 <= i < j < |s| ==> SortKey(s[i].value) >= SortKey(s[j].value)
  }

  /** A row no smaller than the head of a sorted list can go in front of it. */
  lemma SortedCons(h: RegRow, t: seq<RegRow>)
    requires SortedDesc(t)
    requires t != [] ==> SortKey(h.value) >= SortKey(t[0].value)
    ensures SortedDesc([h] + t)
  {
    forall i, j | 0 <= i < j < |t| + 1
      ensures SortKey(([h] + t)[i].value) >= SortKey(([h] + t)[j].value)
    {
      if i == 0 && j > 1 {
        assert SortKey(t[0].value) >= SortKey(t[j - 1].value);
      }
    }
  }

  function InsertDesc(x: RegRow, s: seq<RegRow>): (r: seq<RegRow>)
    requires SortedDesc(s)
    ensures SortedDesc(r)
    ensures multiset(r) == multiset(s) + multiset{x}
    ensures |r| == |s| + 1
    ensures r[0] == x || (s != [] && r[0] == s[0])
  {
    if s == [] || SortKey(x.value) >= SortKey(s[0].value) then
      SortedCons(x, s);
      [x] + s
    else
      var rest := InsertDesc(x, s[1..]);
      assert s == [s[0]] + s[1..];
      assert SortKey(s[0].value) >= SortKey(rest[0].value);
      SortedCons(s[0], rest);
      [s[0]] + rest
  }

  /** `sort_values(by="value", key=SortKey, ascending=False)`. */
  function SortDesc(s: seq<RegRow>): (r: seq<RegRow>)
    ensures SortedDesc(r)
    ensures multiset(r) == multiset(s)
  {
    if s == [] then []
    else
      assert s == [s[0]] + s[1..];
      InsertDesc(s[0], SortDesc(s[1..]))
  }

  /** The rows the tool exports: the non-zero cells, largest value first. */
  function Ranked(s: seq<RegRow>): (r: seq<RegRow>)
    ensures SortedDesc(r)
    ensures forall x :: multiset(r)[x] == if IsZero(x.value) then 0 else multiset(s)[x]
  {
    NonZeroCounts(s);
    SortDesc(NonZero(s))
  }

  /** pandas' `head(k)`: the first k rows, or for a negative k all rows but the
      last |k|. */
  function Head(s: seq<RegRow>, k: int): (r: seq<RegRow>)
    ensures r <= s
    ensures k >= 0 ==> |r| == if k < |s| then k else |s|
    ensures k < 0 ==> |r| == if -k < |s| then |s| + k else 0
  {
    if k >= 0 then (if k < |s| then s[..k] else s)
    else (if -k < |s| then s[..|s| + k] else [])
  }

  // ---------------------------------------------------------------------------
  // dump_register_df
  // ---------------------------------------------------------------------------

  /** What `to_csv(path, index=False)` writes: the header and the rows. */
  datatype CsvFile = CsvFile(path: string, header: seq<string>, rows: seq<RegRow>)

  /** The observable outcome of one dump. */
  datatype Dump =
    | Missing                                       // the register does not exist
    | NoNonZero                                     // every cell is zero
    | Dumped(csv: Option<CsvFile>, top: seq<RegRow>)

  /** Everything `dump_register_df` does after the read: filter, rank, write the
      CSV only for a non-empty path, show the top K. */
  function Summarize(snapshot: seq<RegRow>, csvPath: Option<string>, topK: int): (d: Dump)
    ensures d.NoNonZero? <==> forall i :: 0 <= i < |snapshot| ==> IsZero(snapshot[i].value)
    ensures d.Dumped? ==> (d.csv.Some? <==> csvPath.Some? && csvPath.value != "")
    ensures d.Dumped? && d.csv.Some? ==>
              d.csv.value == CsvFile(csvPath.value, CsvHeader, Ranked(snapshot))
    ensures d.Dumped? ==> d.top == Head(Ranked(snapshot), topK)
    ensures !d.Missing?
  {
    var ranked := Ranked(snapshot);
    if NonZero(snapshot) == [] then NoNonZero
    else
      var csv := if csvPath.Some? && csvPath.value != "" then Some(CsvFile(csvPath.value, CsvHeader, ranked)) else None;
      Dumped(csv, Head(ranked, topK))
  }

  /** `dump_register_df(c, reg_name, csv_path, top_k, pipe)`. */
  method DumpRegisterDf(c: Controller, regName: string, csvPath: Option<string>, topK: int, pipe: int)
    returns (d: Dump)
    modifies c`log
    ensures regName !in c.registers ==>
              d == Missing && c.log == old(c.log) + [ExistsCall(regName)]
    ensures regName in c.registers ==>
              d == Summarize(c.registers[regName], csvPath, topK)
              && c.log == old(c.log) + [ExistsCall(regName), ReadCall(regName, pipe)]
  {
    var present := c.TableExists(regName);
    if !present {
      return Missing;
    }
    var snapshot := c.ReadRegisterBatched(regName, pipe);
    d := Summarize(snapshot, csvPath, topK);
  }

  // ---------------------------------------------------------------------------
  // The command-line tool
  // ---------------------------------------------------------------------------

  function ReplaceDots(s: string): (r: string)
    ensures |r| == |s|
    ensures forall i :: 0 <= i < |s| ==> r[i] == if s[i] == '.' then '_' else s[i]
  {
    if s == [] then [] else [if s[0] == '.' then '_' else s[0]] + ReplaceDots(s[1..])
  }

  /** `f"{reg.replace('.', '_')}.csv"`. */
  function DefaultCsvPath(reg: string): (p: string)
    ensures |p| == |reg| + 4 && p[|reg|..] == ".csv"
    ensures forall i :: 0 <= i < |reg| ==> p[i] == if reg[i] == '.' then '_' else reg[i]
    ensures '.' !in p[..|reg|]
  {
    ReplaceDots(reg) + ".csv"
  }

  /** `args.output or DefaultCsvPath(reg)`: an empty output path counts as none. */
  function OutPath(output: Option<string>, reg: string): (p: string)
    ensures output.Some? && output.value != "" ==> p == output.value
    ensures output.None? || output.value == "" ==> p == DefaultCsvPath(reg)
    ensures p != ""
  {
    if output.Some? && output.value != "" then output.value else DefaultCsvPath(reg)
  }

  datatype Mode = Clear | Read

  /** The calls one read-mode dump makes. */
  function DumpCalls(regs: map<string, seq<RegRow>>, reg: string): seq<Call>
  {
    if reg in regs then [ExistsCall(reg), ReadCall(reg, 0)] else [ExistsCall(reg)]
  }

  /** The calls read mode makes for `names`, one dump after the other. */
  function ReadModeCalls(regs: map<string, seq<RegRow>>, names: seq<string>): seq<Call>
  {
    Flatten(MapSeq((reg: string) => DumpCalls(regs, reg), names))
  }

  function ExpectedDump(regs: map<string, seq<RegRow>>, output: Option<string>, topK: int, reg: string): Dump
  {
    if reg in regs then Summarize(regs[reg], Some(OutPath(output, reg)), topK) else Missing
  }

  /** The device's registers after clearing each of `names`. */
  function ClearedRegisters(regs: map<string, seq<RegRow>>, names: seq<string>): map<string, seq<RegRow>>
  {
    map r | r in regs :: if r in names then ClearedRows(regs[r]) else regs[r]
  }

  /** Clearing one more register clears it in the map built so far. */
  lemma ClearedRegistersStep(regs: map<string, seq<RegRow>>, names: seq<string>, i: int)
    requires 0 <= i < |names|
    ensures ClearedRegisters(regs, names[..i + 1])
            == var m := ClearedRegisters(regs, names[..i]);
               if names[i] in m then m[names[i] := ClearedRows(m[names[i]])] else m
  {
    var name := names[i];
    assert names[..i + 1] == names[..i] + [name];
    if name in regs && name in names[..i] {
      ClearIsIdempotent(regs[name]);
    }
  }

  /** Clear mode: `clear_register` on each register in turn. */
  method ClearAll(c: Controller, names: seq<string>)
    modifies c
    ensures c.log == old(c.log) + seq(|names|, k requires 0 <= k < |names| => ClearCall(names[k]))
    ensures c.registers == ClearedRegisters(old(c.registers), names)
  {
    ghost var log0, regs0 := c.log, c.registers;
    for i := 0 to |names|
      invariant c.log == log0 + seq(i, k requires 0 <= k < i => ClearCall(names[k]))
      invariant c.registers == ClearedRegisters(regs0, names[..i])
    {
      c.ClearRegister(names[i]);
      ClearedRegistersStep(regs0, names, i);
    }
    assert names[..|names|] == names;
  }

  lemma ReadModeCallsStep(regs: map<string, seq<RegRow>>, names: seq<string>, i: int)
    requires 0 <= i < |names|
    ensures ReadModeCalls(regs, names[..i + 1]) == ReadModeCalls(regs, names[..i]) + DumpCalls(regs, names[i])
  {
    var calls := (reg: string) => DumpCalls(regs, reg);
    MapSeqPrefix(calls, names, i);
    FlattenSnoc(MapSeq(calls, names[..i]), DumpCalls(regs, names[i]));
  }

  /** One pass of the read-mode loop: pick the output path, then dump. */
  method DumpOne(c: Controller, reg: string, output: Option<string>, topK: int) returns (d: Dump)
    modifies c`log
    ensures d == ExpectedDump(c.registers, output, topK, reg)
    ensures c.log == old(c.log) + DumpCalls(c.registers, reg)
  {
    var outPath := OutPath(output, reg);
    d := DumpRegisterDf(c, reg, Some(outPath), topK, 0);
  }

  /** Read mode: dump each register in turn to `OutPath(output, reg)`. */
  method DumpAll(c: Controller, names: seq<string>, output: Option<string>, topK: int) returns (dumps: seq<Dump>)
    modifies c`log
    ensures c.log == old(c.log) + ReadModeCalls(c.registers, names)
    ensures |dumps| == |names|
    ensures forall i :: 0 <= i < |dumps| ==> dumps[i] == ExpectedDump(c.registers, output, topK, names[i])
  {
    dumps := [];
    ghost var log0, regs := c.log, c.registers;
    ghost var expected := (reg: string) => ExpectedDump(regs, output, topK, reg);
    for i := 0 to |names|
      invariant c.registers == regs
      invariant c.log == log0 + ReadModeCalls(regs, names[..i])
      invariant dumps == MapSeq(expected, names[..i])
    {
      var reg := names[i];
      var d := DumpOne(c, reg, output, topK);
      ReadModeCallsStep(regs, names, i);
      MapSeqPrefix(expected, names, i);
      dumps := dumps + [d];
    }
    assert names[..|names|] == names;
  }

  /** The script's main block: set up the two registers, clear them or dump
      them, tear down. */
  method RunRegisterTool(c: Controller, mode: Mode, output: Option<string>, topK: int)
    returns (dumps: seq<Dump>)
    modifies c
    ensures mode == Clear ==>
              c.log == old(c.log) + [SetupCall(RegisterNames)]
                       + seq(|RegisterNames|, k requires 0 <= k < |RegisterNames| => ClearCall(RegisterNames[k]))
                       + [TearDownCall]
              && c.registers == ClearedRegisters(old(c.registers), RegisterNames)
              && dumps == []
    ensures mode == Read ==>
              c.log == old(c.log) + [SetupCall(RegisterNames)] + ReadModeCalls(c.registers, RegisterNames)
                       + [TearDownCall]
              && c.registers == old(c.registers)
              && |dumps| == |RegisterNames|
              && forall i :: 0 <= i < |dumps| ==>
                   dumps[i] == ExpectedDump(c.registers, output, topK, RegisterNames[i])
  {
    c.SetupTables(RegisterNames);
    dumps := [];
    if mode == Clear {
      ClearAll(c, RegisterNames);
    } else {
      dumps := DumpAll(c, RegisterNames, output, topK);
    }
    c.TearDown();
  }

  // ---------------------------------------------------------------------------
  // Properties
  // ---------------------------------------------------------------------------

  /** The exported rows are exactly the non-zero cells, each as often as it was
      read, and no zero cell. */
  lemma {:induction false} RankedKeepsExactlyNonZero(s: seq<RegRow>, x: RegRow)
    ensures x in Ranked(s) <==> x in s && !IsZero(x.value)
  {
    assert x in Ranked(s) <==> multiset(Ranked(s))[x] > 0;
    assert x in s <==> multiset(s)[x] > 0;
  }

  /** With K at least 0, the displayed table is the K largest non-zero cells, or
      all of them when there are fewer: every shown cell ranks at least as high as
      every cell not shown. */
  lemma TopKAreLargest(s: seq<RegRow>, k: nat, i: int, j: int)
    requires Summarize(s, None, k).Dumped?
    requires 0 <= i < |Summarize(s, None, k).top| <= j < |Ranked(s)|
    ensures SortKey(Summarize(s, None, k).top[i].value) >= SortKey(Ranked(s)[j].value)
    ensures |Summarize(s, None, k).top| == if k < |Ranked(s)| then k else |Ranked(s)|
  {
  }

  /** Clearing a register twice leaves it as clearing it once. */
  lemma ClearIsIdempotent(rows: seq<RegRow>)
    ensures ClearedRows(ClearedRows(rows)) == ClearedRows(rows)
  {
    forall i | 0 <= i < |rows| ensures Cleared(Cleared(rows[i].value)) == Cleared(rows[i].value) {
      match rows[i].value
      case Counter(_) =>
      case CounterPair(_, _) =>
    }
  }

  /** After a clear every cell is zero, so a dump finds nothing to export. */
  lemma {:induction false} ClearedHasNoNonZero(rows: seq<RegRow>, csvPath: Option<string>, topK: int)
    ensures NonZero(ClearedRows(rows)) == []
    ensures Summarize(ClearedRows(rows), csvPath, topK) == NoNonZero
  {
    var z := ClearedRows(rows);
    forall i | 0 <= i < |z| ensures IsZero(z[i].value) {
      match rows[i].value
      case Counter(_) =>
      case CounterPair(_, _) =>
    }
  }

  /** With an explicit output path both registers are exported to that one path,
      the second export replacing the first. */
  lemma ExplicitOutputIsShared(path: string)
    requires path != ""
    ensures OutPath(Some(path), RegisterNames[0]) == OutPath(Some(path), RegisterNames[1]) == path
  {
  }

  lemma NonZeroExample()
    ensures NonZero([RegRow(0, Counter(100)), RegRow(5, Counter(250)), RegRow(9, Counter(0))])
         == [RegRow(0, Counter(100)), RegRow(5, Counter(250))]
  {
    var a, b, z := RegRow(5, Counter(250)), RegRow(0, Counter(100)), RegRow(9, Counter(0));
    NonZeroCons(z, []);
    NonZeroCons(a, [z]);
    NonZeroCons(b, [a, z]);
    assert [z] == [z] + [] && [a, z] == [a] + [z] && [b, a, z] == [b] + [a, z];
  }


  lemma SortExample()
    ensures SortDesc([RegRow(0, Counter(100)), RegRow(5, Counter(250))])
         == [RegRow(5, Counter(250)), RegRow(0, Counter(100))]
  {
    var a, b := RegRow(5, Counter(250)), RegRow(0, Counter(100));
    assert SortDesc([a]) == [a];
    assert [b, a][1..] == [a];
    assert InsertDesc(b, [a]) == [a] + InsertDesc(b, []);
  }

  /** A snapshot `[(0, 100), (5, 250), (9, 0)]` ranks as `[(5, 250), (0, 100)]`. */
  lemma RankedExample()
    ensures Ranked([RegRow(0, Counter(100)), RegRow(5, Counter(250)), RegRow(9, Counter(0))])
         == [RegRow(5, Counter(250)), RegRow(0, Counter(100))]
  {
    NonZeroExample();
    SortExample();
  }

  /** Exporting that snapshot writes `[(5, 250), (0, 100)]` and shows the top-1
      `[(5, 250)]`. */
  lemma SnapshotExample()
    ensures Summarize([RegRow(0, Counter(100)), RegRow(5, Counter(250)), RegRow(9, Counter(0))], Some("out.csv"), 1)
         == Dumped(Some(CsvFile("out.csv", CsvHeader, [RegRow(5, Counter(250)), RegRow(0, Counter(100))])),
                   [RegRow(5, Counter(250))])
  {
    RankedExample();
  }
}

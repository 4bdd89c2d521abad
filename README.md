# bfrt-controller postcards: a Dafny model

This project models four control-plane scripts from the `examples/postcards`
directory of bfrt-controller. They drive a Tofino switch running a 5G user-plane
pipeline:

- **register.py.** Clears the two in-band telemetry registers
  (`Egress.IntStats.packet_count_register` and `byte_count_register`), or reads
  them. Reading drops the zero cells, ranks the rest by value (a counter, or the
  sum of a counter pair), writes them to a CSV file when a path is given, and
  shows the top K.
- **metering.py.** Programs one two-rate three-colour meter per (TEID, QFI)
  pair: 110 consecutive TEIDs from `0x0001`, times the nine configured QFIs,
  each QFI with its own CIR, PIR, CBS and PBS.
- **queueing.py.** Programs the QFI → egress-queue table, either from a built-in
  mapping or from a JSON object whose keys are converted with `int`.
- **scheduling.py.** For each device port, reads the port's group and its
  logical → physical queue list. Then, for every logical queue of the policy, it
  sends one `sched_cfg` entry (priority, which rate limits are in force) and one
  `sched_shaping` entry (the rates). The entries go out as two batched modifies.
  An absent rate is programmed as "disabled, 0".

The switch client (`bfrt_controller.Controller`) is not part of this model.
`Bfrt.Controller` is a class that records every call a script makes on it, in
order, in its `log`. It answers the two register queries (does the register
exist, what does it hold) from its `registers` field. Its `clear_register` is
assumed to zero every cell of an existing register in the cell's own shape and
to leave a missing register unchanged. Every script's `main` is
therefore a method whose `ensures` gives the exact call sequence it produces.

Python semantics the scripts depend on are written out in `Builtins`:

- `str(n)` and `int(s)`, with `int(str(n)) == n` proved;
- list indexing with negative indices and IndexError;
- dictionaries as insertion-ordered item lists;
- the comprehension `{int(k): v ...}`, where a later item with an equal
  converted key overwrites in place.

Modules: `Builtins`, `Bfrt` (wire types and the controller), `Register`,
`Metering`, `Queueing`, `Scheduling`, one per script.

Points where the model pins down behaviour the scripts leave implicit:

- **Empty strings.** An empty `--output` string counts as no output: the default
  path is used (`args.output or …`). An empty `csv_path` writes no file
  (`if csv_path:`).
- **Negative top-K.** A negative `--top-k` shows all rows but the last |K|, as
  pandas' `head` does.
- **Shared output path.** With an explicit `--output`, both registers are
  exported to that one path, and the second export replaces the first
  (`Register.ExplicitOutputIsShared`).
- **Missing queue.** `egress_qid_queues` is a list, so `qid_map[logical_qid]`
  follows Python's indexing. A negative logical queue in -len .. -1 is not an
  error: it selects a physical queue counted from the end of the list (-1 on
  [10, 11, 12] gives 12), and the batches are sent as usual. Only a logical
  queue outside -len .. len-1 is an IndexError. Then the two batched modifies of
  that port are never sent, and `main` stops before `tear_down`.
- **Config error.** A JSON key that is not an integer is a ValueError. In
  `queueing.py` this happens after `setup_tables`, so nothing is programmed and
  `tear_down` is not reached. In `scheduling.py` the conversion runs at import
  time (scheduling.py:37-40), before any `Controller` exists, so no call is made
  at all. `Scheduling.LoadQidCfg` returns that error, and `Scheduling.RunScheduling`
  takes an already converted policy, so the two are not chained in the model.
- **RFC.** The docstring of `metering.py` cites RFC 2697, but the parameters
  (CIR, PIR, CBS, PBS) are those of the two-rate meter of RFC 2698. The model
  follows the parameters.

## Model

| member | source | states |
|---|---|---|
| Register.IsZero | examples/postcards/register.py:28 | a cell is dropped by the filter exactly when it equals the value a clear writes in its shape |
| Register.SortKey | examples/postcards/register.py:37 | a zero cell, counter or pair, has sort key 0 |
| Register.NonZero | examples/postcards/register.py:28-32 | the filtered snapshot is empty exactly when every cell is 0 or (0, 0) |
| Register.NonZeroCounts | examples/postcards/register.py:28 | the filter keeps every non-zero cell as often as it occurs and drops every zero cell (multiset counts) |
| Register.InsertDesc | examples/postcards/register.py:35-39 | inserting into a list sorted by descending value keeps it sorted, and adds exactly that row |
| Register.SortDesc | examples/postcards/register.py:35-39 | the descending sort is ordered by value (a counter, or the sum of a pair) and is a permutation of its input |
| Register.Ranked | examples/postcards/register.py:28-39 | the exported rows are sorted by descending value and are exactly the non-zero cells, with multiplicity |
| Register.Head | examples/postcards/register.py:46 | `head(k)` is a prefix: min(k, n) rows for k ≥ 0, n − abs(k) rows (or none) for k < 0 |
| Register.Summarize | examples/postcards/register.py:27-46 | nothing exported iff every cell is zero; a CSV iff the path is given and non-empty, holding the ranked rows under the `index,value` header; the shown table is `head(top_k)` of the ranked rows |
| Register.DumpRegisterDf | examples/postcards/register.py:17-46 | a missing register yields only the existence query; otherwise one batched read of the given pipe, and the outcome of the filter, sort, export and head on what was read |
| Register.ReplaceDots | examples/postcards/register.py:66 | `str.replace('.', '_')` keeps the length and changes exactly the dots, each to '_' |
| Register.DefaultCsvPath | examples/postcards/register.py:66 | the default path is the register name with every '.' replaced by '_', followed by ".csv", so it has no dot before the extension |
| Register.OutPath | examples/postcards/register.py:66 | a non-empty `--output` is used as given, otherwise the default path; never empty |
| Register.ClearAll | examples/postcards/register.py:60-62 | one clear per register in order, and afterwards exactly those registers read zero, each cell keeping its shape |
| Register.DumpOne | examples/postcards/register.py:65-67 | one read-mode pass: dump to `OutPath` with the given top K on pipe 0 |
| Register.DumpAll | examples/postcards/register.py:64-67 | the registers are dumped in order; the call log and each outcome are those of `DumpOne` on the unchanged register contents |
| Register.RunRegisterTool | examples/postcards/register.py:56-69 | setup, then the clears or the dumps of the two telemetry registers, then teardown; clear mode zeroes both, read mode changes no register |
| Register.RankedKeepsExactlyNonZero | examples/postcards/register.py:28-42 | a row is exported iff it was read and is non-zero |
| Register.TopKAreLargest | examples/postcards/register.py:35-46 | for K ≥ 0 the shown rows are the min(K, n) largest: each ranks at least as high as every non-zero row not shown |
| Register.ClearIsIdempotent | examples/postcards/register.py:61-62 | clearing a register twice leaves what clearing once leaves |
| Register.ClearedHasNoNonZero | examples/postcards/register.py:28-32 | after a clear a dump finds no non-zero entry |
| Register.ExplicitOutputIsShared | examples/postcards/register.py:66 | with an explicit output path both registers are exported to that same path |
| Register.RankedExample | examples/postcards/register.py:28-39 | the snapshot (0,100), (5,250), (9,0) ranks as (5,250), (0,100) |
| Register.SnapshotExample | examples/postcards/register.py:27-46 | that snapshot with path "out.csv" and top 1 writes (5,250), (0,100) and shows (5,250) |
| Bfrt.ClearedRows | examples/postcards/register.py:62 | a cleared register keeps its indices and length, with every cell zero in its own shape |
| Bfrt.Controller.constructor | examples/postcards/register.py:56 | a new controller has an empty log and the given register contents |
| Bfrt.Controller.SetupTables | examples/postcards/register.py:58 | the setup is logged with its table list, and nothing else changes |
| Bfrt.Controller.AddAnnotation | examples/postcards/queueing.py:57 | the annotation is logged with its table, field and format |
| Bfrt.Controller.ProgramTable | examples/postcards/queueing.py:64 | one program call is logged with the table and its whole entry list |
| Bfrt.Controller.TearDown | examples/postcards/register.py:69 | the teardown is logged after every earlier call |
| Bfrt.Controller.TableExists | examples/postcards/register.py:19 | the query is logged and answers whether the register exists |
| Bfrt.Controller.ReadRegisterBatched | examples/postcards/register.py:24 | the read is logged with its pipe and returns the register's contents |
| Bfrt.Controller.ClearRegister | examples/postcards/register.py:62 | the clear is logged; an existing register is zeroed and no other register changes |
| Bfrt.Controller.EntryMod | examples/postcards/scheduling.py:126-127 | one batched modify is logged with its keys and data lists |
| Metering.BuildMeterEntries | examples/postcards/metering.py:84-100 | the nested UE / QFI loop produces exactly the UE-major list of meter entries |
| Metering.RunMetering | examples/postcards/metering.py:79-104 | setup, TEID shown as hex, one program call with all the entries of the configured table, teardown |
| Metering.MeterEntry | examples/postcards/metering.py:87-99 | the entry is a `set_color` meter keyed by (`hdr.gtpu.teid`, `hdr.gtpu_ext_psc.qfi`) with the given TEID and QFI; its four `$METER_SPEC_*` fields read back by name as the QFI's CIR, PIR, CBS and PBS |
| Metering.MeterEntries | examples/postcards/metering.py:84-102 | the entry list has UE_COUNT × len(QFIS) entries |
| Metering.MeterEntryAt | examples/postcards/metering.py:86-100 | entry ue·len(QFIS)+j matches TEID BASE_TEID+ue and QFI QFIS[j] and carries that QFI's CIR, PIR, CBS, PBS in that order |
| Metering.MeterEntriesShape | examples/postcards/metering.py:88-99 | every entry is a `set_color` meter of an in-range TEID and a listed QFI with that QFI's parameters |
| Metering.MeterTeidsAreRange | examples/postcards/metering.py:74-87 | the TEIDs programmed are exactly BASE_TEID .. BASE_TEID+UE_COUNT−1 |
| Metering.MeterEntriesOrdered | examples/postcards/metering.py:76-100 | with sorted QFIs the entries are in strictly increasing (TEID, QFI) order |
| Metering.MeterKeysUnique | examples/postcards/metering.py:86-100 | no two entries share a match key |
| Metering.QfisAreSortedKeys | examples/postcards/metering.py:76 | QFIS lists the configured QFIs in strictly increasing order, and every one has parameters |
| Metering.ConfiguredTableIsWellFormed | examples/postcards/metering.py:17-72 | every configured QFI has 0 < CIR ≤ PIR and 0 < CBS ≤ PBS |
| Metering.ConfiguredRun | examples/postcards/metering.py:74-103 | the configured run installs 110 × 9 = 990 entries with unique keys, for exactly the TEIDs 1 .. 110 |
| Queueing.LoadMapping | examples/postcards/queueing.py:43-51 | no config file gives the default mapping; a config gives its items with keys converted by `int`, or the ValueError; the result has no duplicate QFI |
| Queueing.ProgramQfiToQueue | examples/postcards/queueing.py:54-64 | the QFI field is annotated as int, then one program call with one entry per mapping item |
| Queueing.RunQueueing | examples/postcards/queueing.py:67-76 | on a bad key only the setup happens; otherwise setup, annotate, program, teardown |
| Queueing.QueueEntries | examples/postcards/queueing.py:59-62 | one entry per mapping item; distinct QFIs give distinct match keys |
| Queueing.QueueEntriesFollowMapping | examples/postcards/queueing.py:59-62 | entry i matches the i-th QFI with `set_queue` and that QFI's queue id; distinct QFIs give distinct match keys |
| Queueing.EntryForEachQfi | examples/postcards/queueing.py:59-62 | every mapped QFI has exactly one entry, and it sets `qfi_to_qid[qfi]` |
| Queueing.DefaultMappingProperties | examples/postcards/queueing.py:28-40 | nine QFIs, every queue id in 0 .. 7, QFIs 8 and 9 both on queue 7 |
| Queueing.ConfigKeysConverted | examples/postcards/queueing.py:48 | a config whose keys are distinct integer texts is programmed item by item with keys converted |
| Scheduling.LoadQidCfg | examples/postcards/scheduling.py:36-74 | no config file gives the built-in policy; a config gives its items with converted keys, or the ValueError; no duplicate logical queue |
| Scheduling.Pipe | examples/postcards/scheduling.py:79 | `dev_port >> 7` is the pipe p with 128·p ≤ dev_port < 128·(p+1) |
| Scheduling.RateValue | examples/postcards/scheduling.py:119-120 | `rate or 0` is 0 exactly when the rate is absent or 0, and a set rate otherwise |
| Scheduling.QueueKey | examples/postcards/scheduling.py:100-103 | the queue-table key has two differently named fields carrying pg_id and the physical queue |
| Scheduling.SchedCfgData | examples/postcards/scheduling.py:104-109 | the `sched_cfg` data has four fields, no two with the same name |
| Scheduling.ShapingData | examples/postcards/scheduling.py:116-123 | the `sched_shaping` data has six fields, no two with the same name |
| Scheduling.UniqueNamesLookup | examples/postcards/scheduling.py:104-123 | in data with unique field names, looking a field up by name finds that field's value |
| Scheduling.BuildSchedBatches | examples/postcards/scheduling.py:92-123 | the four lists are built iff every logical queue has a physical queue; item i of each comes from the i-th logical queue; otherwise the error names the first logical queue that has none |
| Scheduling.ApplySchedPolicy | examples/postcards/scheduling.py:78-127 | pipe = dev_port >> 7; on success the two batched modifies are sent, keyed by (pg_id, physical queue); on IndexError nothing is sent |
| Scheduling.ApplyToPorts | examples/postcards/scheduling.py:134-135 | ports are configured in order up to the first one missing a queue; success iff none is missing |
| Scheduling.RunScheduling | examples/postcards/scheduling.py:129-137 | setup of the three tables, the per-port modifies, and teardown only when every port succeeded |
| Scheduling.RateEncodingRoundTrip | examples/postcards/scheduling.py:104-123 | the enable flag and the value read together give back exactly the configured optional rate, and the priority text parses back to the priority |
| Scheduling.QueueEntryFields | examples/postcards/scheduling.py:99-123 | enable flag set iff the rate is configured; an unset rate programmed as 0; the fixed fields BPS, UPPER, zero bursts and scheduling enabled |
| Scheduling.DefaultPortPipe | examples/postcards/scheduling.py:24 | port 16 is in pipe 0 |
| Scheduling.DefaultQueueZeroIsUncapped | examples/postcards/scheduling.py:45-49 | logical queue 0 has only its minimum rate enabled, and its unused maximum is programmed as 0 |
| Scheduling.DefaultPolicyNeedsFiveQueues | examples/postcards/scheduling.py:95-96 | the built-in policy applies to a port iff the port has at least five queues |
| Builtins.Str | examples/postcards/scheduling.py:105 | `str(n)` is non-empty, starts with '-' iff n < 0, and is digits after the optional sign |
| Builtins.ParseInt | examples/postcards/queueing.py:48 | `int(s)` succeeds iff s is a non-empty run of digits with at most one leading sign; the sign decides the sign of the result |
| Builtins.ListIndex | examples/postcards/scheduling.py:96 | `xs[i]` is defined iff -len ≤ i < len; a non-negative index counts from the front, a negative one from the end |
| Builtins.StrRoundTrip | examples/postcards/scheduling.py:105 | `int(str(n)) == n` for every integer |
| Builtins.IntKeyed | examples/postcards/queueing.py:48 | the key conversion succeeds iff every key is integer text; the result has distinct keys |
| Builtins.IntKeyedFirstError | examples/postcards/queueing.py:48 | a failed conversion reports the first key that is not integer text |
| Builtins.IntKeyedKeys | examples/postcards/scheduling.py:39 | the converted dictionary's keys are exactly the converted item keys |
| Builtins.IntKeyedLastWins | examples/postcards/queueing.py:48 | the value under a converted key is that of the last item whose key converts to it |
| Builtins.IntKeyedPointwise | examples/postcards/scheduling.py:39 | with distinct converted keys the result is the items in order, keys converted |
| Builtins.DictSet | examples/postcards/queueing.py:48 | assignment keeps existing keys in place, replaces only the assigned key's value, and appends a new key |

## Left out

- The switch client (`bfrt_controller`, gRPC, BF Runtime). `Bfrt.Controller` records every call, and answers `table_exists` and `read_register_batched` from its `registers` field. `clear_register` is assumed to zero every cell of an existing register in its own shape and to leave a missing register unchanged; register.py:62 calls it without any check, so "clear mode zeroes both" (`Register.RunRegisterTool`), `Register.ClearIsIdempotent` and `Register.ClearedHasNoNonZero` rest on that assumption. What the real client does, including any error on a missing register, and how the device meters, queues or schedules, is not modelled.
- The `tf1.tm.port.cfg` read in `apply_sched_policy` is not logged. Its answer (pg_id and egress_qid_queues) is a parameter, a `PortCfg` per port.
- Reading `CONFIG_FILE`: the environment variable, the file check and the JSON decoding. The decoded object, or None, is a parameter. It is assumed to hold integers (queueing) or records with the three fields (scheduling). A record missing a field (a KeyError) and other JSON value types are not modelled.
- The CSV bytes `to_csv` writes, and the pandas index column. A file is modelled as its path, its header and its rows.
- pandas' order among rows with equal sort keys: the model fixes one stable order, and its properties (sorted, a permutation) hold for any order.
- Printing and logging, and argparse. The mode, the output path and the top K are parameters of `Register.RunRegisterTool`; argparse's defaults for them (`clear` and 10) are not modelled.
- policing.py and metering_anomaly.py. They only call the client, with no computation of their own.
- Builtins.ParseInt: accepts an optional sign and ASCII digits only. Python's `int` also accepts surrounding whitespace, underscores and non-ASCII digits, so a key such as " 7" is an error here but not in Python.

/** The switch control-plane client the scripts drive. Its implementation is not
    part of this model: the Controller class only records, in order, every call
    the scripts make on it, and answers the two queries the register tool asks
    (does a register exist, what does it hold) from the register contents it is
    given. */
module Bfrt {
  /** A named integer: a match-key field (`("hdr.gtpu.teid", teid)`, a
      `KeyTuple`) or an action parameter (`("qid", qid)`). */
  datatype Field = Field(name: string, value: int)

  /** The value of a `DataTuple`: an integer, `bool_val=` or `str_val=`. */
  datatype DataValue = IntVal(i: int) | BoolVal(b: bool) | StrVal(s: string)

  datatype DataField = DataField(name: string, value: DataValue)

  /** One entry handed to `program_table`: match key, action name, action
      parameters. */
  datatype TableEntry = TableEntry(key: seq<Field>, action: string, params: seq<Field>)

  /** A register cell: one counter, or a (packets, bytes)-style pair. */
  datatype RegValue = Counter(n: int) | CounterPair(first: int, second: int)

  /** One `(index, value)` pair of a batched register read. */
  datatype RegRow = RegRow(index: int, value: RegValue)

  /** Every call a script makes on the controller, in the order made. */
  datatype Call =
    | SetupCall(tables: seq<string>)
    | AnnotateCall(table: string, field: string, format: string)
    | ProgramCall(table: string, entries: seq<TableEntry>)
    | EntryModCall(table: string, keys: seq<seq<Field>>, data: seq<seq<DataField>>)
    | ExistsCall(table: string)
    | ReadCall(register: string, pipe: int)
    | ClearCall(register: string)
    | TearDownCall

  /** The value a cleared cell holds: zero, in the cell's own shape. */
  function Cleared(v: RegValue): RegValue
  {
    match v
    case Counter(_) => Counter(0)
    case CounterPair(_, _) => CounterPair(0, 0)
  }

  function ClearedRows(rows: seq<RegRow>): (r: seq<RegRow>)
    ensures |r| == |rows|
    ensures forall i :: 0 <= i < |rows| ==> r[i] == RegRow(rows[i].index, Cleared(rows[i].value))
  {
    seq(|rows|, i requires 0 <= i < |rows| => RegRow(rows[i].index, Cleared(rows[i].value)))
  }

  class Controller {
    /** The calls made so far. */
    var log: seq<Call>
    /** The registers on the device and what a batched read of each returns. */
    var registers: map<string, seq<RegRow>>

    constructor (registers: map<string, seq<RegRow>>)
      ensures log == [] && this.registers == registers
    {
      log := [];
      this.registers := registers;
    }

    method SetupTables(tables: seq<string>)
      modifies this`log
      ensures log == old(log) + [SetupCall(tables)]
    {
      log := log + [SetupCall(tables)];
    }

    method AddAnnotation(table: string, field: string, format: string)
      modifies this`log
      ensures log == old(log) + [AnnotateCall(table, field, format)]
    {
      log := log + [AnnotateCall(table, field, format)];
    }

    method ProgramTable(table: string, entries: seq<TableEntry>)
      modifies this`log
      ensures log == old(log) + [ProgramCall(table, entries)]
    {
      log := log + [ProgramCall(table, entries)];
    }

    /** `table.entry_mod(target, keys, data)`: one batched modify. */
    method EntryMod(table: string, keys: seq<seq<Field>>, data: seq<seq<DataField>>)
      modifies this`log
      ensures log == old(log) + [EntryModCall(table, keys, data)]
    {
      log := log + [EntryModCall(table, keys, data)];
    }

    method TableExists(table: string) returns (b: bool)
      modifies this`log
      ensures b <==> table in registers
      ensures log == old(log) + [ExistsCall(table)]
    {
      log := log + [ExistsCall(table)];
      b := table in registers;
    }

    /** `read_register_batched(name, pipe)`: all cells of a register at once. */
    method ReadRegisterBatched(register: string, pipe: int) returns (rows: seq<RegRow>)
      requires register in registers
      modifies this`log
      ensures rows == registers[register]
      ensures log == old(log) + [ReadCall(register, pipe)]
    {
      log := log + [ReadCall(register, pipe)];
      rows := registers[register];
    }

    /** `clear_register(name)`: every cell of the register reads zero afterwards. */
    method ClearRegister(register: string)
      modifies this
      ensures log == old(log) + [ClearCall(register)]
      ensures registers == if register in old(registers)
                           then old(registers)[register := ClearedRows(old(registers)[register])]
                           else old(registers)
    {
      log := log + [ClearCall(register)];
      if register in registers {
        registers := registers[register := ClearedRows(registers[register])];
      }
    }

    method TearDown()
      modifies this`log
      ensures log == old(log) + [TearDownCall]
    {
      log := log + [TearDownCall];
    }
  }
}

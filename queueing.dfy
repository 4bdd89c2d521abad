/** `queueing.py`: map each QoS flow identifier (QFI) to one of the eight
    egress queues by programming `qfi_to_queue_table`. */
module Queueing {
  import opened Builtins
  import opened Bfrt

  const QueueTable := "Ingress.QueueMapper.qfi_to_queue_table"
  const QfiField := "hdr.gtpu_ext_psc.qfi"
  const SetQueue := "Ingress.QueueMapper.set_queue"

  /** The default QFI → QID mapping, in the order it is written; queue 7 is the
      best-effort queue shared by browsing and file sync. */
  const DefaultMapping: seq<(int, int)> := [
    (1, 0),  // VoIP
    (5, 1),  // IoT / MQTT
    (3, 2),  // cloud gaming
    (7, 3),  // video call
    (4, 4),  // YouTube
    (2, 5),  // Twitch
    (6, 6),  // file download
    (9, 7),  // browsing
    (8, 7)   // file sync
  ]

  /** `load_mapping()`. `config` is the decoded JSON object of the file named by
      CONFIG_FILE when that variable is set, non-empty and names an existing
      path, and None otherwise; an Err is the ValueError of a key that is not an
      integer. */
  function LoadMapping(config: Option<seq<(string, int)>>): (r: Result<seq<(int, int)>, string>)
    ensures config.None? ==> r == Ok(DefaultMapping)
    ensures config.Some? ==> r == IntKeyed(config.value)
    ensures r.Ok? ==> DistinctKeys(r.value)
  {
    match config
    case None => DefaultMappingIsADict(); Ok(DefaultMapping)
    case Some(items) => IntKeyed(items)
  }

  function QueueEntry(qfi: int, qid: int): TableEntry
  {
    TableEntry([Field(QfiField, qfi)], SetQueue, [Field("qid", qid)])
  }

  /** The entry comprehension of `program_qfi_to_queue`, in the mapping's order. */
  function QueueEntries(mapping: seq<(int, int)>): (r: seq<TableEntry>)
    ensures |r| == |mapping|
    ensures DistinctKeys(mapping) ==> forall i, j :: 0 <= i < j < |r| ==> r[i].key != r[j].key
  {
    seq(|mapping|, i requires 0 <= i < |mapping| => QueueEntry(mapping[i].0, mapping[i].1))
  }

  /** `program_qfi_to_queue(c, qfi_to_qid)`. */
  method ProgramQfiToQueue(c: Controller, mapping: seq<(int, int)>)
    modifies c`log
    ensures c.log == old(c.log) + [AnnotateCall(QueueTable, QfiField, "int"), ProgramCall(QueueTable, QueueEntries(mapping))]
  {
    c.AddAnnotation(QueueTable, QfiField, "int");
    var entries := QueueEntries(mapping);
    c.ProgramTable(QueueTable, entries);
  }

  /** `main`: on a ValueError while loading, nothing is programmed and the
      controller is not torn down. */
  method RunQueueing(c: Controller, config: Option<seq<(string, int)>>) returns (r: Result<seq<(int, int)>, string>)
    modifies c`log
    ensures r == LoadMapping(config)
    ensures r.Err? ==> c.log == old(c.log) + [SetupCall([QueueTable])]
    ensures r.Ok? ==> c.log == old(c.log) + [ SetupCall([QueueTable]),
                                              AnnotateCall(QueueTable, QfiField, "int"),
                                              ProgramCall(QueueTable, QueueEntries(r.value)),
                                              TearDownCall ]
  {
    c.SetupTables([QueueTable]);
    r := LoadMapping(config);
    if r.Err? {
      return;
    }
    ProgramQfiToQueue(c, r.value);
    c.TearDown();
  }

  // ---------------------------------------------------------------------------
  // Properties
  // ---------------------------------------------------------------------------

  /** One entry per mapping item; entry i matches the i-th QFI and sets its QID;
      distinct QFIs give pairwise distinct match keys. */
  lemma QueueEntriesFollowMapping(mapping: seq<(int, int)>)
    ensures |QueueEntries(mapping)| == |mapping|
    ensures forall i :: 0 <= i < |mapping| ==>
              QueueEntries(mapping)[i].key == [Field(QfiField, mapping[i].0)]
              && QueueEntries(mapping)[i].action == SetQueue
              && QueueEntries(mapping)[i].params == [Field("qid", mapping[i].1)]
    ensures DistinctKeys(mapping) ==>
              forall i, j :: 0 <= i < j < |mapping| ==> QueueEntries(mapping)[i].key != QueueEntries(mapping)[j].key
  {
  }

  /** For a mapping with distinct QFIs, every QFI it maps has exactly one entry,
      and that entry sets `qfi_to_qid[qfi]`. */
  lemma {:induction false} EntryForEachQfi(mapping: seq<(int, int)>, qfi: int)
    requires DistinctKeys(mapping)
    requires qfi in Keys(mapping)
    ensures exists i :: 0 <= i < |mapping| && QueueEntries(mapping)[i] == QueueEntry(qfi, Get(mapping, qfi).value)
    ensures forall i, j ::
              (0 <= i < |mapping| && 0 <= j < |mapping|
               && QueueEntries(mapping)[i].key == [Field(QfiField, qfi)]
               && QueueEntries(mapping)[j].key == [Field(QfiField, qfi)]) ==> i == j
  {
    var i :| 0 <= i < |mapping| && mapping[i].0 == qfi;
    GetAt(mapping, i);
    assert QueueEntries(mapping)[i] == QueueEntry(qfi, Get(mapping, qfi).value);
    forall i, j | 0 <= i < |mapping| && 0 <= j < |mapping|
      && QueueEntries(mapping)[i].key == [Field(QfiField, qfi)]
      && QueueEntries(mapping)[j].key == [Field(QfiField, qfi)]
      ensures i == j
    {
      assert QueueEntries(mapping)[i].key[0].value == mapping[i].0;
      assert QueueEntries(mapping)[j].key[0].value == mapping[j].0;
    }
  }

  lemma DefaultMappingIsADict()
    ensures DistinctKeys(DefaultMapping)
  {
  }

  /** The default mapping: nine QFIs, every QID one of the eight queues 0 .. 7,
      and QFIs 9 and 8 both on queue 7, so it is not injective. */
  lemma DefaultMappingProperties()
    ensures DistinctKeys(DefaultMapping) && |DefaultMapping| == 9
    ensures forall i :: 0 <= i < |DefaultMapping| ==> 0 <= DefaultMapping[i].1 <= 7
    ensures Get(DefaultMapping, 9) == Get(DefaultMapping, 8) == Some(7)
    ensures |QueueEntries(DefaultMapping)| == 9
  {
    DefaultMappingIsADict();
    assert DefaultMapping[7] == (9, 7) && DefaultMapping[8] == (8, 7);
    GetAt(DefaultMapping, 7);
    GetAt(DefaultMapping, 8);
  }

  /** A configuration whose keys are distinct integer texts is programmed item
      by item with the keys converted. */
  lemma ConfigKeysConverted(items: seq<(string, int)>)
    requires forall i :: 0 <= i < |items| ==> ParseInt(items[i].0).Some?
    requires forall i, j :: 0 <= i < j < |items| ==> ParseInt(items[i].0) != ParseInt(items[j].0)
    ensures LoadMapping(Some(items)).Ok?
    ensures |QueueEntries(LoadMapping(Some(items)).value)| == |items|
    ensures forall i :: 0 <= i < |items| ==>
              QueueEntries(LoadMapping(Some(items)).value)[i] == QueueEntry(ParseInt(items[i].0).value, items[i].1)
  {
    IntKeyedPointwise(items);
  }
}

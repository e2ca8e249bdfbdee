/** Properties of the whole assembly, from the records of an episode in
    listing order to its two padded tracks. */
module Episode {
  import opened Fragments
  import opened FileNames
  import opened Sequencing
  import opened ChannelPadding

  /** After sequencing, a fragment with an even index is heard on channel 1
      and silent on channel 2, and one with an odd index the other way
      round; in both tracks its slot starts after all earlier fragments. */
  lemma {:induction false} ParityDecidesTrack(records: seq<FragmentRecord>, i: nat)
    requires Sequence(records).Ok? && i < |records|
    ensures var rows := Sequence(records).value;
            var start, len := SlotStart(rows, i), |rows[i].record.sampleArray|;
            && start + len <= |Track(rows, 1)|
            && start + len <= |Track(rows, 2)|
            && (rows[i].sequenceIdx % 2 == 0 ==>
                  Track(rows, 1)[start..start + len] == rows[i].record.sampleArray &&
                  Track(rows, 2)[start..start + len] == Zeros(len))
            && (rows[i].sequenceIdx % 2 == 1 ==>
                  Track(rows, 2)[start..start + len] == rows[i].record.sampleArray &&
                  Track(rows, 1)[start..start + len] == Zeros(len))
  {
    var rows := Sequence(records).value;
    assert ParityChannel(rows[i]);
    SlotContents(rows, i, 1);
    SlotContents(rows, i, 2);
  }

  /** Three turns of a conversation: two samples, three samples, one sample. */
  function Turns(name0: string, name1: string, name2: string): seq<FragmentRecord> {
    [FragmentRecord(name0, [1.0, 1.0], 2), FragmentRecord(name1, [2.0, 2.0, 2.0], 3), FragmentRecord(name2, [3.0], 1)]
  }

  /** The rows of the three turns, in turn order, on channels 1, 2, 1. */
  function TurnRows(name0: string, name1: string, name2: string): seq<Row> {
    var t := Turns(name0, name1, name2);
    [Row(t[0], 0, 1), Row(t[1], 1, 2), Row(t[2], 2, 1)]
  }

  /** Reading the indices keeps the listing order. */
  lemma {:induction false} TurnsIndexed(name0: string, name1: string, name2: string)
    requires ParseIndex(name0) == Ok(0) && ParseIndex(name1) == Ok(1) && ParseIndex(name2) == Ok(2)
    ensures var t := Turns(name0, name1, name2);
            AssignSequenceIdx([t[2], t[0], t[1]]) ==
              Ok([IndexedRecord(t[2], 2), IndexedRecord(t[0], 0), IndexedRecord(t[1], 1)])
  {
    var t := Turns(name0, name1, name2);
    var records := [t[2], t[0], t[1]];
    assert forall i :: 0 <= i < |records| ==> ParseIndex(records[i].file).Ok?;
    var r := AssignSequenceIdx(records);
    assert r.value[0] == IndexedRecord(t[2], 2);
    assert r.value[1] == IndexedRecord(t[0], 0);
    assert r.value[2] == IndexedRecord(t[1], 1);
    assert r.value == [IndexedRecord(t[2], 2), IndexedRecord(t[0], 0), IndexedRecord(t[1], 1)];
  }

  /** Sorting puts the turns back in order. */
  lemma {:induction false} TurnsSorted(a: IndexedRecord, b: IndexedRecord, c: IndexedRecord)
    requires a.sequenceIdx == 0 && b.sequenceIdx == 1 && c.sequenceIdx == 2
    ensures SortBySequenceIdx([c, a, b]) == [a, b, c]
  {
    assert [c, a, b][1..] == [a, b] && [a, b][1..] == [b] && [b][1..] == [];
    assert SortBySequenceIdx([b]) == [b];
    assert SortBySequenceIdx([a, b]) == [a, b];
    assert Insert(c, [b]) == [b, c];
    assert Insert(c, [a, b]) == [a, b, c];
  }

  /** Turns 0, 1 and 2 go to channels 1, 2 and 1. */
  lemma {:induction false} TurnsChannels(a: IndexedRecord, b: IndexedRecord, c: IndexedRecord)
    requires a.sequenceIdx == 0 && b.sequenceIdx == 1 && c.sequenceIdx == 2
    ensures AssignChannels([a, b, c]) == [Row(a.record, 0, 1), Row(b.record, 1, 2), Row(c.record, 2, 1)]
  {
    var rows := AssignChannels([a, b, c]);
    assert rows[0] == Row(a.record, 0, 1);
    assert rows[1] == Row(b.record, 1, 2);
    assert rows[2] == Row(c.record, 2, 1);
  }

  /** Three alternating turns listed out of order (last turn first) are put
      back in turn order, with channels 1, 2, 1. The indices are distinct,
      so this holds whichever way the sort breaks ties. */
  lemma {:induction false} ScenarioIsSequenced(name0: string, name1: string, name2: string)
    requires ParseIndex(name0) == Ok(0) && ParseIndex(name1) == Ok(1) && ParseIndex(name2) == Ok(2)
    ensures var t := Turns(name0, name1, name2);
            Sequence([t[2], t[0], t[1]]) == Ok(TurnRows(name0, name1, name2))
  {
    var t := Turns(name0, name1, name2);
    var records := [t[2], t[0], t[1]];
    var a, b, c := IndexedRecord(t[0], 0), IndexedRecord(t[1], 1), IndexedRecord(t[2], 2);
    TurnsIndexed(name0, name1, name2);
    TurnsSorted(a, b, c);
    SequenceOfReadableNames(records);
    TurnsChannels(a, b, c);
  }

  /** The file names "utt_0.mp3", "utt_1.mp3" and "utt_2.mp3" read as
      indices 0, 1 and 2. */
  lemma {:induction false} TurnNamesParse()
    ensures ParseIndex("utt_0.mp3") == Ok(0)
    ensures ParseIndex("utt_1.mp3") == Ok(1)
    ensures ParseIndex("utt_2.mp3") == Ok(2)
  {
    ParseIndexReadsLeadingDigit("utt", '0', ".mp3");
    assert "utt_0.mp3" == "utt" + [Separator] + ['0'] + ".mp3";
    ParseIndexReadsLeadingDigit("utt", '1', ".mp3");
    assert "utt_1.mp3" == "utt" + [Separator] + ['1'] + ".mp3";
    ParseIndexReadsLeadingDigit("utt", '2', ".mp3");
    assert "utt_2.mp3" == "utt" + [Separator] + ['2'] + ".mp3";
  }

  /** The scenario's rows collate into [1,1,0,0,0,3] on channel 1 and
      [0,0,2,2,2,0] on channel 2. */
  lemma {:induction false} ScenarioTracks(name0: string, name1: string, name2: string)
    ensures Track(TurnRows(name0, name1, name2), 1) == [1.0, 1.0, 0.0, 0.0, 0.0, 3.0]
    ensures Track(TurnRows(name0, name1, name2), 2) == [0.0, 0.0, 2.0, 2.0, 2.0, 0.0]
  {
    var rows := TurnRows(name0, name1, name2);
    assert rows[1..] == [rows[1], rows[2]];
    assert rows[1..][1..] == [rows[2]];
    assert rows[1..][1..][1..] == [];
    TrackCons(rows, 1);
    TrackCons(rows[1..], 1);
    TrackCons(rows[1..][1..], 1);
    TrackCons(rows, 2);
    TrackCons(rows[1..], 2);
    TrackCons(rows[1..][1..], 2);
    assert Track([], 1) == [] && Track([], 2) == [];
    assert Zeros(3) == [0.0, 0.0, 0.0];
    assert Zeros(2) == [0.0, 0.0];
    assert Zeros(1) == [0.0];
  }

  /** No contiguity check is made: a missing turn (indices 0 and 2) and a
      repeated index are both accepted. */
  lemma {:induction false} GapsAndDuplicatesPass(name0: string, name2: string)
    requires ParseIndex(name0) == Ok(0) && ParseIndex(name2) == Ok(2)
    ensures var t := Turns(name0, name0, name2);
            Sequence([t[0], t[2]]).Ok? && Sequence([t[0], t[0]]).Ok?
  {
  }

  /** An episode without fragments is an error, not a pair of empty tracks. */
  lemma {:induction false} EmptyEpisodeFails()
    ensures Sequence([]) == Err(NoFileColumn)
  {
  }
}

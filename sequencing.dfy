/** The table step of episode retrieval: every record gets the sequence
    index recovered from its file name, the records are ordered by that
    index, and each row gets the channel of its speaker, chosen by the
    parity of the index. */
module Sequencing {
  import opened Fragments
  import opened FileNames

  /** Why retrieving an episode fails. An empty record list gives a table
      without a `file` column, so reading it fails before any name is
      parsed; otherwise the first file name whose index cannot be read
      stops the step. */
  datatype RetrieveError = NoFileColumn | BadIndex(file: string, cause: IndexError)

  /** A record with its recovered sequence index. */
  datatype IndexedRecord = IndexedRecord(record: FragmentRecord, sequenceIdx: nat)

  /** One row of the episode table: a record, its sequence index and the
      channel its samples belong to. */
  datatype Row = Row(record: FragmentRecord, sequenceIdx: nat, channel: nat)

  /** Record i is the first whose file name yields no index. */
  predicate FirstBadIndex(records: seq<FragmentRecord>, i: int) {
    && 0 <= i < |records|
    && (forall j :: 0 <= j < i ==> ParseIndex(records[j].file).Ok?)
    && ParseIndex(records[i].file).Err?
  }

  /** Reads the index of every record in order; the first failing name
      decides the error. */
  function AssignSequenceIdx(records: seq<FragmentRecord>): (r: Result<seq<IndexedRecord>, RetrieveError>)
    ensures r.Ok? <==> forall i :: 0 <= i < |records| ==> ParseIndex(records[i].file).Ok?
    ensures r.Ok? ==> |r.value| == |records|
    ensures r.Ok? ==> forall i :: 0 <= i < |records| ==>
              r.value[i].record == records[i] && ParseIndex(records[i].file) == Ok(r.value[i].sequenceIdx)
    ensures r.Err? ==>
              exists i :: (FirstBadIndex(records, i) &&
                           r.error == BadIndex(records[i].file, ParseIndex(records[i].file).error))
  {
    if records == [] then Ok([])
    else
      match ParseIndex(records[0].file)
      case Err(cause) => Err(BadIndex(records[0].file, cause))
      case Ok(idx) =>
        match AssignSequenceIdx(records[1..])
        case Err(e) => Err(e)
        case Ok(rest) => Ok([IndexedRecord(records[0], idx)] + rest)
  }

  /** Non-decreasing by sequence index. */
  predicate SortedByIdx(xs: seq<IndexedRecord>) {
    forall i, j :: 0 <= i < j < |xs| ==> xs[i].sequenceIdx <= xs[j].sequenceIdx
  }

  /** Inserts one record into a sorted list, before the first record with
      a larger or equal index. */
  function Insert(x: IndexedRecord, xs: seq<IndexedRecord>): (r: seq<IndexedRecord>)
    requires SortedByIdx(xs)
    ensures SortedByIdx(r)
    ensures multiset(r) == multiset(xs) + multiset{x}
    ensures r[0] == x || (xs != [] && r[0] == xs[0])
  {
    if xs == [] || x.sequenceIdx <= xs[0].sequenceIdx then [x] + xs
    else
      var rest := Insert(x, xs[1..]);
      assert xs == [xs[0]] + xs[1..];
      assert forall k :: 0 <= k < |rest| ==> xs[0].sequenceIdx <= rest[0].sequenceIdx <= rest[k].sequenceIdx;
      [xs[0]] + rest
  }

  /** Orders the records by sequence index. The table library's default
      sort is not stable; this one keeps equal indices in input order,
      which is one of the orders it may produce. */
  function SortBySequenceIdx(xs: seq<IndexedRecord>): (r: seq<IndexedRecord>)
    ensures SortedByIdx(r)
    ensures multiset(r) == multiset(xs)
    ensures |r| == |xs|
  {
    if xs == [] then []
    else
      assert xs == [xs[0]] + xs[1..];
      Insert(xs[0], SortBySequenceIdx(xs[1..]))
  }

  /** No two records share a sequence index. */
  predicate DistinctIdx(xs: seq<IndexedRecord>) {
    forall i, j :: 0 <= i < j < |xs| ==> xs[i].sequenceIdx != xs[j].sequenceIdx
  }

  /** When indices are pairwise distinct the sorted order is unique, so
      every sorting algorithm, stable or not, yields the same rows. */
  lemma {:induction false} SortedPermutationUnique(a: seq<IndexedRecord>, b: seq<IndexedRecord>)
    requires SortedByIdx(a) && SortedByIdx(b)
    requires multiset(a) == multiset(b)
    requires DistinctIdx(a)
    ensures a == b
  {
    if a == [] {
      assert |b| == |multiset(b)| == 0;
    } else {
      assert |b| == |multiset(b)| == |a|;
      SortedHeadsEqual(a, b);
      DropCommonHead(a, b);
      assert SortedByIdx(a[1..]) && SortedByIdx(b[1..]) && DistinctIdx(a[1..]);
      SortedPermutationUnique(a[1..], b[1..]);
      assert a == [a[0]] + a[1..] && b == [b[0]] + b[1..];
    }
  }

  /** Two sorted permutations of records with distinct indices start with
      the same record: the one with the smallest index. */
  lemma SortedHeadsEqual(a: seq<IndexedRecord>, b: seq<IndexedRecord>)
    requires a != [] && b != []
    requires SortedByIdx(a) && SortedByIdx(b)
    requires multiset(a) == multiset(b)
    requires DistinctIdx(a)
    ensures a[0] == b[0]
  {
    assert a[0] in multiset(b);
    var j :| 0 <= j < |b| && b[j] == a[0];
    assert b[0] in multiset(a);
    var k :| 0 <= k < |a| && a[k] == b[0];
    assert a[0].sequenceIdx <= a[k].sequenceIdx == b[0].sequenceIdx <= b[j].sequenceIdx == a[0].sequenceIdx;
    assert k == 0;
  }

  /** Removing the same first element from two permutations of each other
      leaves permutations of each other. */
  lemma {:induction false} DropCommonHead(a: seq<IndexedRecord>, b: seq<IndexedRecord>)
    requires a != [] && b != [] && a[0] == b[0] && multiset(a) == multiset(b)
    ensures multiset(a[1..]) == multiset(b[1..])
  {
    assert a == [a[0]] + a[1..] && b == [b[0]] + b[1..];
    assert multiset(a) == multiset{a[0]} + multiset(a[1..]);
    assert multiset(b) == multiset{a[0]} + multiset(b[1..]);
    assert multiset(a[1..]) == multiset(a) - multiset{a[0]};
    assert multiset(b[1..]) == multiset(b) - multiset{a[0]};
  }

  /** The channel of a fragment's speaker: 1 for an even index, 2 for an
      odd one. */
  function ChannelFor(sequenceIdx: nat): (channel: nat)
    ensures channel == 1 || channel == 2
    ensures channel == 1 <==> sequenceIdx % 2 == 0
  {
    if sequenceIdx % 2 == 0 then 1 else 2
  }

  /** Adds the parity channel to every sorted record, keeping the order. */
  function AssignChannels(sorted: seq<IndexedRecord>): (rows: seq<Row>)
    ensures |rows| == |sorted|
    ensures forall i :: 0 <= i < |rows| ==>
              rows[i].record == sorted[i].record && rows[i].sequenceIdx == sorted[i].sequenceIdx &&
              ParityChannel(rows[i])
  {
    seq(|sorted|, i requires 0 <= i < |sorted| =>
      Row(sorted[i].record, sorted[i].sequenceIdx, ChannelFor(sorted[i].sequenceIdx)))
  }

  /** The rows with their channel dropped. */
  function Unassigned(rows: seq<Row>): seq<IndexedRecord> {
    seq(|rows|, i requires 0 <= i < |rows| => IndexedRecord(rows[i].record, rows[i].sequenceIdx))
  }

  /** Rows in non-decreasing index order. */
  predicate RowsSorted(rows: seq<Row>) {
    SortedByIdx(Unassigned(rows))
  }

  /** The channel rule: 1 exactly when the index is even, 2 otherwise. */
  predicate ParityChannel(row: Row) {
    (row.channel == 1 || row.channel == 2) && (row.channel == 1 <==> row.sequenceIdx % 2 == 0)
  }

  /** Adding channels keeps the records, their order and their indices,
      and gives every row its parity channel. */
  lemma {:induction false} AssignChannelsFacts(sorted: seq<IndexedRecord>)
    requires SortedByIdx(sorted)
    ensures var rows := AssignChannels(sorted);
            && |rows| == |sorted|
            && Unassigned(rows) == sorted
            && RowsSorted(rows)
            && forall i :: 0 <= i < |rows| ==> ParityChannel(rows[i]) && rows[i].sequenceIdx == sorted[i].sequenceIdx
  {
  }

  /** Sorting cannot raise the largest index. */
  lemma {:induction false} SortKeepsBound(xs: seq<IndexedRecord>, bound: nat)
    requires forall i :: 0 <= i < |xs| ==> xs[i].sequenceIdx <= bound
    ensures forall i :: 0 <= i < |SortBySequenceIdx(xs)| ==> SortBySequenceIdx(xs)[i].sequenceIdx <= bound
  {
    var sorted := SortBySequenceIdx(xs);
    forall i | 0 <= i < |sorted|
      ensures sorted[i].sequenceIdx <= bound
    {
      assert sorted[i] in multiset(xs);
      var j :| 0 <= j < |xs| && xs[j] == sorted[i];
    }
  }

  /** Sorting by index and adding the parity channels: the rows are a
      permutation of the indexed records, sorted by index, each on its
      parity channel; indices stay within any bound they had. */
  function OrderAndAssign(indexed: seq<IndexedRecord>): (rows: seq<Row>)
    ensures |rows| == |indexed|
    ensures RowsSorted(rows)
    ensures forall i :: 0 <= i < |rows| ==> ParityChannel(rows[i])
    ensures multiset(Unassigned(rows)) == multiset(indexed)
    ensures (forall i :: 0 <= i < |indexed| ==> indexed[i].sequenceIdx <= 9) ==>
              forall i :: 0 <= i < |rows| ==> rows[i].sequenceIdx <= 9
  {
    var sorted := SortBySequenceIdx(indexed);
    AssignChannelsFacts(sorted);
    if forall i :: 0 <= i < |indexed| ==> indexed[i].sequenceIdx <= 9 then
      SortKeepsBound(indexed, 9);
      assert forall i :: 0 <= i < |sorted| ==> AssignChannels(sorted)[i].sequenceIdx == sorted[i].sequenceIdx <= 9;
      AssignChannels(sorted)
    else
      AssignChannels(sorted)
  }

  /** The whole table step: index, sort, assign channels. */
  function Sequence(records: seq<FragmentRecord>): (r: Result<seq<Row>, RetrieveError>)
    ensures records == [] ==> r == Err(NoFileColumn)
    ensures records != [] ==>
              (r.Ok? <==> forall i :: 0 <= i < |records| ==> ParseIndex(records[i].file).Ok?)
    ensures records != [] && r.Err? ==>
              AssignSequenceIdx(records).Err? && r.error == AssignSequenceIdx(records).error
    ensures r.Ok? ==>
              && |r.value| == |records|
              && RowsSorted(r.value)
              && (forall i :: 0 <= i < |r.value| ==> ParityChannel(r.value[i]) && r.value[i].sequenceIdx <= 9)
              && AssignSequenceIdx(records).Ok?
              && multiset(Unassigned(r.value)) == multiset(AssignSequenceIdx(records).value)
  {
    if records == [] then Err(NoFileColumn)
    else
      var indexed := AssignSequenceIdx(records);
      if indexed.Err? then Err(indexed.error)
      else
        assert forall i :: 0 <= i < |indexed.value| ==> indexed.value[i].sequenceIdx <= 9;
        Ok(OrderAndAssign(indexed.value))
  }

  /** When every index can be read, the rows are the sorted indexed
      records with their parity channels. */
  lemma {:induction false} SequenceOfReadableNames(records: seq<FragmentRecord>)
    requires records != [] && AssignSequenceIdx(records).Ok?
    ensures Sequence(records) == Ok(AssignChannels(SortBySequenceIdx(AssignSequenceIdx(records).value)))
  {
  }

  /** An element of a permutation of a list is found in that list. */
  lemma {:induction false} SourceOf(u: seq<IndexedRecord>, indexed: seq<IndexedRecord>, i: nat) returns (j: nat)
    requires i < |u| && multiset(u) == multiset(indexed)
    ensures j < |indexed| && indexed[j] == u[i]
  {
    assert u[i] in multiset(indexed);
    j :| 0 <= j < |indexed| && indexed[j] == u[i];
  }

  /** Every row is one of the input records, carrying the index read from
      that record's own file name. */
  lemma {:induction false} RowsComeFromRecords(records: seq<FragmentRecord>)
    requires Sequence(records).Ok?
    ensures var rows := Sequence(records).value;
            forall i :: 0 <= i < |rows| ==>
              exists j :: 0 <= j < |records| && rows[i].record == records[j] &&
                          ParseIndex(records[j].file) == Ok(rows[i].sequenceIdx)
  {
    var rows := Sequence(records).value;
    var indexed := AssignSequenceIdx(records).value;
    forall i | 0 <= i < |rows|
      ensures exists j :: 0 <= j < |records| && rows[i].record == records[j] &&
                          ParseIndex(records[j].file) == Ok(rows[i].sequenceIdx)
    {
      var j := SourceOf(Unassigned(rows), indexed, i);
      assert rows[i].record == records[j];
    }
  }

  /** With distinct indices the rows do not depend on the tie-breaking of
      the sort: any sorted reordering of the indexed records gives them. */
  lemma {:induction false} DistinctIndicesDetermineOrder(indexed: seq<IndexedRecord>, other: seq<IndexedRecord>)
    requires DistinctIdx(indexed)
    requires SortedByIdx(other) && multiset(other) == multiset(indexed)
    ensures OrderAndAssign(indexed) == AssignChannels(other)
  {
    var sorted := SortBySequenceIdx(indexed);
    DistinctAfterPermutation(indexed, sorted);
    SortedPermutationUnique(sorted, other);
  }

  /** Reordering keeps indices distinct. */
  lemma {:induction false} DistinctAfterPermutation(a: seq<IndexedRecord>, b: seq<IndexedRecord>)
    requires DistinctIdx(a) && multiset(a) == multiset(b)
    ensures DistinctIdx(b)
  {
    forall i, j | 0 <= i < j < |b|
      ensures b[i].sequenceIdx != b[j].sequenceIdx
    {
      assert b[i] in multiset(a) && b[j] in multiset(a);
      var p :| 0 <= p < |a| && a[p] == b[i];
      var q :| 0 <= q < |a| && a[q] == b[j];
      OccursOnce(a, p);
      assert b[i] != b[j] by {
        if b[i] == b[j] {
          OccursTwice(b, i, j);
        }
      }
    }
  }

  /** With distinct indices each record occurs exactly once. */
  lemma {:induction false} OccursOnce(a: seq<IndexedRecord>, p: nat)
    requires DistinctIdx(a) && p < |a|
    ensures multiset(a)[a[p]] == 1
  {
    assert a == a[..p] + [a[p]] + a[p+1..];
    assert a[p] !in a[..p] && a[p] !in a[p+1..];
  }

  /** A value at two positions is counted at least twice. */
  lemma {:induction false} OccursTwice(b: seq<IndexedRecord>, i: nat, j: nat)
    requires i < j < |b| && b[i] == b[j]
    ensures multiset(b)[b[i]] >= 2
  {
    assert b == b[..i] + [b[i]] + b[i+1..j] + [b[j]] + b[j+1..];
  }

  /** Loads the records of an episode and builds its table: the whole
      retrieval of an episode's fragments, from decoded files in listing
      order to ordered rows with channels. On success the rows are the
      files' records, each exactly once, with the index read from its own
      name; on failure the error names the first unreadable file. */
  method RetrieveEpisodeAudio(files: seq<DecodedFile>) returns (result: Result<seq<Row>, RetrieveError>)
    ensures result == Sequence(Records(files))
    ensures files == [] ==> result == Err(NoFileColumn)
    ensures result.Ok? <==> files != [] && forall i :: 0 <= i < |files| ==> ParseIndex(files[i].name).Ok?
    ensures files != [] && result.Err? ==>
              exists i :: (FirstBadIndex(Records(files), i) &&
                           result.error == BadIndex(files[i].name, ParseIndex(files[i].name).error))
    ensures result.Ok? ==>
              var rows := result.value;
              && |rows| == |files|
              && RowsSorted(rows)
              && (forall i :: 0 <= i < |rows| ==> ParityChannel(rows[i]) && ShapeConsistent(rows[i].record))
              && multiset(Unassigned(rows)) == multiset(IndexedFiles(files))
  {
    var records := LoadFragmentRecords(files);
    result := Sequence(records);
    if result.Ok? {
      var indexed := AssignSequenceIdx(records).value;
      assert indexed == IndexedFiles(files);
      RowsComeFromRecords(records);
    }
  }

  /** Every file's record paired with the index read from its name. */
  function IndexedFiles(files: seq<DecodedFile>): seq<IndexedRecord>
    requires forall i :: 0 <= i < |files| ==> ParseIndex(files[i].name).Ok?
  {
    seq(|files|, i requires 0 <= i < |files| => IndexedRecord(RecordOf(files[i]), ParseIndex(files[i].name).value))
  }
}

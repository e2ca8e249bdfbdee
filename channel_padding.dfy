/** Collation of the ordered rows into two mono tracks of equal length.
    Walking the rows in order, each fragment's samples go to its own
    channel's segment list and an equally long run of silence goes to the
    other list; each list is then concatenated into one track. */
module ChannelPadding {
  import opened Fragments
  import opened Sequencing

  /** Why collation fails: concatenating an empty segment list. */
  datatype CollateError = NothingToConcatenate

  /** The two collated tracks, one per speaker. */
  datatype ChannelTracks = ChannelTracks(channel1: seq<Sample>, channel2: seq<Sample>)

  /** n samples of silence. */
  function Zeros(n: nat): (z: seq<Sample>)
    ensures |z| == n && forall k :: 0 <= k < n ==> z[k] == Silence
  {
    seq(n, _ => Silence)
  }

  /** The track that receives a row's real samples: channel 1 for a row
      whose channel is 1, channel 2 for any other channel value. */
  function Owner(row: Row): (target: nat)
    ensures target == 1 || target == 2
    ensures target == 1 <==> row.channel == 1
  {
    if row.channel == 1 then 1 else 2
  }

  /** A row's slot in the track of `target`: its samples in the owning
      track, silence of the same length in the other. */
  function Slot(row: Row, target: nat): seq<Sample> {
    if Owner(row) == target then row.record.sampleArray
    else Zeros(|row.record.sampleArray|)
  }

  /** The segment list of one channel, one slot per row in row order. */
  function Segments(rows: seq<Row>, target: nat): seq<seq<Sample>> {
    seq(|rows|, k requires 0 <= k < |rows| => Slot(rows[k], target))
  }

  /** The in-order concatenation of a list of segments. */
  function Flatten(segments: seq<seq<Sample>>): seq<Sample> {
    if segments == [] then [] else segments[0] + Flatten(segments[1..])
  }

  /** Array concatenation: fails on an empty list, otherwise joins the
      segments in order. */
  function Concatenate(segments: seq<seq<Sample>>): (r: Result<seq<Sample>, CollateError>)
    ensures r.Err? <==> segments == []
  {
    if segments == [] then Err(NothingToConcatenate) else Ok(Flatten(segments))
  }

  /** The full track of one channel. */
  function Track(rows: seq<Row>, target: nat): seq<Sample> {
    Flatten(Segments(rows, target))
  }

  /** Where row i's slot starts in either track: the total length of the
      fragments before it. */
  function SlotStart(rows: seq<Row>, i: nat): nat
    requires i <= |rows|
  {
    if i == 0 then 0 else |rows[0].record.sampleArray| + SlotStart(rows[1..], i - 1)
  }

  /** The total number of samples over all fragments. */
  function TotalSamples(rows: seq<Row>): nat {
    SlotStart(rows, |rows|)
  }

  /** The total of the cached sample counts. */
  function TotalShape(rows: seq<Row>): nat {
    if rows == [] then 0 else rows[0].record.sampleArrayShape + TotalShape(rows[1..])
  }

  /** A track is the first row's slot followed by the track of the rest. */
  lemma {:induction false} TrackCons(rows: seq<Row>, target: nat)
    requires rows != []
    ensures Track(rows, target) == Slot(rows[0], target) + Track(rows[1..], target)
  {
    assert Segments(rows, target)[1..] == Segments(rows[1..], target);
  }

  /** Both tracks hold exactly as many samples as all fragments together. */
  lemma {:induction false} TrackLength(rows: seq<Row>, target: nat)
    ensures |Track(rows, target)| == TotalSamples(rows)
  {
    if rows != [] {
      TrackCons(rows, target);
      TrackLength(rows[1..], target);
    }
  }

  /** The two tracks are always equally long. */
  lemma {:induction false} TracksAligned(rows: seq<Row>)
    ensures |Track(rows, 1)| == |Track(rows, 2)| == TotalSamples(rows)
  {
    TrackLength(rows, 1);
    TrackLength(rows, 2);
  }

  /** When every record's cached count is right, the track length is also
      the sum of the cached counts. */
  lemma {:induction false} TotalMatchesShapes(rows: seq<Row>)
    requires forall i :: 0 <= i < |rows| ==> ShapeConsistent(rows[i].record)
    ensures TotalSamples(rows) == TotalShape(rows)
  {
    if rows != [] {
      TotalMatchesShapes(rows[1..]);
    }
  }

  /** Row i's slot starts at the sum of the lengths of the rows before it,
      in both tracks, and holds exactly that row's slot: its samples in the
      track it owns, silence of equal length in the other. */
  lemma {:induction false} SlotContents(rows: seq<Row>, i: nat, target: nat)
    requires i < |rows|
    ensures var start, len := SlotStart(rows, i), |rows[i].record.sampleArray|;
            start + len <= |Track(rows, target)| &&
            Track(rows, target)[start..start + len] == Slot(rows[i], target)
  {
    TrackCons(rows, target);
    var head := Slot(rows[0], target);
    if i == 0 {
      assert (head + Track(rows[1..], target))[..|head|] == head;
    } else {
      SlotContents(rows[1..], i - 1, target);
      var start := SlotStart(rows[1..], i - 1);
      var len := |rows[i].record.sampleArray|;
      assert (head + Track(rows[1..], target))[|head| + start..|head| + start + len]
          == Track(rows[1..], target)[start..start + len];
    }
  }

  /** At every sample position at most one channel is sounding, and adding
      the two channels back together gives the fragments played one after
      another: the padding neither loses nor shifts any sample. */
  lemma {:induction false} ChannelsComplement(rows: seq<Row>, p: nat)
    requires p < TotalSamples(rows)
    ensures p < |Track(rows, 1)| && p < |Track(rows, 2)| && p < |Spoken(rows)|
    ensures Track(rows, 1)[p] == Silence || Track(rows, 2)[p] == Silence
    ensures Track(rows, 1)[p] + Track(rows, 2)[p] == Spoken(rows)[p]
  {
    TrackLength(rows, 1);
    TrackLength(rows, 2);
    SpokenLength(rows);
    TrackCons(rows, 1);
    TrackCons(rows, 2);
    var samples := rows[0].record.sampleArray;
    if p < |samples| {
      assert Track(rows, 1)[p] == Slot(rows[0], 1)[p];
      assert Track(rows, 2)[p] == Slot(rows[0], 2)[p];
    } else {
      ChannelsComplement(rows[1..], p - |samples|);
      assert Track(rows, 1)[p] == Track(rows[1..], 1)[p - |samples|];
      assert Track(rows, 2)[p] == Track(rows[1..], 2)[p - |samples|];
      assert Spoken(rows)[p] == Spoken(rows[1..])[p - |samples|];
    }
  }

  /** All fragments' samples played back to back, with no padding. */
  function Spoken(rows: seq<Row>): seq<Sample> {
    if rows == [] then [] else rows[0].record.sampleArray + Spoken(rows[1..])
  }

  lemma {:induction false} SpokenLength(rows: seq<Row>)
    ensures |Spoken(rows)| == TotalSamples(rows)
  {
    if rows != [] {
      SpokenLength(rows[1..]);
    }
  }

  /** Walks the rows in order and fills the two segment lists: for a row on
      channel 1 its samples go to the first list and silence to the second;
      for any other channel the roles are swapped. */
  method BuildChannelSegments(rows: seq<Row>) returns (channel1Segments: seq<seq<Sample>>, channel2Segments: seq<seq<Sample>>)
    ensures |channel1Segments| == |channel2Segments| == |rows|
    ensures forall k :: 0 <= k < |rows| && rows[k].channel == 1 ==>
              channel1Segments[k] == rows[k].record.sampleArray &&
              channel2Segments[k] == Zeros(|rows[k].record.sampleArray|)
    ensures forall k :: 0 <= k < |rows| && rows[k].channel != 1 ==>
              channel2Segments[k] == rows[k].record.sampleArray &&
              channel1Segments[k] == Zeros(|rows[k].record.sampleArray|)
    ensures channel1Segments == Segments(rows, 1) && channel2Segments == Segments(rows, 2)
  {
    channel1Segments := [];
    channel2Segments := [];
    for i := 0 to |rows|
      invariant |channel1Segments| == |channel2Segments| == i
      invariant forall k :: 0 <= k < i ==> channel1Segments[k] == Slot(rows[k], 1)
      invariant forall k :: 0 <= k < i ==> channel2Segments[k] == Slot(rows[k], 2)
    {
      var samples := rows[i].record.sampleArray;
      if rows[i].channel == 1 {
        channel1Segments := channel1Segments + [samples];
        channel2Segments := channel2Segments + [Zeros(|samples|)];
      } else {
        channel2Segments := channel2Segments + [samples];
        channel1Segments := channel1Segments + [Zeros(|samples|)];
      }
    }
  }

  /** Collates the rows into the two padded tracks. Fails when there are no
      rows, since there is then nothing to concatenate. */
  method CollateChannelAudio(rows: seq<Row>) returns (result: Result<ChannelTracks, CollateError>)
    ensures result.Err? <==> rows == []
    ensures result.Ok? ==>
              result.value.channel1 == Track(rows, 1) && result.value.channel2 == Track(rows, 2)
    ensures result.Ok? ==>
              |result.value.channel1| == |result.value.channel2| == TotalSamples(rows)
  {
    var channel1Segments, channel2Segments := BuildChannelSegments(rows);
    var channel1Padded := Concatenate(channel1Segments);
    if channel1Padded.Err? {
      return Err(channel1Padded.error);
    }
    // Both lists have one entry per row, so the second concatenation
    // cannot fail once the first has succeeded.
    var channel2Padded := Concatenate(channel2Segments);
    TracksAligned(rows);
    result := Ok(ChannelTracks(channel1Padded.value, channel2Padded.value));
  }
}

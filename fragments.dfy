/** Shared vocabulary of the fragment-to-stereo pipeline: the decoded
    speech fragments, the per-fragment records built from them, and the
    Result type used for the pipeline's failure paths. */
module Fragments {

  /** Either a value or the error that stopped the computation. */
  datatype Result<+T, +E> = Ok(value: T) | Err(error: E)

  /** One audio sample. Samples are only copied or replaced by silence,
      never computed on, so an exact number stands for the float. */
  type Sample = real

  /** The silent sample written into padding segments. */
  const Silence: Sample := 0.0

  /** A fragment file as it comes out of the directory listing and the
      audio decoder: its base name and its decoded mono samples. */
  datatype DecodedFile = DecodedFile(name: string, samples: seq<Sample>)

  /** One entry of the fragment record list: the file name, the decoded
      samples and their cached count. */
  datatype FragmentRecord = FragmentRecord(file: string, sampleArray: seq<Sample>, sampleArrayShape: nat)

  /** The cached sample count agrees with the samples it describes. */
  predicate ShapeConsistent(r: FragmentRecord) {
    r.sampleArrayShape == |r.sampleArray|
  }

  /** The record built for one decoded file: its name, its samples and a
      cached count that agrees with them. */
  function RecordOf(f: DecodedFile): (r: FragmentRecord)
    ensures r.file == f.name && r.sampleArray == f.samples
    ensures ShapeConsistent(r)
  {
    FragmentRecord(f.name, f.samples, |f.samples|)
  }

  /** The records of the decoded files, one per file in listing order. */
  function Records(files: seq<DecodedFile>): seq<FragmentRecord> {
    seq(|files|, i requires 0 <= i < |files| => RecordOf(files[i]))
  }

  /** Builds the record list by appending one record per decoded file, in
      the order the directory listing produced them. */
  method LoadFragmentRecords(files: seq<DecodedFile>) returns (records: seq<FragmentRecord>)
    ensures |records| == |files|
    ensures forall i :: 0 <= i < |files| ==>
              records[i].file == files[i].name && records[i].sampleArray == files[i].samples
    ensures forall i :: 0 <= i < |records| ==> ShapeConsistent(records[i])
    ensures records == Records(files)
  {
    records := [];
    for i := 0 to |files|
      invariant |records| == i
      invariant forall k :: 0 <= k < i ==> records[k] == RecordOf(files[k])
    {
      records := records + [RecordOf(files[i])];
    }
  }
}

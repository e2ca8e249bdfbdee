# Fragment-to-stereo assembly, modelled in Dafny

This project models the core of `synthesise_transcript_audio.py`, which turns
the per-utterance speech fragments of one synthetic call-centre conversation
(an "episode") into two equally long mono tracks, one per speaker, ready to be
combined into a stereo recording.

The pipeline has three steps, modelled in four modules:

- **Record building** (`Fragments`). Each decoded fragment file becomes a record
  holding the file name, the samples and the cached sample count. This module
  also holds the vocabulary the other modules share.
- **Sequencing** (`FileNames` reads the index from a name, `Sequencing` builds
  the ordered table). Each record's sequence index is
  read from its file name. The name is split on `_`, the last token is taken,
  and the FIRST character of that token is read as a decimal digit. The records
  are then sorted by index. Each row gets channel 1 if its index is even and
  channel 2 otherwise.
- **Channel padding** (`ChannelPadding`). The code walks the rows in order.
  Each row's samples go to its own channel's segment list, and a zero run of
  the same length goes to the other list. Each list is then concatenated into
  one track.

A fifth module, `Episode`, states properties of the steps taken together, and works
through the three-turn example conversation.

Samples are `real`. The code only copies samples or replaces them with
silence (0.0), so no floating-point arithmetic is involved. Python exceptions
are modelled as `Err` values of a `Result` type:

- an empty fragment set gives a table with no `file` column, so reading it
  fails (`NoFileColumn`);
- a name whose last token is empty fails (`EmptyIndexToken`);
- a last token whose first character is not a digit fails (`NonDigitIndex`);
- concatenating an empty segment list fails (`NothingToConcatenate`).

The model follows the code as written, including where it does less than a
careful design would:

- there is no contiguity check, so gaps and repeated indices pass silently
  (`Episode.GapsAndDuplicatesPass`);
- the index is a single digit, so `utt_12.mp3` reads as 1
  (`FileNames.MultiDigitIndexCollapses`);
- collation branches on `channel == 1`, and every other value goes to
  channel 2;
- the zero runs take their length from the sample array itself, not from the
  cached count.

## Model

| member | source | states |
|---|---|---|
| `Fragments.RecordOf` | synthesise_transcript_audio.py:18-19 | a file's record carries its name and samples, and its cached count equals its number of samples |
| `Fragments.LoadFragmentRecords` | synthesise_transcript_audio.py:14-20 | one record per decoded file, in listing order, carrying its name and samples, and every record's cached count equals its number of samples |
| `FileNames.Split` | synthesise_transcript_audio.py:25 | splitting a name on `_` gives at least one token, and no token contains `_` |
| `FileNames.JoinSplit` | synthesise_transcript_audio.py:25 | splitting loses nothing: gluing the tokens back with `_` gives the name |
| `FileNames.SplitJoin` | synthesise_transcript_audio.py:25 | splitting a `_`-join of `_`-free tokens gives those tokens back |
| `FileNames.SplitAtSeparator` | synthesise_transcript_audio.py:25 | a `_` between two strings splits them independently |
| `FileNames.LastToken` | synthesise_transcript_audio.py:25 | the last token of the split never contains `_` |
| `FileNames.LastTokenIsFinalSegment` | synthesise_transcript_audio.py:25 | the last token is the suffix of the name after its last `_`, or the whole name if there is none |
| `FileNames.LastTokenAfterSeparator` | synthesise_transcript_audio.py:25 | whatever precedes the last `_` does not change the last token |
| `FileNames.ParseIndex` | synthesise_transcript_audio.py:25 | succeeds exactly when the last token is non-empty and starts with a decimal digit; the index is that digit's value, so at most 9; an empty last token is its own error |
| `FileNames.ParseIndexReadsLeadingDigit` | synthesise_transcript_audio.py:25 | for every prefix and every `_`-free rest, `prefix_d rest` reads as the digit d |
| `FileNames.MultiDigitIndexCollapses` | synthesise_transcript_audio.py:25 | `utt_12.mp3` reads as 1, and `utt_10.mp3` reads the same as `utt_1.mp3` |
| `FileNames.MalformedNamesFail` | synthesise_transcript_audio.py:25 | a name ending in `_` fails with an empty token; a last token starting with a letter fails on that letter |
| `Sequencing.AssignSequenceIdx` | synthesise_transcript_audio.py:25 | succeeds exactly when every name yields an index; then it keeps record order and pairs each record with its own index; otherwise the error is the one of the first failing name |
| `Sequencing.Insert` | synthesise_transcript_audio.py:26 | inserting into a sorted list keeps it sorted and adds exactly that one record |
| `Sequencing.SortBySequenceIdx` | synthesise_transcript_audio.py:26 | the result is non-decreasing by index and is a permutation of the input |
| `Sequencing.SortedPermutationUnique` | synthesise_transcript_audio.py:26 | with pairwise distinct indices, any two sorted permutations of the same records are equal |
| `Sequencing.DistinctIndicesDetermineOrder` | synthesise_transcript_audio.py:26-30 | with distinct indices, the rows equal those built from any sorted reordering of the indexed records, so the sort's tie-breaking does not matter |
| `Sequencing.ChannelFor` | synthesise_transcript_audio.py:29 | the channel is 1 or 2, and it is 1 exactly when the index is even |
| `Sequencing.AssignChannels` | synthesise_transcript_audio.py:28-30 | one row per sorted record, in the same order, keeping its record and index and adding its parity channel |
| `Sequencing.OrderAndAssign` | synthesise_transcript_audio.py:26-30 | the rows are a permutation of the indexed records, sorted by index, each with channel 1 exactly when its index is even and 2 otherwise |
| `Sequencing.Sequence` | synthesise_transcript_audio.py:22-32 | an empty record list fails with no `file` column; otherwise it succeeds exactly when every name yields an index; the rows are a permutation of the indexed records, sorted by index, each with index at most 9 and channel 1 exactly when the index is even, else 2 |
| `Sequencing.RowsComeFromRecords` | synthesise_transcript_audio.py:22-31 | every row is one of the input records, carrying the index read from that record's own name |
| `Sequencing.RetrieveEpisodeAudio` | synthesise_transcript_audio.py:13-34 | the result is the table step applied to the files' records; it fails on an empty listing, and otherwise names the first file whose index cannot be read; on success the rows are the files' records, each exactly once with the index read from its own name, sorted by index, with the parity channel and consistent sample counts |
| `ChannelPadding.Owner` | synthesise_transcript_audio.py:43-55 | a row's samples go to track 1 exactly when its channel is 1, and to track 2 for every other channel value |
| `ChannelPadding.Zeros` | synthesise_transcript_audio.py:47 | the padding run (also at line 54) has the requested length and is silent at every position |
| `ChannelPadding.Concatenate` | synthesise_transcript_audio.py:59 | array concatenation fails exactly on an empty segment list |
| `ChannelPadding.BuildChannelSegments` | synthesise_transcript_audio.py:39-55 | each list has one entry per row, in row order; a row on channel 1 puts its samples in list 1 and equally many zeros in list 2; any other channel swaps the roles |
| `ChannelPadding.CollateChannelAudio` | synthesise_transcript_audio.py:37-63 | fails exactly when there are no rows; otherwise both tracks are the in-order concatenations of their segment lists and have the same length, the total number of samples |
| `ChannelPadding.TrackLength` | synthesise_transcript_audio.py:46-62 | each padded track is as long as all fragments together |
| `ChannelPadding.TracksAligned` | synthesise_transcript_audio.py:46-62 | the two padded tracks have equal length |
| `ChannelPadding.TotalMatchesShapes` | synthesise_transcript_audio.py:19 | when cached counts are consistent, the track length is also the sum of the cached counts |
| `ChannelPadding.SlotContents` | synthesise_transcript_audio.py:43-62 | fragment i's slot starts at the total length of fragments 0..i-1 in both tracks; it holds the samples in the owning track and equally many zeros in the other |
| `ChannelPadding.ChannelsComplement` | synthesise_transcript_audio.py:43-62 | at every sample position at least one track is silent, and the two tracks added together give all fragments played back to back |
| `Episode.ParityDecidesTrack` | synthesise_transcript_audio.py:28-55 | after sequencing, an even-indexed fragment sounds on channel 1 and is silent on channel 2 in its slot, and an odd-indexed one the other way round |
| `Episode.TurnNamesParse` | synthesise_transcript_audio.py:25 | `utt_0.mp3`, `utt_1.mp3` and `utt_2.mp3` read as 0, 1 and 2 |
| `Episode.ScenarioIsSequenced` | synthesise_transcript_audio.py:22-32 | three turns listed last-first come out in turn order on channels 1, 2, 1 |
| `Episode.ScenarioTracks` | synthesise_transcript_audio.py:39-62 | turns of 2, 3 and 1 samples collate into `[1,1,0,0,0,3]` on channel 1 and `[0,0,2,2,2,0]` on channel 2 |
| `Episode.GapsAndDuplicatesPass` | synthesise_transcript_audio.py:22-32 | indices 0 and 2 (a missing turn), and a repeated index, are both accepted |
| `Episode.EmptyEpisodeFails` | synthesise_transcript_audio.py:22-25 | an episode without fragments fails instead of producing tracks |

## Left out

- Audio decoding and resampling (`librosa.load`, line 17) is a foreign library doing floating-point signal processing. Each fragment's decoded samples are an input.
- Directory globbing (line 15) is file-system I/O with an arbitrary order. The decoded files are an input sequence in any order.
- Writing the temporary channel files (`soundfile.write`, lines 60 and 63) and the 22050 Hz rate (line 58) are output only.
- `sum_left_right_mono_audio` (lines 66-73) is a thin wrapper over a library's stereo combination and export. The repository has no interleaving logic of its own, so the stereo step is not modelled.
- Logging (lines 7, 9, 33, 64, 73) and the `__main__` driver (lines 76-80) are not modelled.
- The float32 element type of the zero arrays is not modelled; samples are exact numbers.
- The exception types and their messages are not modelled; each failure is an `Err` value naming its cause.
- SortBySequenceIdx: the table library's default sort is not stable. The model fixes one order: equal indices keep their listing order. Rows with equal indices may come out in another order in the original. Every collation property holds for rows in any order, and `Sequencing.DistinctIndicesDetermineOrder` shows that the order is fully determined when indices are distinct.
- ParseIndex: only the ASCII digits `0`-`9` are accepted. Python's `int` also accepts a single decimal digit from other scripts, such as Arabic-Indic digits, and would return an index for those names.

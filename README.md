# heron provenance and normalisation core, modelled in Dafny

This project models the bookkeeping at the centre of the heron (nuxsec) analysis chain and
proves properties of that model:

- **Stage inventory.** `artIOpartition` records one art stage in an ArtIO file and skips a
  stage that is already listed there. `ArtIOManifestIO` keeps the "Stages" and "RunSubruns"
  trees.
- **Sample aggregation.** `SampleAggregator` folds the provenance of a stage's files into one
  `Sample`. It sums the POT counters and derives the normalisation (target POT over observed
  POT) from the aggregate sums. `SampleRootIO` writes and reads the sample record, and
  `sampleIOaggregator` is the driver that ties the two together.
- **Sample lists.** The tab-separated sample list is read, upserted and rewritten sorted
  (`SampleCLI`). `sampleRDFmaker` looks a sample up by name, and `Dataset` loads every sample
  of a list.
- **Analysis layer.**
  - `AnalysisProcessor` holds the enums and their conversions.
  - `AnalysisConfigService` builds the exposure record of a sample.
  - `AnalysisRdfDefinitions` defines the event weights, the training/template split and the
    truth columns.
  - `AnalysisChannels` holds the truth channel classifier and the signal definition.
  - `SelectionService` holds the preset selections.
  - `EventSampleFilterService` applies the overlay/strangeness split.
- **Command-line and macro helpers.**
  - `AppUtils` trims strings and reads file lists.
  - `EventCLI` parses the event-list arguments.
  - `nuxsec` quotes driver command lines for the shell and maps wait statuses to exit codes.
  - `Plotter` holds the plotting defaults, the name sanitiser and the thousands grouping.
  - `make_event_list.C` chooses the snapshot columns.
  - `MacroColumns.hh` and `MacroIO.hh` hold the macros' column and path checks.

There is one Dafny module per source file. Four shared modules sit beside them:

- `Outcomes`: `Option`, `Result` and `Outcome`. A thrown `std::runtime_error` is an `Err` or
  `Fail` carrying its message.
- `Strings`: `std::string` ordering, splitting and joining, and lower-casing.
- `Sorting`: a sort specified as a sorted permutation.
- `SampleTypes`: the sample kind and beam enums.

Several drivers repeat the same helpers word for word:

- `trim` is modelled once, as `AppUtils.Trimmed`.
- `read_paths`/`ReadFileList` is modelled once, as `AppUtils.ReadPaths` / `AppUtils.KeptPaths`.
- `split_tabs` is modelled once, as `SampleCLI.SplitTabs`.

Doubles are exact reals. `std::isfinite` is modelled by the `Floats.Float` datatype.

Files, ROOT objects, the beam database, the environment and `std::system` are inputs. They
are given to the operations as values or functions.

The list readers differ in two ways that are easy to miss, and the model keeps both:

- **The "sample_name" header row is handled three different ways:**
  - `read_samples` skips it only when it is the first non-comment line;
  - `sampleRDFmaker`'s reader never skips it;
  - `Dataset::load_samples` skips it wherever it appears.
- **Only some readers trim list lines:** `Dataset::load_samples` trims nothing, while the other
  readers trim every line.

## Model

| member | source | states |
|---|---|---|
| AppUtils.Trim | apps/include/AppUtils.hh:22-31 | the loop computes the trim of `s` |
| AppUtils.TrimStart | apps/include/AppUtils.hh:28 | the first position that is not white space, with only white space before it |
| AppUtils.TrimEnd | apps/include/AppUtils.hh:29 | the end once trailing white space is dropped, with only white space after it |
| AppUtils.TrimmedShape | apps/include/AppUtils.hh:22-31 | trim keeps a contiguous infix, and that infix neither starts nor ends with white space |
| AppUtils.TrimmedFixed | apps/include/AppUtils.hh:22-31 | a string without surrounding white space is its own trim |
| AppUtils.TrimmedIdempotent | apps/include/AppUtils.hh:22-31 | trimming twice is trimming once |
| AppUtils.CollectArgs | apps/include/AppUtils.hh:33-46 | argv from `start` on, in order; nothing when argc <= start |
| AppUtils.RunGuarded | apps/include/AppUtils.hh:48-59 | the callback's status, or 1 when it threw |
| AppUtils.KeptPaths | apps/include/AppUtils.hh:71-79 | the trimmed path lines of a file, never more than its lines; KeptPathsWellFormed states what is kept |
| AppUtils.KeptPathsWellFormed | apps/include/AppUtils.hh:71-79 | every kept path is trimmed, non-empty and not a comment, and there are no more paths than lines |
| AppUtils.KeptPathsAppend | apps/include/AppUtils.hh:71-79 | the kept paths of consecutive line blocks concatenate |
| AppUtils.ReadPaths | apps/include/AppUtils.hh:61-84 | the open-failure and empty-list errors, and otherwise exactly the kept lines in order |
| AppUtils.PathJoin | framework/core/src/SampleCLI.cc:136-139 | std::filesystem's `/` for a relative name: the result ends with the name; after a non-empty directory it starts with the directory and a '/' stands before the name |
| Sorting.Sort | framework/core/src/SampleCLI.cc:96-101 | the sorted list is a permutation of the input (multiset equality) |
| Sorting.Insert | framework/core/src/SampleCLI.cc:96-101 | inserting adds exactly the one element |
| Sorting.InsertSorted | framework/core/src/SampleCLI.cc:96-101 | inserting into a sorted list keeps it sorted, for a total transitive order |
| Sorting.SortSorted | framework/core/src/SampleCLI.cc:96-101 | the result is sorted, for a total transitive order |
| Strings.LeIsTotalOrder | bin/artIOpartition/artIOpartition.cxx:153 | std::string ordering is total and transitive, as std::sort and std::binary_search need |
| Strings.IndexOf | framework/core/src/SampleCLI.cc:27 | std::string::find: the first occurrence, or the length when there is none |
| Strings.JoinSplit | framework/core/src/SampleCLI.cc:21-37 | rejoining the fields with the separator gives the line back |
| Strings.SplitFields | framework/core/src/SampleCLI.cc:21-37 | no field contains the separator, and there is one more field than separators |
| Strings.SplitJoin | framework/core/src/SampleCLI.cc:21-37 | splitting a join of separator-free fields gives the fields back |
| Strings.Lower | macros/macro/include/MacroIO.hh:24-25 | tolower applied to every character, length kept |
| SampleAggregator.ComputeNormalization | sample/src/SampleAggregator.cc:61-72 | 1 when either exposure is not positive, otherwise the factor that scales observed onto target; always positive |
| SampleAggregator.NormalizedPot | sample/src/SampleAggregator.cc:61-72 | scaling the observed POT by the normalisation gives the target, or leaves the observed POT when no rescaling applies |
| SampleAggregator.DefaultsAreNeutral | sample/include/Sample.hh:19-46 | the default normalisation of 1 is the value computed for zero exposure |
| SampleAggregator.MakeFragment | sample/src/SampleAggregator.cc:74-85 | the fragment carries the stage's counters, and its normalisation is computed from its own POT |
| SampleAggregator.FragmentNormalizedPot | sample/src/SampleAggregator.cc:74-85 | a fragment's normalised POT is its target POT when both counters are positive |
| SampleAggregator.SubrunSumAppend | sample/src/SampleAggregator.cc:49-52 | the aggregate sum over a concatenation is the sum of the parts |
| SampleAggregator.TortgtSumAppend | sample/src/SampleAggregator.cc:50 | the target-POT sum over a concatenation is the sum of the parts |
| SampleAggregator.Tor101SumAppend | sample/src/SampleAggregator.cc:51 | the tor101 sum over a concatenation is the sum of the parts |
| SampleAggregator.Aggregate | sample/src/SampleAggregator.cc:17-59 | succeeds exactly for at least one path with every record readable and all agreeing on kind and beam; then one fragment per path in order, the summed counters, and the normalisation from those sums |
| SampleAggregator.FoldFragments | sample/src/SampleAggregator.cc:28-53 | the loop fails exactly when some record is unreadable or disagrees with the first on kind or beam; otherwise it yields one fragment per path and the three summed counters |
| SampleAggregator.PrefixStep | sample/src/SampleAggregator.cc:28-53 | a readable, agreeing record extends the built sample by its fragment and its counters |
| SampleAggregator.PrefixMismatch | sample/src/SampleAggregator.cc:38-45 | a record disagreeing on kind or beam rules out a consistent path list |
| SampleAggregator.UnreadableBreaks | sample/src/SampleAggregator.cc:30 | an unreadable record rules out an all-readable path list |
| SampleAggregator.PrefixDone | sample/src/SampleAggregator.cc:28-53 | once every record is read, the list is readable and consistent and the sample is the fold of its records |
| SampleRootIO.Decode | sample/src/SampleRootIO.cc:98-185 | the definition of read() on a directory; DecodeOkIffComplete, MissingParamNamed and RoundTrip state its properties |
| SampleRootIO.Encode | sample/src/SampleRootIO.cc:32-76 | the definition of write() on a directory; RoundTrip, EncodeKeepsOtherKeys and LastWriteWins state its properties |
| SampleRootIO.FirstMissingParam | sample/src/SampleRootIO.cc:129-144 | none exactly when every parameter is present; otherwise the first missing key in read order |
| SampleRootIO.DecodeOkIffComplete | sample/src/SampleRootIO.cc:98-185 | read succeeds exactly when every required object is present with the class it is cast to |
| SampleRootIO.MissingParamNamed | sample/src/SampleRootIO.cc:129-144 | the error names the first missing double parameter |
| SampleRootIO.RoundTrip | sample/src/SampleRootIO.cc:17-185 | reading back what write stored gives the same sample, whatever the directory held before |
| SampleRootIO.EncodeKeepsOtherKeys | sample/src/SampleRootIO.cc:32-76 | write leaves every other object of the directory unchanged |
| SampleRootIO.LastWriteWins | sample/src/SampleRootIO.cc:32-76 | kOverwrite: after two writes only the second sample is read back |
| SampleRootIO.SampleFile.constructor | sample/src/SampleRootIO.cc:19-20 | the file state as opened |
| SampleRootIO.SampleFile.Write | sample/src/SampleRootIO.cc:17-81 | fails without change when the file cannot be opened for update; otherwise the sample directory encodes the sample over its old contents |
| SampleRootIO.SampleFile.Read | sample/src/SampleRootIO.cc:83-186 | the open and missing-directory errors; otherwise the decoded directory |
| SampleRootIO.WriteThenRead | sample/src/SampleRootIO.cc:17-186 | writing to an updatable file and reading it back returns the sample written |
| ArtIOManifest.MakeStageRow | lib/NuIO/src/ArtIOManifestIO.cxx:156-176 | the "Stages" row carries the stage and file-list names, the kind and beam names, the unique-pair count, the subrun POT sum and the target POT sum |
| ArtIOManifest.StageNames | lib/NuIO/src/ArtIOManifestIO.cxx:37-45 | the stage-name column, one per row in order |
| ArtIOManifest.ConfigNames | lib/NuIO/src/ArtIOManifestIO.cxx:154-156 | the names of the stages, in order |
| ArtIOManifest.StageNamesOfAppend | lib/NuIO/src/ArtIOManifestIO.cxx:154-185 | appending rows appends exactly the new stages' names to the listing |
| ArtIOManifest.StageRowsShape | lib/NuIO/src/ArtIOManifestIO.cxx:156-176 | one stage row per stage, in order, each built from its stage |
| ArtIOManifest.TaggedPairsShape | lib/NuIO/src/ArtIOManifestIO.cxx:178-184 | one pair row per unique pair, each tagged with the stage name |
| ArtIOManifest.PairRowsAgreeWithStages | lib/NuIO/src/ArtIOManifestIO.cxx:154-185 | the pair rows number the recorded n_unique_pairs, and each names a stage holding its pair |
| ArtIOManifest.FillPairs | lib/NuIO/src/ArtIOManifestIO.cxx:178-184 | the loop appends the stage's tagged pairs to the tree |
| ArtIOManifest.AppendRows | lib/NuIO/src/ArtIOManifestIO.cxx:154-185 | the loop appends one stage row per stage and their tagged pairs |
| ArtIOManifest.ArtIOFile.constructor | lib/NuIO/src/ArtIOManifestIO.cxx:26-32 | a file with no trees and no ArtIO directory |
| ArtIOManifest.ArtIOFile.ListStages | lib/NuIO/src/ArtIOManifestIO.cxx:24-46 | the recorded names in row order; none when the file or the tree is missing |
| ArtIOManifest.ArtIOFile.AppendStages | lib/NuIO/src/ArtIOManifestIO.cxx:58-198 | nothing for an empty list; an update failure changes nothing; otherwise the rows are appended without de-duplication and the database path and scale are overwritten |
| ArtIOManifest.AppendThenList | lib/NuIO/src/ArtIOManifestIO.cxx:24-198 | after an append the listing is the old listing followed by the new names |
| ArtIOPartition.SplitSpec | bin/artIOpartition/artIOpartition.cxx:114-122 | none exactly when there is no ':'; otherwise both sides of the first ':', trimmed |
| ArtIOPartition.SplitSpecRoundTrip | bin/artIOpartition/artIOpartition.cxx:114-122 | a trimmed colon-free name and a trimmed value split back into the two |
| ArtIOPartition.ParseStageSpec | bin/artIOpartition/artIOpartition.cxx:114-128 | no ':' gives the "expected NAME:FILELIST" error; a result has a non-empty name and list |
| ArtIOPartition.ParseStageSpecRoundTrip | bin/artIOpartition/artIOpartition.cxx:114-128 | a well-formed spec parses to its own name and list |
| ArtIOPartition.ParseStageSpecRejectsBlank | bin/artIOpartition/artIOpartition.cxx:124-125 | a blank name or list gives "Bad stage spec" |
| ArtIOPartition.HasStageName | bin/artIOpartition/artIOpartition.cxx:130-133 | binary search on a sorted list finds a name exactly when it is present |
| ArtIOPartition.SortedSearchMatchesListing | bin/artIOpartition/artIOpartition.cxx:152-160 | searching the sorted listing agrees with membership in the unsorted one |
| ArtIOPartition.PeekBeam | bin/artIOpartition/artIOpartition.cxx:173-174 | NuMI exactly when the flag is true, unknown exactly when it is absent |
| ArtIOPartition.PeekKind | bin/artIOpartition/artIOpartition.cxx:175-176 | data exactly when flagged as data, otherwise unknown |
| ArtIOPartition.MakeStage | bin/artIOpartition/artIOpartition.cxx:168-179 | the stage record holds the spec, the file count, the peeked kind and beam and the scanned sums |
| ArtIOPartition.ParseArgs | bin/artIOpartition/artIOpartition.cxx:146-149 | the usage error unless there is exactly one argument, which is then the stage spec |
| ArtIOPartition.Partition | bin/artIOpartition/artIOpartition.cxx:137-199 | exit 0 or 1; on 1 nothing changes; an already-listed stage gives 0 and no change; for a new stage, 1 for an empty file list, a scan or run-info error or a file not open for update, otherwise 0 with the stage row appended to the old stages and the stage's tagged (run, subrun) pairs appended to the old pairs |
| SampleCLI.SplitTabs | framework/core/src/SampleCLI.cc:21-37 | the loop yields the tab-separated fields of the line |
| SampleCLI.ParseLinesStep | framework/core/src/SampleCLI.cc:57-84 | one line of the reader: skip, error on fewer than four fields, drop the first header, or keep fields 0-3 |
| SampleCLI.PrefixCons | framework/core/src/SampleCLI.cc:78-83 | putting entries in front of a parse result composes |
| SampleCLI.ParseLines | framework/core/src/SampleCLI.cc:54-84 | the reader's result, with no more entries than lines |
| SampleCLI.ParseList | framework/core/src/SampleCLI.cc:54-84 | the loop with its first_nonempty flag computes the list reader's result |
| SampleCLI.ReadSamples | framework/core/src/SampleCLI.cc:39-92 | missing-file tolerance only when allowed and only for ENOENT; the malformed-row and empty-list errors; otherwise the parsed entries |
| SampleCLI.HeaderOnlyFirst | framework/core/src/SampleCLI.cc:71-76 | a header row is dropped only as the first non-comment line, and is an entry otherwise |
| SampleCLI.KeyLtTrichotomy | framework/core/src/SampleCLI.cc:99-100 | the std::tie order is trichotomous |
| SampleCLI.KeyLtTransitive | framework/core/src/SampleCLI.cc:99-100 | the std::tie order is transitive |
| SampleCLI.EntryLeIsTotalOrder | framework/core/src/SampleCLI.cc:96-101 | the (origin, beam, name) order is total and transitive |
| SampleCLI.Render | framework/core/src/SampleCLI.cc:112-115 | one entry line: the four fields joined by tabs; RenderParses states that it splits back |
| SampleCLI.Listing | framework/core/src/SampleCLI.cc:94-116 | the written file: the header line and then one line per entry |
| SampleCLI.RenderAll | framework/core/src/SampleCLI.cc:110-116 | one tab-joined line per entry, in order |
| SampleCLI.ListingIsSortedPermutation | framework/core/src/SampleCLI.cc:96-101 | the written entries are sorted by (origin, beam, name) and are a permutation of the input |
| SampleCLI.WriteSamples | framework/core/src/SampleCLI.cc:94-117 | the open-for-writing error, or the header followed by the sorted entry lines |
| SampleCLI.ListingStep | framework/core/src/SampleCLI.cc:110-116 | writing one more entry appends exactly its line to the file |
| SampleCLI.RenderAllSnoc | framework/core/src/SampleCLI.cc:110-116 | rendering a list with one more entry adds that entry's line at the end |
| SampleCLI.RenderParses | framework/core/src/SampleCLI.cc:21-37 | a written line splits back into the entry's four fields |
| SampleCLI.RenderAllParses | framework/core/src/SampleCLI.cc:54-84 | written entry lines read back as the entries |
| SampleCLI.RenderAllParsesStep | framework/core/src/SampleCLI.cc:54-84 | the first entry line reads back in front of the entries read from the rest |
| SampleCLI.EntryLineParses | framework/core/src/SampleCLI.cc:57-84 | a trimmed entry line with four tab-separated fields reads as that entry unless it is the header to skip |
| SampleCLI.CommentSkipped | framework/core/src/SampleCLI.cc:60-63 | a '#' line is skipped and leaves the header state as it was |
| SampleCLI.SortedWritable | framework/core/src/SampleCLI.cc:96-101 | sorting keeps every entry representable |
| SampleCLI.WriteReadRoundTrip | framework/core/src/SampleCLI.cc:39-117 | reading back a written list gives the sorted entries, for entries whose fields are trimmed and hold no tab or line break |
| SampleCLI.ListingParses | framework/core/src/SampleCLI.cc:54-116 | the header line followed by entry lines reads back as the entries, for trimmed fields without tabs or line breaks |
| SampleCLI.HeaderIsComment | framework/core/src/SampleCLI.cc:109 | the written header is a comment line |
| SampleCLI.CommentThenEntries | framework/core/src/SampleCLI.cc:54-116 | a comment before the entry lines does not change what is read |
| SampleCLI.ParseSampleInput | framework/core/src/SampleCLI.cc:119-142 | the two definition errors; a result has a non-empty name and list, and its output and list paths lie under the sample directory |
| SampleCLI.ParseSampleInputRoundTrip | framework/core/src/SampleCLI.cc:119-142 | a well-formed definition keeps its name and file list |
| SampleCLI.ParseSampleArgs | framework/core/src/SampleCLI.cc:144-152 | the usage error unless there is exactly one argument |
| SampleCLI.FirstMatch | framework/core/src/SampleCLI.cc:163-173 | the first entry with the same (name, origin, beam), or the length when there is none |
| SampleCLI.Upsert | framework/core/src/SampleCLI.cc:162-182 | the loop computes the upsert: the first match gets the new path, or a new entry is appended |
| SampleCLI.Upserted | framework/core/src/SampleCLI.cc:162-182 | the definition of the upsert; UpsertKeepsOthers and UpsertTwice state its properties |
| SampleCLI.UpsertKeepsOthers | framework/core/src/SampleCLI.cc:162-182 | the new entry is present, every other entry is kept, and the length grows by one exactly when there was no match |
| SampleCLI.UpsertTwice | framework/core/src/SampleCLI.cc:162-182 | upserting the same sample twice is upserting it once with the second path |
| SampleCLI.FirstMatchAt | framework/core/src/SampleCLI.cc:163-173 | the first matching index is found exactly |
| SampleCLI.UpdateSampleList | framework/core/src/SampleCLI.cc:154-185 | the open and parse errors of the read; for a missing or readable list, the written file is the listing of the upsert of the entries read, or the open-for-writing error when the list is not writable |
| SampleRdfMaker.ReadSampleList | bin/sampleRDFmaker/sampleRDFmaker.cxx:61-92 | the open error, or the shared reader with no header skipping |
| SampleRdfMaker.HeaderRowIsEntry | bin/sampleRDFmaker/sampleRDFmaker.cxx:61-92 | an uncommented "sample_name" row is read as an ordinary entry |
| SampleRdfMaker.Named | bin/sampleRDFmaker/sampleRDFmaker.cxx:97-104 | exactly the entries with that name |
| SampleRdfMaker.FindSampleEntry | bin/sampleRDFmaker/sampleRDFmaker.cxx:94-114 | not-found and not-unique errors; otherwise the one entry with the name |
| SampleRdfMaker.ParseArgs | bin/sampleRDFmaker/sampleRDFmaker.cxx:125-150 | valid exactly for 3 or 4 non-empty arguments; the snapshot flag is set exactly by the fourth |
| SampleIoAggregator.ParseArgs | bin/sampleIOaggregator/sampleIOaggregator.cxx:67-93 | the usage and spec errors; the output path is ./SampleIO_NAME.root |
| SampleIoAggregator.ParseArgsRoundTrip | bin/sampleIOaggregator/sampleIOaggregator.cxx:67-93 | a well-formed spec keeps its name and list |
| SampleIoAggregator.Run | bin/sampleIOaggregator/sampleIOaggregator.cxx:97-125 | exit 0 exactly when parsing, reading the list, aggregating and writing all succeed |
| Dataset.ParseRow | framework/io/src/Dataset.cpp:35-47 | an empty line gives no row, and a parsed row has tab-free name, origin and beam; ParseRowFields states the parse |
| Dataset.Accepted | framework/io/src/Dataset.cpp:29-52 | a line is loaded exactly when it is non-empty, not a comment, has four fields, is not the header and names an output path |
| Dataset.AcceptedPaths | framework/io/src/Dataset.cpp:27-55 | the definition of the output paths of the accepted lines, in file order; AcceptedPathsShape and AcceptedPathsAppend state its properties |
| Dataset.AcceptedPathsShape | framework/io/src/Dataset.cpp:27-55 | at most one path per line, and no path read is empty |
| Dataset.RowPath | framework/io/src/Dataset.cpp:29-52 | the checks of one line give its output path exactly when the line is accepted |
| Dataset.GetLine | framework/io/src/Dataset.cpp:41-44 | getline fails exactly on an exhausted stream and yields a delimiter-free field |
| Dataset.ParseRowFields | framework/io/src/Dataset.cpp:35-47 | three tab-free fields and a non-empty remainder parse to those fields |
| Dataset.FieldThenRest | framework/io/src/Dataset.cpp:41-43 | getline up to a tab yields the field and the rest |
| Dataset.ShortRowDropped | framework/io/src/Dataset.cpp:41-47 | a row with fewer than three tabs is dropped |
| Dataset.SplitCount | framework/io/src/Dataset.cpp:41-43 | the tabs of a row are the first one plus those after it |
| Dataset.HeaderDroppedAnywhere | framework/io/src/Dataset.cpp:49-52 | a "sample_name" row is dropped wherever it stands |
| Dataset.AcceptedPathsAppend | framework/io/src/Dataset.cpp:27-55 | the accepted paths of consecutive blocks concatenate |
| Dataset.FirstFailure | framework/io/src/Dataset.cpp:54 | the first path whose read throws, with every earlier read succeeding |
| Dataset.FirstFailureAt | framework/io/src/Dataset.cpp:54 | the first failure is located exactly |
| Dataset.FirstFailureNone | framework/io/src/Dataset.cpp:54 | no failure when every read succeeds |
| Dataset.Dataset.constructor | framework/io/src/Dataset.cpp:59-62 | an empty dataset |
| Dataset.Dataset.Clear | framework/io/src/Dataset.cpp:59-62 | the samples are empty |
| Dataset.Dataset.LoadSamples | framework/io/src/Dataset.cpp:17-57 | the old samples are cleared; the open error; otherwise one sample per accepted line in order, up to the first read that throws |
| Dataset.LoadLines | framework/io/src/Dataset.cpp:27-55 | the loop loads the accepted paths in order up to the first failure |
| Dataset.AcceptedStep | framework/io/src/Dataset.cpp:27-55 | the loop invariant step over one line |
| Dataset.AcceptedAt | framework/io/src/Dataset.cpp:27-55 | the path of an accepted line is the next one among all accepted paths |
| AnalysisProcessor.ChannelOfCode | ana/include/AnalysisProcessor.hh:40-54 | the channel with that code, exactly when one exists |
| AnalysisProcessor.ChannelLabel | ana/include/AnalysisProcessor.hh:56-86 | the label of the declared channel, and "Other" for the unknown channel and undeclared values |
| AnalysisProcessor.LabelsDistinct | ana/include/AnalysisProcessor.hh:56-86 | the labels are distinct, and only the unknown channel is "Other" |
| AnalysisProcessor.OriginFrom | ana/include/AnalysisProcessor.hh:100-115 | each origin name and alias, given as an if-and-only-if |
| AnalysisProcessor.FromSourceSlice | ana/include/AnalysisProcessor.hh:143-159 | the origin built has the requested source |
| AnalysisProcessor.SliceIgnoredOutsideMC | ana/include/AnalysisProcessor.hh:143-159 | the slice matters only for MC |
| AnalysisProcessor.ToSourceMapping | ana/include/AnalysisProcessor.hh:117-141 | beam, strangeness and dirt are MC; the other kinds keep their source; the slices of beam and strangeness |
| AnalysisProcessor.SourceSliceRoundTrip | ana/include/AnalysisProcessor.hh:117-159 | splitting into source and slice and joining back is the identity, except that dirt comes back as beam |
| AnalysisProcessor.RNode | ana/include/AnalysisProcessor.hh:182-187 | the node, or the "not initialised" error exactly when it is unset |
| AnalysisProcessor.Report | ana/include/AnalysisProcessor.hh:175-180 | the node's report, or the "not initialised" error exactly when it is unset |
| AnalysisProcessor.DefaultEntry | ana/include/AnalysisProcessor.hh:190-206 | the default member values of Entry |
| AnalysisProcessor.Detvar | ana/include/AnalysisProcessor.hh:209-213 | null exactly for a tag with no variation, otherwise that variation |
| AnalysisProcessor.VariationTags | ana/include/AnalysisProcessor.hh:214-221 | every variation key exactly once |
| AnalysisChannels.Classify | ana/include/AnalysisChannels.hh:35-82 | each channel characterised by the inputs that produce it, as if-and-only-ifs; the muon channels split by the pion and proton counts |
| AnalysisChannels.OutsideVolumeIgnoresRest | ana/include/AnalysisChannels.hh:48-53 | outside the fiducial volume only nu_pdg decides |
| AnalysisChannels.ToInt | ana/include/AnalysisChannels.hh:18-33 | the enumerator values, with unknown 0, external 1, out-of-volume 2 and data-inclusive 99 |
| AnalysisChannels.ToIntInjective | ana/include/AnalysisChannels.hh:18-33 | distinct channels have distinct codes |
| AnalysisChannels.IsSignal | ana/include/AnalysisChannels.hh:89-115 | the signal conditions in full, with non-finite momenta rejected |
| AnalysisChannels.IsSignalMonotone | ana/include/AnalysisChannels.hh:89-115 | raising momenta or the separation never turns signal into background |
| Floats.Mul | ana/src/AnalysisRdfDefinitions.cc:96-97 | a product is finite exactly when both factors are, and it is then their product |
| AnalysisConfigService.MakeProcessor | framework/ana/include/AnalysisConfigService.hh:25-52 | the source of each kind, and the trigger or POT fields it fills |
| AnalysisConfigService.SourceOfKind | framework/ana/include/AnalysisConfigService.hh:29-49 | only MC kinds set POT fields, and only EXT sets trigger fields |
| AnalysisConfigService.WBaseIsSampleNormalization | framework/ana/include/AnalysisConfigService.hh:39-45 | for an MC sample normalised from its sums, w_base equals that normalisation |
| AnalysisRdfDefinitions.RecoVolumeIsTruthMinusGap | ana/src/AnalysisRdfDefinitions.cc:20-54 | the reco volume is the truth box minus the z gap; the truth box bounds |
| AnalysisRdfDefinitions.WBase | ana/src/AnalysisRdfDefinitions.cc:81-89 | always positive; it scales equivalent exposure onto nominal for MC and EXT when both are positive, and is 1 otherwise |
| AnalysisRdfDefinitions.WNominal | ana/src/AnalysisRdfDefinitions.cc:91-108 | w_base for non-MC; for MC the weight product clamped to be non-negative and finite |
| AnalysisRdfDefinitions.WNominalOfGoodWeights | ana/src/AnalysisRdfDefinitions.cc:93-103 | with good weights the product is kept |
| AnalysisRdfDefinitions.TrainingFlag | ana/src/AnalysisRdfDefinitions.cc:127-134 | a training row exactly when trainable, ml_u is present and u < 0.1 |
| AnalysisRdfDefinitions.TemplateWeight | ana/src/AnalysisRdfDefinitions.cc:147-159 | weight kept outside the split, 0 for training rows, scaled by 1/0.9 otherwise |
| AnalysisRdfDefinitions.Split | ana/src/AnalysisRdfDefinitions.cc:110-161 | each column is defined only when absent, with its value when defined |
| AnalysisRdfDefinitions.SplitOfFreshRow | ana/src/AnalysisRdfDefinitions.cc:110-161 | template exactly when not training; training rows weigh 0 |
| AnalysisRdfDefinitions.SplitOfUntrainable | ana/src/AnalysisRdfDefinitions.cc:110-161 | outside the split every row is a template with its nominal weight |
| AnalysisRdfDefinitions.ScatteringMode | ana/src/AnalysisRdfDefinitions.cc:184-203 | modes 0-3 and 10 are kept, all others -1 |
| AnalysisRdfDefinitions.ScatteringModeIdempotent | ana/src/AnalysisRdfDefinitions.cc:184-203 | mapping twice is mapping once |
| AnalysisRdfDefinitions.InteractionFlagsPartition | ana/src/AnalysisRdfDefinitions.cc:205-231 | NC is the complement of CC, which splits into neutrino and antineutrino |
| AnalysisRdfDefinitions.RdfChannel | ana/src/AnalysisRdfDefinitions.cc:233-344 | DataInclusive outside MC; NC and OutFV; the purity gate; an electron channel needs an electron and no muon; the muon channels need a muon |
| AnalysisRdfDefinitions.MuonChannelsOfCounts | ana/src/AnalysisRdfDefinitions.cc:274-294 | with a muon and non-negative counts only the 0-pion, 1-pion and N-pion muon channels occur |
| SelectionService.FindMuonCandidate | ana/src/SelectionService.cc:89-106 | the loop finds a track exactly when some track passes the muon cuts |
| SelectionService.PassThroughPresets | ana/src/SelectionService.cc:57-71 | the empty and unlisted presets keep all rows; the trigger gates only MC |
| SelectionService.PresetsNest | ana/src/SelectionService.cc:72-111 | muon within topology, which equals fiducial, which lies within slice |
| SelectionService.Accepts | ana/src/SelectionService.cc:55-117 | the row filter of each preset; PassThroughPresets and PresetsNest state how the presets relate |
| SelectionService.Select | ana/src/SelectionService.cc:55-117 | exactly the accepted rows, none more often than in the input |
| SelectionService.SelectAppend | ana/src/SelectionService.cc:55-117 | filtering keeps the order: the selection of consecutive blocks concatenates |
| SelectionService.SelectNests | ana/src/SelectionService.cc:78-111 | the row counts nest, and topology keeps the same rows as fiducial |
| SelectionService.VolumesAgree | ana/src/SelectionService.cc:119-127 | the selection's volumes equal the column definitions' volumes, and reco lies within truth |
| EventSampleFilterService.FilterStage | framework/ana/include/EventSampleFilterService.hh:21-30 | the filter step name of overlay and strangeness, and null exactly for the others |
| EventSampleFilterService.Apply | framework/ana/include/EventSampleFilterService.hh:32-41 | exactly the kept rows; unfiltered origins keep all |
| EventSampleFilterService.UnfilteredOriginsKeepAll | framework/ana/include/EventSampleFilterService.hh:21-41 | no filter stage means no row is dropped |
| EventSampleFilterService.OverlayAndStrangenessPartition | framework/ana/include/EventSampleFilterService.hh:36-39 | each event is kept by exactly one of the overlay and strangeness filters |
| EventCLI.ParseEventArgs | framework/core/src/EventCLI.cc:53-86 | the usage and empty-path errors; the trimmed fields; a bare output name is placed under the event directory |
| EventCLI.ParsedFieldsAreTrimmed | framework/core/src/EventCLI.cc:53-86 | the parsed paths carry no surrounding white space |
| Nuxsec.Escape | apps/src/nuxsec.cc:90-100 | a value without single quotes is unchanged; EscapeLength and ReadEscape state the rest |
| Nuxsec.Quoted | apps/src/nuxsec.cc:81-103 | the quoted form starts and ends with a single quote; ReadQuoted states that the shell reads it back |
| Nuxsec.ReadWords | apps/src/nuxsec.cc:81-103 | how a POSIX shell splits words with single quotes, the reading against which ReadQuoted is stated |
| Nuxsec.DriverCommand | apps/src/nuxsec.cc:171-176 | the command line of a driver; DriverCommandWords states how the shell splits it |
| Nuxsec.ShellQuote | apps/src/nuxsec.cc:81-103 | the loop computes the quoted form |
| Nuxsec.EscapeLength | apps/src/nuxsec.cc:90-100 | three extra characters per single quote |
| Nuxsec.QuotedLength | apps/src/nuxsec.cc:81-103 | the quoted length is the input length, plus 2, plus 3 per single quote |
| Nuxsec.ReadEscape | apps/src/nuxsec.cc:90-101 | read by a POSIX shell, the escaped body denotes the value |
| Nuxsec.ReadQuoted | apps/src/nuxsec.cc:81-103 | read by a POSIX shell, the quoted form denotes exactly the value |
| Nuxsec.QuotedArgsAppend | apps/src/nuxsec.cc:173-176 | each argument adds a space and its quoted form |
| Nuxsec.ReadQuotedArgs | apps/src/nuxsec.cc:173-176 | the quoted arguments read back as the arguments |
| Nuxsec.DriverCommandWords | apps/src/nuxsec.cc:171-178 | the shell splits the command into the driver path and the arguments, in order |
| Nuxsec.BuildCommand | apps/src/nuxsec.cc:171-176 | the stream builds the driver command |
| Nuxsec.CommandStep | apps/src/nuxsec.cc:171-176 | streaming one more quoted argument extends the command by a space and that argument |
| Nuxsec.ExitCode | apps/src/nuxsec.cc:178-193 | the launch error exactly for -1; the exit status, 128 plus the signal, or the raw status |
| Nuxsec.ExitedReturnsStatus | apps/src/nuxsec.cc:184-187 | a normal exit returns its status |
| Nuxsec.SignaledReturns128PlusSignal | apps/src/nuxsec.cc:188-191 | death by a signal returns 128 plus the signal |
| Nuxsec.DispatchDriver | apps/src/nuxsec.cc:163-194 | the not-executable error; otherwise the exit code of running the command |
| Nuxsec.LookupDriver | apps/src/nuxsec.cc:364-375 | none exactly when no entry has the command; otherwise a matching entry's driver |
| Nuxsec.Dispatch | apps/src/nuxsec.cc:344-385 | each command's action: help, the three drivers, macro, or exit 1 |
| Nuxsec.MacroPlan | apps/src/nuxsec.cc:280-340 | usage and list; the list and run verbs with their argument counts; a bare macro with at most one call; every error is the macro usage |
| Plotter.Options.constructor | framework/modules/plot/src/Plotter.cc:89-100 | the options as given |
| Plotter.Options.ApplyEnvDefaults | framework/modules/plot/src/Plotter.cc:89-100 | empty fields take the environment defaults, and set fields are kept |
| Plotter.ApplyEnvDefaultsTwice | framework/modules/plot/src/Plotter.cc:89-100 | applying the defaults twice is applying them once |
| Plotter.SanitiseChar | framework/modules/plot/src/Plotter.cc:188-195 | the result is a name character, and name characters are kept |
| Plotter.Sanitised | framework/modules/plot/src/Plotter.cc:182-202 | "plot" for an empty name; otherwise each character kept or replaced by '_' |
| Plotter.Sanitise | framework/modules/plot/src/Plotter.cc:182-202 | the loop computes the sanitised name |
| Plotter.SanitisedIsClean | framework/modules/plot/src/Plotter.cc:182-202 | only letters, digits, '_' and '-', and sanitising again changes nothing |
| Plotter.RemoveCommasAppend | framework/modules/plot/src/Plotter.cc:222-230 | removing commas distributes over concatenation |
| Plotter.GroupedPrefixDigits | framework/modules/plot/src/Plotter.cc:222-230 | removing the commas from the grouped prefix gives the digits back |
| Plotter.GroupedPrefixCommas | framework/modules/plot/src/Plotter.cc:222-230 | the number of commas emitted so far |
| Plotter.GroupedCommaCount | framework/modules/plot/src/Plotter.cc:222-230 | n digits get (n-1)/3 commas, and removing them gives the digits back |
| Plotter.GroupDigits | framework/modules/plot/src/Plotter.cc:222-230 | the loop computes the grouping |
| Plotter.FmtCommasOfText | framework/modules/plot/src/Plotter.cc:212-235 | the grouped form of the formatted text |
| Plotter.CommasRoundTrip | framework/modules/plot/src/Plotter.cc:212-235 | deleting the commas gives the text back; the fraction and the sign are kept |
| Plotter.NegativeRoundTrip | framework/modules/plot/src/Plotter.cc:216-235 | the same round trip for a negative number |
| Plotter.FractionKept | framework/modules/plot/src/Plotter.cc:215 | the fraction holds no commas |
| Plotter.GroupedPrefixFirst | framework/modules/plot/src/Plotter.cc:223-229 | the grouped digits start with the first digit |
| MakeEventList.CsvItems | io/macro/make_event_list.C:61-73 | only non-empty, trimmed items |
| MakeEventList.CsvItemsAppend | io/macro/make_event_list.C:61-73 | the items of consecutive fields concatenate |
| MakeEventList.CsvItemsStep | io/macro/make_event_list.C:61-73 | one more field adds its trim when that is non-empty, and nothing otherwise |
| MakeEventList.SplitCsv | io/macro/make_event_list.C:61-73 | the loop yields the items of the comma-separated fields |
| MakeEventList.CsvItemsOfFields | io/macro/make_event_list.C:61-73 | every item is the trim of some field |
| MakeEventList.SplitCsvItems | io/macro/make_event_list.C:61-73 | every item is non-empty, trimmed and free of commas |
| MakeEventList.TrimmedKeepsOut | io/macro/make_event_list.C:61-73 | trimming never introduces a character absent from the field |
| MakeEventList.Unique | io/macro/make_event_list.C:112 | std::unique keeps the same elements and the first one |
| MakeEventList.UniqueOfSorted | io/macro/make_event_list.C:111-112 | unique over a sorted list gives a strictly ascending list |
| MakeEventList.MergeUnique | io/macro/make_event_list.C:108-114 | the definition of the merge; MergeUniqueSpec states its properties |
| MakeEventList.MergeUniqueSpec | io/macro/make_event_list.C:108-114 | the merge is strictly ascending and holds exactly the names of either input |
| MakeEventList.EventColumns | io/macro/make_event_list.C:166-172 | the snapshot columns; EventColumnsContainDefaults states what they hold |
| MakeEventList.EventColumnsContainDefaults | io/macro/make_event_list.C:166-172 | the default columns are always kept, and so is every extra column |
| MakeEventList.Missing | io/macro/make_event_list.C:123-131 | exactly the requested columns the sample lacks, except sample_id |
| MakeEventList.MissingAppend | io/macro/make_event_list.C:123-131 | the missing columns of consecutive requests concatenate |
| MakeEventList.MissingLinesAppend | io/macro/make_event_list.C:137-138 | each missing column adds one list line |
| MakeEventList.CollectMissing | io/macro/make_event_list.C:123-131 | the loop collects the missing columns |
| MakeEventList.FormatMissing | io/macro/make_event_list.C:135-140 | the stream builds the message |
| MakeEventList.RequireColumns | io/macro/make_event_list.C:116-142 | passes exactly when every requested column but sample_id exists; otherwise the message lists the missing columns |
| MacroColumns.HasColumn | macros/macro/include/MacroColumns.hh:17-20 | true exactly when the column is present |
| MacroColumns.Absent | macros/macro/include/MacroColumns.hh:22-34 | never more absent names than required ones; AbsentSpec states which |
| MacroColumns.AbsentAppend | macros/macro/include/MacroColumns.hh:22-34 | the absent names of consecutive requests concatenate |
| MacroColumns.AbsentSpec | macros/macro/include/MacroColumns.hh:22-34 | exactly the required names that are absent; empty exactly when all are present |
| MacroColumns.MissingRequiredColumns | macros/macro/include/MacroColumns.hh:22-34 | the loop collects the absent names in order |
| MacroIO.LooksLikeRootFile | macros/macro/include/MacroIO.hh:19-28 | false below five characters; otherwise true exactly when the suffix is ".root" in any case |
| MacroIO.RootSuffixAnyCase | macros/macro/include/MacroIO.hh:19-28 | any capitalisation of ".root" passes |
| MacroIO.ValidateRootInputPath | macros/macro/include/MacroIO.hh:44-57 | the empty-path and not-ROOT diagnostics; no diagnostic on success |
| MacroIO.ValidateMatchesSuffix | macros/macro/include/MacroIO.hh:44-57 | validation accepts exactly the paths that look like ROOT files |

## Left out

- Error messages that end in an "(errno=N text)" suffix are modelled without the suffix, because errno and strerror are outside the model.
- The ROOT, std::ifstream and std::ofstream mechanics are abstracted. A file is modelled as its lines, or as not found, or as failing to open. A ROOT directory is a map from keys to typed objects. A tree is the sequence of its rows.
- A file read as lines does not model whether its last line ends in a newline.
- The SubRun scanner, the beam database query, `SampleIO::aggregate`, `SampleIO::read` and `SampleIO::write` are given as parameters. They are not part of this model.
- The sample kind and beam names live in SampleTypes.hh, which is not part of this model. The name and parse functions are parameters. The round-trip lemmas assume the parse function inverts the name function.
- PeekEventFlags only opens the file and reads the first entry, so it is a parameter that yields the two optional flags.
- The ArtIO "exists" log line and the other std::cerr/std::cout output are left out, because they are output only.
- Sorting.Sort: std::sort leaves the order of equal keys open. The model fixes one order, so only sortedness and permutation are promised.
- Doubles and floats are exact reals. Rounding, overflow, float-to-double conversion and the `keep <= 0` guard of w_template are left out. That guard is dead, because 1 - 0.1 > 0.
- AnalysisRdfDefinitions.RdfChannel: the unused lambda inputs (mode, parent, proton, neutron, kaon, other counts, reco vertex, slice score, cluster fraction) are not parameters.
- SelectionService.Accepts: the four per-track columns are zipped into one sequence, so columns of unequal length are not modelled.
- SelectionService.Accepts: the in_reco_fiducial column is an input, because its definition is not part of this model.
- Strings are sequences of characters, not of the bytes of std::string. A non-ASCII character that takes several bytes counts as one here. This affects every string model: the std::string order (Strings.Lt), white space (AppUtils.IsSpace), lower-casing (Strings.ToLower) and the name sanitiser (Plotter.Sanitised).
- Plotter.FmtCommasOfText: the stream formatting of the double (std::fixed and setprecision) is left out. The operation starts from the formatted text.
- Plotter.Options: only the two fields that apply_env_defaults touches are modelled. The environment lookups plot_output_dir and plot_image_format are parameters.
- MakeEventList.MergeUnique is modelled on values. The in-place sort and erase are not.
- The main flow of make_event_list.C, which reads the sample list, builds the data frames and writes snapshots, is left out. It consists of ROOT and file I/O around the modelled column choice.
- MacroColumns' print_missing_columns and MacroIO's open_root_file_read are left out, because they perform only output and file opening.
- From nuxsec.cc, resolve_driver_path, is_executable, find_repo_root, ensure_plot_env, resolve_macro_path, print_macro_list, exec_root_macro and the help text are left out or given as inputs. They are filesystem, environment and process plumbing.
- Nuxsec.ReadWords covers only the subset of the POSIX quoting rules that shell_quote produces.
- stage_output_dir is given as a parameter (`sampleDir`, `eventDir`), because it reads the environment.
- AnalysisConfigService.MakeProcessor reads the origin of a SampleIO::Sample. That origin is modelled as the kind of a Sample.
- ROOT::EnableImplicitMT and other concurrency are left out.
- The failure of GetOrMakeDir to create the "ArtIO" directory is left out: a file opened for update is taken to accept the new directory.
- BuildCommand, ShellQuote and the other string loops model std::string contents, not capacity or reserve.

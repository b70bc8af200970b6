# icelake, verified

icelake accepts records into a local SQLite staging database, seals them into
batches under a content hash, writes each batch as one Parquet file to a bucket
(or, in local-only mode, to a cache directory), and commits that file to an
Iceberg table. This project models the four parts of it that carry its promises
and proves those promises of the model.

- **The canonical encoding** (`Bytes`, `Record`, `Descriptor`, `Columns`, `BatchKey`,
  `Golden`, `Remap`, `Decimal`): the strict record codec, the self-describing schema
  descriptor and the columns it is built from and read back as, the batch hash's
  input, the repository's own byte fixtures, remapping by permanent field id, and the
  exact-decimal path. SHA-256 is a wrapper around its input, so every statement
  about a key is a statement about what was hashed. Floats are bit patterns.
- **The flush protocol** (`Protocol`, `Structure`, `Safety`, `Contents`,
  `ExactlyOnce`, `Repeats`, `Loss`, `Restart`, `Lockout`, `Order`, `Fate`,
  `Scenarios`, `Flush`, `Drain`): stage, seal, spool, upload, commit, mark and prune
  as a system of atomic steps with a crash between any two, together with replay,
  the spool drain, retention and changes of mode. `Protocol` is the state machine;
  `Structure`, `Safety` and `Contents` are its invariant in three parts;
  `ExactlyOnce`, `Repeats`, `Loss`, `Lockout`, `Order` and `Fate` are the theorems,
  all but the first exact; `Restart` is the drain of a whole backlog they argue
  with; `Scenarios` holds runs on the far side of each. `Flush` and `Drain` are the
  program's own methods, over the fields they change; every one of their executions
  is proved to be a run of the machine, and how each must end is stated by how the
  calls it makes on the world outside go.
- **The worker's bookkeeping** (`Worker`): one goroutine, any number of
  waiters, the one-token wake channel, the close-and-replace broadcast channel,
  generational failures and the one-shot quarantine notice. `Ceiling` has the
  staging counters and a writer's own books, `Claims` the single-owner rule.
- **The ingest stream** (`Cbor`, `Framing`, `Scanner`, `Ingest`): the input
  grammar as a function of the whole input, the buffered scanner that computes
  it for every way the input can arrive, and the chunk and group writer.

`dafny verify dfyconfig.toml` checks everything.

## Where the code and its documentation differ

The model follows the code.

- `internal/flush/flush.go:533` says a failure to stage the file into the
  transaction is deliberately not refreshed. `AddFile` is one call and
  `commit` (537-543) refreshes after any failure of it, so the model does too.
- `internal/flush/flush.go:589-592` says a batch sealed and committed once in this
  process cannot collide with anything. A commit adds a file the table already has
  exactly when the batch was sealed in this process, is on its first attempt, and
  had its file in the table when it was sealed: `Repeats.CommitRepeatsIff`, and
  before the seal `Repeats.AttemptRepeatsIff`. Two batches with equal payloads do
  it: `Scenarios.EqualBatchesCommitTwice`. Such a batch can also leave staging with
  no copy added for it. A seal can come to that, with no equal batch sealed after
  it, if and only if its file is in the table or listed in the backlog at the seal
  (`Loss.SealCanLoseIff`); for every key, the batches out of staging are at most the
  copies in the table, the one a drain would add, and the batches sealed so
  (`Loss.CopiesCover`). It happens to a batch recovered after a crash
  (`Scenarios.EqualBatchReplayedIsDropped`) and to one kept locally before its equal
  is drained (`Scenarios.EqualBatchesKeptOnce`).
- `internal/flush/worker.go:196-205` says a quarantined batch will never commit. A
  drain leaves out only what live staged rows carry, so a sealed batch quarantined
  is committed later, by some continuation, if and only if its file is in the table
  or in the backlog (`Fate.QuarantinedCommitsIff`); a batch not yet sealed never is
  (`Fate.QuarantineIsForGood`). `Scenarios.QuarantinedBatchIsDrained` is a run with
  its cause: a column made required, over a row with a null there. Opening checks
  shapes and not values (`internal/canon/remap.go:72-77`), and reconciling the table
  compares names and types only (`catalog.go:136-163`).
- `internal/staging/index.go:204-210` says that a key on live rows and on quarantined
  ones cannot arise from this build. Quarantine a sealed batch and seal an equal one:
  staging is split by that and by nothing else (`Lockout.SplitsIff`), the second batch
  can no longer be quarantined (`Flush.FlushWorker.Quarantine`), and a process that
  dies before its rows have left finds staging no restart can read (`Lockout.ScanIff`,
  `Lockout.LockedOut`). `Scenarios.LockoutHappens` is a run.
- `writer.go:439-443` promises that a table's snapshots stay in the order its records
  were written. `Order` says exactly when: `Order.OrderKeptIff` and
  `Order.DisorderlyLosesOrder` give the guard each event must meet,
  `Order.OrderlyIffInOrder` the same for whole runs. With no two
  batches equal there are two ways to lose the order (`Order.DistinctOrderly`): to
  commit while an earlier batch's file is in the backlog and its rows are gone
  (`Scenarios.QuarantinedBatchIsDrained`, `Scenarios.BacklogLeftBehindCommitsLate`),
  and to let a batch's rows go when a drain would take its file before one already
  there, as an earlier clock reading, or the same one and a smaller key, has it do
  (`Scenarios.TiedStampsLoseOrder`). How keys compare is a parameter, a rank for each.
- `internal/flush/worker.go:120-125` admits that a second quarantine overwrites
  an unread notice. `Worker.LosesIffOverwrites` says that this is the only step
  that loses one, and `Worker.OverwrittenNoticeReadsAsFlushed` that a wait is
  then answered nil for a batch that never committed.
- `store.go:704-716` has the counters bound what staging holds. A seal that
  re-encodes a row under another shape changes its length in the database and not
  in the counter: `Ceiling.BytesConservedIffLengthsKept` is the exact condition,
  `Ceiling.ExactIffSteady` the same for whole runs, and
  `Ceiling.RecodedSealLetsStagingOverflow` a run over two tables, with a column added
  to the declaration of one, which lengthens every payload by a byte
  (`Remap.AddedColumnLengthens`). The record counter is exact in every run, and for
  it the clamp at zero is dead; a store whose writers never change their shape keeps
  both exact (`Ceiling.OneShapeIsExact`).
- `ingest.go:1041` and `ingest.go:1080-1081` disagree about one CBOR record: one
  that is unfinished when the full-grown buffer ends with the very last byte of
  the input. It is refused as too large for a reader that announces the end on its
  own, and as malformed for one that announces it together with the data
  (`Scanner.ReadRecords`; `Framing.TieIsTooLarge` and `Framing.TiesHappen`).
- `dynamic.go:686-692` says exactly one spelling of a decimal is accepted. No
  accepted text is the only one for its value (`Decimal.NoTextIsAlone`): two give one
  integer if and only if they spell the same decimal, leading zeros, trailing
  fraction zeros and the sign of zero aside (`Decimal.SameIntegerIff`). And -2^63 is
  the one integer that no text gives, at any scale (`Decimal.ReachableIffNotLeast`).

## Model

| member | source | states |
|---|---|---|
| `Record.Encode` | internal/canon/record.go:59-88 | encoding a row is the column-by-column encoding, or the refusal of the first column that has none |
| `Record.Decode` | internal/canon/record.go:213-252 | decoding consumes the whole payload or refuses it, for every byte string |
| `Record.ReadValueAt` | internal/canon/record.go:259-308 | one column's value is read at the cursor, which moves past it or reports where it broke |
| `Record.DecodeUndoesEncode` | internal/canon/record.go:59-308 | decoding an encoded row returns the row |
| `Record.EncodeUndoesDecode` | internal/canon/record.go:213-308 | re-encoding any payload that decodes returns the same bytes |
| `Record.PayloadDeterminedByRow` | internal/canon/record.go:213-308 | two payloads that decode to one row are one payload: there is exactly one spelling |
| `Record.PrefixFree` | internal/canon/record.go:213-252 | under one shape no valid payload is a proper prefix of another |
| `Record.RowsEncodeIff` | internal/canon/record.go:59-88 | a row encodes if and only if it has a value its column can hold for each column, and is refused for the first that has not |
| `Record.PayloadsAreMalformed` | internal/canon/record.go:213-308 | a payload that does not decode is refused as malformed, as a whole or at one of its columns |
| `Golden.RecordBytes` | internal/canon/record_test.go:47-123 | the two golden records encode to the golden bytes, a value of every type among them, and read back |
| `Descriptor.FromFields` | internal/canon/descriptor.go:216-249 | a declaration becomes a shape sorted by permanent id, or the refusal the code reports first |
| `Descriptor.EncodeDescriptor` | internal/canon/descriptor.go:442-466 | the serialised form, field by field |
| `Descriptor.DecodeDescriptor` | internal/canon/descriptor.go:470-577 | reading a descriptor accepts exactly the canonical form and refuses the rest |
| `Descriptor.ParseDescriptor` | internal/canon/descriptor.go:350-368 | parsing is reading, checking and re-serialising |
| `Descriptor.SortSorts` | internal/canon/descriptor.go:216-249 | sorting by id orders the columns and keeps each of them |
| `Descriptor.ParseUndoesSerialize` | internal/canon/descriptor.go:350-577 | every valid shape parses back to itself |
| `Descriptor.CanonicalGuardNeverFires` | internal/canon/descriptor.go:350-368 | every accepted byte string re-serialises to itself, so the guard in parsing is dead |
| `Descriptor.SerializedDeterminesShape` | internal/canon/descriptor.go:442-466 | shapes with equal serialisations are equal |
| `Descriptor.FromFieldsIsValid` | internal/canon/descriptor.go:216-249 | every built shape is valid |
| `Descriptor.BuiltShapeParsesBack` | internal/canon/descriptor.go:216-368 | every built shape survives being stored and read back |
| `Descriptor.ColumnOrderIsIrrelevant` | internal/canon/descriptor.go:216-249 | permuting the declared columns changes neither the shape nor its bytes |
| `Columns.IcebergFields` | internal/canon/descriptor.go:303-334 | a shape's columns, in its order, with the declared type of each kind |
| `Columns.ColumnsReadBack` | internal/canon/descriptor.go:216-334 | the columns read back from a built shape are those declared, id, name, type and required flag |
| `Columns.ShapeRedeclared` | internal/canon/descriptor.go:216-334 | a shape declared again from what it reads back as is that shape |
| `Columns.DescribedHolds` | internal/canon/descriptor.go:255-287 | a declared column holds values of its own type and no other, in its own number of bytes |
| `Columns.DeclarationAccepted` | internal/canon/descriptor.go:216-249 | a declaration has a shape if and only if it has a column, each of them is one a shape can hold, and no two share an id |
| `Columns.RefusalsInOrder` | internal/canon/descriptor.go:216-249 | a declaration is refused for its first column with no kind, else for the least id shared, else for the least id of a column no shape can hold |
| `Golden.DescriptorBytes` | internal/canon/descriptor_test.go:105-131 | the golden shape is serialised as the golden bytes, a column of every type among them |
| `BatchKey.BatchHash` | internal/canon/batch.go:41-86 | feeding the hash chunk by chunk gives the hash of the whole preimage, or the refusal of an empty batch or an over-long part |
| `BatchKey.KeyDeterminesBatch` | internal/canon/batch.go:41-86 | equal keys mean the same namespace, table, shape and payloads in the same order |
| `BatchKey.DomainsAreSeparate` | internal/canon/batch.go:14-86 | a batch key is never a schema fingerprint |
| `BatchKey.FingerprintDeterminesShape` | internal/canon/descriptor.go:414-424 | equal fingerprints mean equal shapes |
| `Golden.KeyOfTwo` | internal/canon/batch.go:41-86 | the bytes hashed for any two records, one after the other |
| `Remap.CompatibleShapes` | internal/canon/remap.go:78-120 | a dropped column is reported before a retyped or newly required one, and the first of its kind |
| `Remap.ShapesAreRefusedFor` | internal/canon/remap.go:78-120 | the refusal is the first column dropped, else the first target column new and required or of another type, else there is none |
| `Remap.RowsAreRefusedFor` | internal/canon/remap.go:33-70 | a row is refused for its length, else for its shapes, else for the first required target column that would hold a null |
| `Remap.Remap` | internal/canon/remap.go:33-70 | each target column receives what the source column of its id held |
| `Remap.Transcode` | internal/canon/remap.go:129-139 | transcoding is decoding, remapping and encoding |
| `Remap.RemapIsRemapping` | internal/canon/remap.go:33-120 | a remapping succeeds with a row if and only if every source column survives and every target column is served, said without its loops |
| `Remap.RemappedTwice` | internal/canon/remap.go:33-70 | serving columns composes |
| `Remap.PathIndependence` | internal/canon/remap.go:129-139 | transcoding through an intermediate shape gives the bytes of the direct one |
| `Remap.RemappedRowsEncode` | internal/canon/remap.go:129-139 | a decoded row that remaps always encodes |
| `Remap.ArmsAgree` | internal/flush/flush.go:424-486 | decoding then remapping, and transcoding then decoding, give the same row or the same refusal |
| `Remap.AddedColumnLengthens` | internal/canon/remap.go:129-139 | under a shape with an optional column added every payload is one byte longer, a null |
| `Remap.ReplayAgreesWithFreshSeal` | internal/flush/flush.go:424-486 | a batch replayed under a later shape carries the rows it would have had if sealed under it |
| `Decimal.SpellUndoesText` | dynamic.go:693-747 | the digits accepted are exactly those of the grammar, and printing them back gives the text |
| `Decimal.ScalingIsExact` | dynamic.go:693-734 | accepted text yields the integer equal to its value times ten to the scale, within 64 bits |
| `Decimal.OnlyDecimalsScale` | dynamic.go:693-747 | text is scaled only if it is a plain decimal of no more fraction digits than the scale |
| `Decimal.ReachableIffNotLeast` | dynamic.go:693-734 | at every scale the integers some text yields are exactly the 64-bit ones but the least |
| `Decimal.SameIntegerIff` | dynamic.go:686-734 | two accepted texts give one integer if and only if they spell the same decimal, idle zeros and the sign of zero aside |
| `Decimal.NoTextIsAlone` | dynamic.go:686-734 | every decimal text has another with the same result: a zero in front |
| `Decimal.WhyNotScaled` | dynamic.go:693-747 | an exponent is inexact before anything else; without one a text is malformed exactly when no decimal is spelled so |
| `Decimal.FitsIffShortEnough` | poison.go:161-168 | the precision check holds exactly when the magnitude is below ten to the precision |
| `Decimal.SignExtendToDecimal128` | internal/schemamap/adapt.go:135-154 | the column built holds each value's 128-bit sign extension, nulls kept |
| `Decimal.ExtensionKeepsValues` | internal/schemamap/adapt.go:135-154 | the extended column has the same values and nulls |
| `Decimal.DecimalsAreExactEndToEnd` | internal/chmirror/decimal.go:29-32 | text, scaling, encoding, decoding, sign extension and the low-word read carry one integer |
| `Cbor.ItemStable` | ingest.go:1023-1049 | reading more input never moves where an item ends nor rescues an ill-formed one |
| `Cbor.ItemNeedsNoMore` | ingest.go:1023-1049 | an item is seen to end as soon as its last byte is there |
| `Cbor.SpelledItemEnds` | ingest.go:1023-1049 | any definite-length item, its heads of any width, is seen to end at its last byte |
| `Cbor.TakenIsSpelled` | ingest.go:1023-1049 | and whatever is seen to end is the spelling of a definite-length item |
| `Cbor.HeadsInBytes` | ingest.go:1023-1049 | the five widths of a head, byte by byte |
| `Framing.FramesAreNumbered` | ingest.go:900-929 | records are numbered from one, none is over the limit, and a refusal names the next |
| `Framing.CborTakenIffWithinLimit` | ingest.go:1023-1049 | a CBOR record is taken exactly when it is whole and within the limit; the buffer's ceiling never decides |
| `Framing.CborRefusals` | ingest.go:1023-1102 | which refusal a CBOR record earns: too large when whole and over the limit or unfinished 65536 bytes past it, malformed otherwise |
| `Framing.BraceStartsALine` | ingest.go:900-1013 | after blanks a text that begins with the byte 0x7b is one JSON record up to its newline, on the line the newlines before it give, or too large |
| `Framing.LastLineNeedsNoEnd` | ingest.go:984-1013 | the last line is everything to the end of the input |
| `Framing.FirstByteDecides` | ingest.go:890-929 | after blanks any other byte is refused unless it is 0xa0 to 0xbb, and those are taken as CBOR exactly when an item within the limit is there |
| `Framing.TerminatorIsFree` | ingest.go:984-1013 | a line ended by a newline, by a return and a newline, or by the end of the input is one record, taken exactly when its text is within the limit |
| `Framing.TieIsTooLarge` | ingest.go:1080-1081 | what the grammar says of the one input whose fault depends on the reader |
| `Framing.TiesHappen` | ingest.go:1066-1102 | under every limit some input is such a one |
| `Framing.FramingUndoesPrinting` | ingest.go:900-1049 | any interleaving of JSON lines and CBOR maps, with whitespace between, frames back to those records in order |
| `Framing.PrintedStreamFrames` | ingest.go:900-1049 | the same for a whole stream |
| `Scanner.RecordScanner.Compact` | ingest.go:1075-1078 | moving what is left to the front changes no unconsumed byte |
| `Scanner.RecordScanner.Grow` | ingest.go:1083-1087 | growing changes no unconsumed byte and stops at the ceiling |
| `Scanner.RecordScanner.Fill` | ingest.go:1066-1102 | reading more gets closer to the end, or reports that a full-grown buffer holds nothing but this record |
| `Scanner.RecordScanner.SkipBlank` | ingest.go:954-975 | whitespace is skipped and its newlines counted, whatever reads it takes |
| `Scanner.RecordScanner.TakeLine` | ingest.go:984-1013 | a line is taken or refused as the grammar says |
| `Scanner.RecordScanner.TakeItem` | ingest.go:1023-1049 | a CBOR item is taken or refused as the grammar says |
| `Scanner.RecordScanner.NextOne` | ingest.go:900-929 | the next record, number and line are the grammar's |
| `Scanner.ReadRecords` | ingest.go:812-838 | for every split of the input into reads the records, numbers, lines and ending are those of the pure framing, but for the fault named at a tie, which how the reader ends decides |
| `Structure.StructureKept` | internal/flush/worker.go:287-329 | every step keeps the queue in id order, at most one pending key, and batches sealed in id order |
| `Structure.AtMostOneSealed` | internal/staging/index.go:255-288 | a restart finds at most one sealed batch, and it is the last one sealed, whole and in order |
| `Safety.CountedKept` | internal/flush/flush.go:663-775 | every step keeps the count of a file in the table within the count of its seals |
| `Safety.HeldKept` | internal/flush/flush.go:643-655 | every step keeps each accepted record staged or its batch safe |
| `Contents.FaithfulKept` | internal/flush/flush.go:410-489 | every step keeps staged rows, sealed batches and files reading as what was accepted |
| `Contents.FileDelivers` | internal/flush/flush.go:410-489 | a file under a batch's key holds that batch's records in their order, whoever wrote it and under whatever shape |
| `ExactlyOnce.NoFileOutrunsItsSeals` | internal/flush/flush.go:663-775 | in every reachable state a file is in the table at most as often as its key was sealed |
| `ExactlyOnce.NoDuplicates` | internal/flush/flush.go:690-774 | no file is in the table twice, provided no two batches carry the same payloads |
| `ExactlyOnce.NothingLost` | drain.go:177-284 | an accepted record is staged, or its values are in an object the table references or in a spool file with no commit recorded |
| `ExactlyOnce.MarkedOnlyIfCommitted` | internal/spool/spool.go:181-198 | a spool file is marked committed only if the table references its object |
| `ExactlyOnce.ExactlyOnce` | writer.go:445-468 | a record out of staging is in one batch, at one place, and that batch's file is in the table at most once |
| `Repeats.CommitRepeatsIff` | internal/flush/flush.go:690-774 | a commit repeats a file if and only if the batch was sealed in this process, is on its first attempt, and had its file in the table when it was sealed |
| `Repeats.AttemptRepeatsIff` | internal/flush/flush.go:589-592 | the same seen before the seal: when the attempt that seals a batch whose file is there commits it again |
| `Repeats.NoDuplicatesUnlessSealedOver` | internal/flush/flush.go:690-774 | no file is in the table twice unless a batch was sealed while its file was there |
| `Loss.SealCanLoseIff` | internal/flush/flush.go:690-774 | a seal can lead to its batch out of staging with no copy added, by a continuation with no further equal seal, if and only if at the seal its file is in the table or in the backlog |
| `Loss.CopiesCover` | internal/flush/flush.go:643-655 | in every reachable state, for every key, the batches out of staging are at most the copies in the table, the one in the backlog, and the batches sealed upon a copy |
| `Loss.DistinctCover` | internal/flush/flush.go:643-655 | with no two batches equal every batch out of staging has a copy of its own, in the table or in the backlog |
| `Restart.ReachableSpooled` | internal/spool/spool.go:88-112 | every file the backlog lists exists |
| `Restart.Drains` | drain.go:177-284 | from any state whose staging is not split a restart can drain the whole backlog, oldest first, into the table |
| `Lockout.SplitsIff` | internal/staging/index.go:204-217 | staging is split by the seal of a batch under a key that quarantined rows carry, and by no other event; it is whole again when that batch's rows leave |
| `Lockout.ScanIff` | internal/staging/index.go:152-221 | staging can be scanned if and only if it is not split |
| `Lockout.LockedOut` | internal/staging/index.go:211-217 | where a restart finds staging split, nothing staged or committed ever changes again |
| `Lockout.DistinctNeverSplit` | internal/staging/index.go:204-210 | with no two batches equal staging is never split |
| `Order.OneBatchAtATime` | writer.go:813-825 | at most one key is pending, and its rows come before every unsealed row |
| `Order.NothingOvertakes` | internal/flush/worker.go:287-329 | every record still pending was accepted after all of what is about to be committed |
| `Order.OrderKeptIff` | drain.go:177-208 | a legal event keeps the table in order, with all a drain would still add, if and only if it meets its guard; four steps have one |
| `Order.DisorderlyLosesOrder` | drain.go:177-208 | after an event that misses its guard some restart and drain, themselves orderly, end out of order |
| `Order.OrderedIffSettles` | drain.go:177-284 | a reachable state is in order, with all that is stranded, if and only if every restart and drain from it ends in order |
| `Order.OrderlyIffInOrder` | writer.go:437-468 | a run meets every guard if and only if, wherever it is broken off, every restart and drain ends with files in the order their batches were accepted |
| `Order.CommitOrderIsAcceptOrder` | writer.go:437-468 | after such a run the row ids behind the table's files ascend, file by file |
| `Order.DistinctOrderly` | drain.go:177-208 | with no two batches equal the guards are two, and a seal has none |
| `Fate.QuarantinedCommitsIff` | internal/flush/worker.go:196-205 | a sealed batch quarantined is committed by some continuation if and only if its file is in the table or in the backlog |
| `Fate.QuarantineIsForGood` | internal/staging/store.go:385-418 | a quarantined row stays staged as it is, and in no other batch, through every run |
| `Scenarios.EncodedRecordsQualify` | internal/canon/batch.go:41-86 | any row that encodes is a record the runs below apply to |
| `Scenarios.EqualBatchesCommitTwice` | internal/flush/flush.go:690-711 | two equal batches put one file in the table twice |
| `Scenarios.EqualBatchReplayedIsDropped` | internal/flush/flush.go:690-711 | an equal batch recovered after a crash is pruned unread |
| `Scenarios.EqualBatchesKeptOnce` | internal/spool/spool.go:88-112 | two equal batches kept locally share one file, and the drain adds one copy for both |
| `Scenarios.QuarantinedBatchIsDrained` | drain.go:190-205 | a batch spooled, then quarantined because a row cannot be moved to the shape now declared, is committed by the next drain, late |
| `Scenarios.TighteningSpoils` | internal/canon/remap.go:33-70 | an optional column made required spoils every record with a null there, though the shapes are compatible |
| `Scenarios.LockoutHappens` | internal/staging/index.go:204-217 | a batch quarantined under a stricter shape, an equal one sealed under the old, and a crash split staging |
| `Scenarios.TiedStampsLoseOrder` | internal/spool/spool.go:200-204 | two files kept locally are drained in the wrong order when the second has an earlier clock reading, or the same one and no greater key |
| `Scenarios.BacklogLeftBehindCommitsLate` | drain.go:177-180 | a run with no cache commits ahead of a backlog it cannot see |
| `Scenarios.HalfPruneHappens` | internal/flush/flush.go:647-655 | a run in which a committed batch's rows are deleted and its descriptors are not dropped |
| `Scenarios.HalfPruneWedges` | internal/flush/flush.go:647-655 | once the rows are deleted and dropping descriptors fails, the head can only fail |
| `Scenarios.WedgeEndsAtRestart` | internal/staging/index.go:152-221 | a restart then finds nothing sealed to replay |
| `Flush.RenderRows` | internal/flush/flush.go:424-441 | a sealed batch's rows under the current shape, or a refusal exactly when some row has none |
| `Flush.RecodeRows` | internal/flush/flush.go:443-465 | an unsealed batch's payloads under the current shape, or a refusal exactly when some row has none |
| `Flush.FlushWorker.constructor` | writer.go:224-403 | a writer opened on what a run left continues that run |
| `Flush.FlushWorker.Rows` | internal/staging/store.go:224-250 | rows are read in the order asked for; the read fails exactly when the call does or a row is gone |
| `Flush.FlushWorker.SealRows` | internal/staging/store.go:271-335 | the key is stamped on exactly these rows, or on none; refused exactly when the call fails or a row is gone, sealed, quarantined or named twice |
| `Flush.FlushWorker.AddFile` | internal/flush/flush.go:560-567 | a compare-and-swap on the handle, refused on an outdated one, which may land and report failure |
| `Flush.FlushWorker.Commit` | internal/flush/flush.go:537-546 | succeeds exactly when its call does on a handle up to date; then the table grows by this file and the handle with it, and after a failure both are stated |
| `Flush.FlushWorker.Upload` | internal/flush/flush.go:511-513 | the object under the key is this file, whatever was there, unless the call was refused |
| `Flush.FlushWorker.WriteSpool` | internal/spool/spool.go:88-112 | file first, record second; a rewrite keeps the first stamp and any mark; it succeeds exactly when both calls do |
| `Flush.FlushWorker.MarkSpooled` | internal/flush/flush.go:857-863 | the record, if there is one, is marked, and no other record changes |
| `Flush.FlushWorker.Prune` | internal/flush/flush.go:647-655 | the batch leaves staging and the queue when both calls are done, and leaves staging alone when only the first is |
| `Flush.FlushWorker.SealAs` | internal/flush/flush.go:471-486 | a batch just sealed always decodes, so the last failure of prepare cannot happen |
| `Flush.FlushWorker.Prepare` | internal/flush/flush.go:410-489 | a batch comes out keyed, with its file in hand or known to be in the table, exactly when its content is sound and every call is done; it is blamed exactly when its content is at fault |
| `Flush.FlushWorker.Publish` | internal/flush/flush.go:713-768 | a file in hand becomes a confirmed commit, or in local-only mode a recorded spool file, exactly when every call is done and the handle is up to date |
| `Flush.FlushWorker.Process` | internal/flush/flush.go:663-775 | exactly when an attempt blames the batch's content, exactly when it reports no failure, and what it has done: the batch out of the queue and of staging with every record delivered, or still the head |
| `Flush.FlushWorker.QuarantineRows` | internal/staging/store.go:385-464 | a whole batch is marked, or none of it; refused exactly when the call fails, a row is gone, or a row outside the batch has its key |
| `Flush.FlushWorker.Quarantine` | internal/flush/worker.go:384-416 | a batch that cannot be encoded leaves the queue marked unless the call fails or staging is split; else it keeps its place |
| `Flush.FlushWorker.Cycle` | internal/flush/worker.go:338-364 | attempts stay within the budget and stop at a shutdown; a batch that can never be encoded is isolated at the first attempt that reads it, unless marking it fails; a batch that has not left is still the head; what is reported |
| `Drain.Drainer.ReadBacklog` | internal/spool/spool.go:200-204 | exactly the unmarked files, oldest first |
| `Drain.Drainer.StagedBatchKeys` | drain.go:293-307 | exactly the keys live staged rows carry, unless the scan fails or staging is split |
| `Drain.Drainer.DrainFile` | drain.go:228-284 | a file drained is in the table and marked, exactly when every call is done; the table grows by it or not at all |
| `Drain.Drainer.DrainTable` | drain.go:177-208 | succeeds exactly when every call made is done and staging is not split; the table grows by the backlog in order, and what stays unmarked is what replay owns |
| `Worker.StepKept` | internal/flush/worker.go:287-556 | every step of the goroutine, the waiters and the closers keeps all of what follows |
| `Worker.QueueIsTheRest` | internal/flush/worker.go:519-542 | the queue is exactly completed + 1 up to enqueued, and finishing removes the batch the cycle was about |
| `Worker.NoLostWakeup` | internal/flush/worker.go:469-505 | a goroutine idling can go on once work arrives or a stop is signalled |
| `Worker.NoSleepingAnswer` | internal/flush/worker.go:234-260 | no waiter sleeps on an open channel once there is a notice or a new failure for it, once nothing it covers is left, or once the goroutine is gone |
| `Worker.WaitIsAnswered` | internal/flush/worker.go:213-260 | one look tells a wait of an unread quarantine it covers, else of a failure it covers recorded since it began, else nil once none of its batches is left, and nothing otherwise |
| `Worker.EveryWaitCanEnd` | internal/flush/worker.go:205-261 | from every reachable state of a worker not told to stop, a wait for queued batches can still be answered |
| `Worker.FailureStands` | internal/flush/worker.go:519-542 | the failure on record is the newest, of the head or of a batch quarantined since; a commit wipes it out |
| `Worker.ExitsOnlyIfTold` | internal/flush/worker.go:287-329 | the goroutine exits only if it was told to stop |
| `Worker.NilIsHonest` | internal/flush/worker.go:205-261 | nil means every batch asked about has left the queue, committed, reported or overwritten |
| `Worker.FailureIsOwn` | internal/flush/worker.go:205-232 | a failure returned is a covered batch's, recorded after the wait began |
| `Worker.NoticeReachesOneWaiter` | internal/flush/worker.go:213-223 | a quarantine notice reaches at most one waiter, one it concerns |
| `Worker.LosesIffOverwrites` | internal/flush/worker.go:524-525 | a notice is lost exactly when a quarantine is recorded over an unread one |
| `Worker.NilMeansFlushedOrTold` | internal/flush/worker.go:205-261 | if each quarantine is read before the next, nil means committed or reported to one wait |
| `Worker.OverwrittenNoticeReadsAsFlushed` | internal/flush/worker.go:120-125 | two quarantines with no wait between them answer a wait for the first with nil |
| `Worker.Bookkeeping.Enqueue` | internal/flush/worker.go:158-168 | a batch joins the end, waiters are woken and a token is left |
| `Worker.Bookkeeping.FindHead` | internal/flush/worker.go:469-484 | cancellation first, then work, then a stop |
| `Worker.Bookkeeping.Finish` | internal/flush/worker.go:519-542 | what each outcome does to the queue, the failure and the notice |
| `Worker.Bookkeeping.Ask` | internal/flush/worker.go:213-232 | one look: a covering notice is taken, then a newer failure, then completion, each in the fields themselves |
| `Ingest.GroupChunk` | ingest.go:543-592 | the groups of what comes before the first record this layer refuses, and that record |
| `Ingest.GroupsArePartition` | ingest.go:543-592 | every record read is in its table's group and nothing else is in any; groups in order of first appearance, each in input order |
| `Ingest.Door.InsertBatch` | writer.go:624-733 | closed, then the first bad row, then the ceiling, then the store; all of the slice or none |
| `Ingest.JudgeSays` | writer.go:624-733 | each answer of the batch door and what it comes before; a slice that fills the room exactly is taken |
| `Ingest.Door.WriteGroup` | ingest.go:644-726 | consecutive slices from the front, each at least half of the longest that fits; a row is refused only by the first call, and then nothing is staged; it stops exactly on an ended context and breaks exactly on a closed writer or a fault |
| `Ingest.Door.WriteCut` | ingest.go:450-488 | a group is staged up to the limit, or up to the row it is refused for, or up to where the door said why not |
| `Ingest.Door.WriteChunk` | ingest.go:435-491 | every record before the one named is staged, once and in order per table; a record called refused is one; it halts only on an ended context, and a closed writer or a fault names the chunk's first record of the table being written |
| `Ingest.Door.NextChunk` | ingest.go:347-380 | a chunk is one record and whatever has arrived, within both bounds and no less |
| `Ingest.Door.IngestStream` | ingest.go:251-302 | the same for a whole stream, however it is cut into chunks; a clean end means everything is staged, and a write that failed never passes for a context that ended |
| `Ceiling.Counters.AcceptBatch` | store.go:730-745 | the whole batch is charged or none of it, exactly when it fits or fills the ceiling |
| `Ceiling.Counters.Release` | store.go:748-760 | what is released comes off, stopping at zero |
| `Ceiling.RecordsConserved` | store.go:702-760 | the record counter is exact across every step, and the clamp never acts on it |
| `Ceiling.BytesConservedIffLengthsKept` | writer.go:687-733 | the byte counter and what writers will release stay exact across a step if and only if it is not a seal that changes a length |
| `Ceiling.ExactIffSteady` | store.go:702-760 | over a run from an empty store the byte counter and what writers will release are exact at every point if and only if no seal changes a length |
| `Ceiling.CountersConserved` | store.go:702-760 | the same over every run from an empty store |
| `Ceiling.OneShapeIsExact` | store.go:702-760 | while no writer changes its shape both counters are exact |
| `Ceiling.CeilingHolds` | store.go:702-760 | in no run does staging, with charges in flight and releases owed, hold more records than the ceiling, nor more bytes while seals keep lengths |
| `Ceiling.RecodedSealLetsStagingOverflow` | internal/staging/store.go:271-320 | a run over two tables, one reopened under a longer shape and its batch sealed, after which a release takes back more than was charged and an accept passes that takes staging over its ceiling |
| `Ceiling.Books.Stage` | writer.go:720-732 | staged rows join the batch, which is sealed exactly at a threshold with the floor passed |
| `Ceiling.Books.TriggerLocked` | writer.go:799-809 | a trigger inside the floor changes only its own count |
| `Ceiling.Books.SealLocked` | writer.go:813-825 | the whole batch is handed over and an empty one started |
| `Ceiling.Books.Settled` | writer.go:831-856 | the head batch's records and bytes come off what is queued |
| `Ceiling.Books.Pending` | writer.go:876-887 | pending is exactly what is accepted and not settled |
| `Claims.Registry.Attach` | store.go:679-693 | a closed store refuses first, then an owned table |
| `Claims.Registry.SwapClaim` | store.go:641-651 | the slot changes hands in one step |
| `Claims.Registry.TakeAll` | store.go:303-313 | closing takes every slot at once, and only once |
| `Claims.StepKept` | store.go:617-701 | every step of openers, drains, closers and the store's close keeps the single-owner rule |
| `Claims.OneOwnerPerTable` | drain.go:141-152 | at most one walker or worker is at a table, and in an open store it holds the slot |
| `Claims.SwapLeavesNoGap` | store.go:641-651 | handing the claim to the writer leaves the table owned throughout |
| `Claims.RemovalIsOwn` | store.go:696-701 | removing by key removes the caller's own slot and no other |
| `Claims.RefusalsInOrder` | store.go:679-693 | who is let in, and what the others are told |
| `Claims.DatabasesOutliveWriters` | store.go:303-345 | the databases close under no registered writer unless the close ran out of time |

## Left out

- S3, SQLite, iceberg-go, Arrow and Parquet: only what the protocol needs of them, as atomic steps. Reconciling a table's schema is a step that changes no data file.
- The ClickHouse mirror: best effort, never changes a flush. Its decimal read is in `Decimal`.
- Several tables at once: the protocol is modelled for one table; other tables take row ids from the same sequence and nothing else.
- Real time, jitter and backoff delays: a sleep is a step that may be interrupted.
- Callbacks and panic containment: assumed absent.
- `checkPendingShapes` reading a recorded shape that is missing: every staged row carries its shape in the model.
- Reading the shapes that rows were recorded under is one call with reading the rows, and a failure of either comes before any row is decoded.
- Envelope parsing and row decoding: a record arrives as refused or as a row of a table.
- `Cbor.ItemEnd`: leaves out the decoder library's nesting and element-count limits, which refuse items RFC 8949 allows.
- Read errors of the stream: a reader ends, it does not fail.
- `Framing.FramesAreNumbered`: the detail text of a refusal is left out; kind, record and line are kept.
- `Worker.OverwrittenNoticeReadsAsFlushed`: the timing argument that the program makes against this run is not modelled.
- `Claims.DatabasesOutliveWriters`: a walker that holds a claim when the store closes is not waited for, as in the code.
- Inspection, rebuild, the command line, catalog reconciliation and the derivation of declarations.

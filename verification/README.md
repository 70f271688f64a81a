# Verification of the mail store

This project models the parts of the program whose correctness rests on more than one function, and proves what they
are for. `dafny verify dfyconfig.toml` checks all of it. There are four parts.

**The QR encoder** (`Galois`, `Polynomials`, `ReedSolomon`, `Stream`, `Tables`, `Payload`, `Blocks`, `Grid`, `Path`,
`Matrix`, `MaskPatterns`, `Drawing`, `Symbol`, `CheckWords`, `Capacity`, `Encoder`), byte mode and level M of ISO/IEC 18004:2015, in the
encoder's own loops over tables, slices and module arrays; and a reader written from the standard (`Reader`), which
knows only the finished modules. The main result is `Encoder.SymbolDecodes` with `Encoder.Encode`: for every text of at
most 666 bytes all eight trial symbols decode to exactly that text. Below it lie the field of 256 elements and its
tables, Reed-Solomon division with existence and uniqueness of the correction bytes, interleaving and its inverse, the
data path as a bijection, and a proof that the reserved modules leave room for all codewords of every version.

**The shared document and its log** (`Numbering`, `Document`, `DocumentLaws`, `Retagging`, `TagColors`, `Histories`,
`Absorption`, `Parts`, `Tracing`, `Merging`, `FileNumbers`, `Data`, `StateLog`, `LogContent`, `LogTracing`, `LogLimits`, `Journal`,
`State`).
`Document.ApplyOp` says what one change does; the class `Data` is the interpreter that updates maps and entries in place
and is proved to be it. The numbering follows section 2.3.1.1 of RFC 3501; where its 32-bit counters end, the laws say
exactly when they still hold.

`StateLog` is the replicated log as a state machine over single bucket calls: any number of machines reading, listing,
fetching, writing, compacting and cleaning, over their own local files and with ops of their own pending, with the list
of everything ever written as a ghost history. What a document is made of is said in two ways:

- *Exactly*, for all ops: as long as local files and pending ops add nothing to what a machine loads, every document in
  the system is the replay of a known set of ops (`StateLog.EveryFreshLoad`).
- *In content* - entries, tag sets, registered tags, rules and filters - for all ops but real renames, that is, `rekey`
  and `tagren` to another name (creating a tag is a `tagren` to the same one), with any local files and any pending ops:
  every document has the content of the replay, apart from a known list of ops that it shows ahead of time
  (`LogContent.EveryFreshContent`). When a file shows is `LogContent.FileHarmlessWhen`.

Real renames are exactly the ops that can show when they are replayed early (`Absorption.NeverShowsWhen`); with one
machine and nothing failing, `State.RenameOverOwnFile` is such a run. `Tracing` says for any log with renames in it when
that happens, by tracing every fact after the log back to facts before it. Over whole runs, with any ops and any files,
`LogTracing.RunShowsWhen` says exactly at which events fresh loads cease to have the content of the ops they see, and
`LogTracing.PutAgreesWhen` what that means for the snapshot and the file a machine began with. The numbering of a load
over the own file is the subject of `FileNumbers`.

A run *loses nothing* if writes are named above the watermark, snapshots are put only with every op at or below their
names in them and all others still there, and only objects at or below the watermark are deleted. In these runs, and in
no others, every op ever written is seen at every moment (`StateLog.RunSeesAllWhen`); what a fresh machine then loads is
`StateLog.EveryLosslessLoad`, and `LogContent.EveryLosslessContent` in content. What bucket and machines can see to is
that a run is *orderly*: writes are named above the watermark and above what machines about to compact have listed, such
machines read all bodies, and a snapshot is put only over the one it was made from. Orderly runs lose nothing; for each
condition `LogLimits` has runs that break it once and lose a change for good. Two more runs show what an old local file
and an op that stays unwritten do to the content.

`State` is one machine's class, with its queue, its batches, its local file and calls that may fail. `Journal` says how
issued, written, merged and pending ops hang together; with it `State.IssuedInOrder` follows from the invariant that
every method keeps, with nothing assumed about the snapshot or the file.

**Sending** (`SendProtocol`, `SendLimits`, `Outbox`): the six steps and their recovery as a state machine in which any
number of sends and recoveries run at once and die between any two calls. In a *sound* run every storage call may fail.
Not sound are: a message that goes out while its marker is not there, a marker taken from a message that is out and not
settled, and a copy filed for a message that is not out. `SendProtocol.RunHarmlessWhen` says that exactly the sound runs
do no harm at any point; the safety theorems spell out what that means, and for each of these guards `SendLimits` has
runs that break it once and go wrong. `Outbox` is the handler and the recovery as they are written, proved to make runs
of this machine whatever storage does; a send makes a sound one exactly if its message had a marker, and has it still or
is settled. If storage works, everything that is decided is settled.

**The mailbox index** (`Order`, `Keys`, `Mail`, `Rules`, `Mailbox`): keys and folders, the search for a free name, bulk
moves under any pattern of failing copies and deletes, refreshing against rebuilding, and filing by rules. What a move
or a rule keeps hangs on the index covering the mail in the bucket; `Mailbox.RefreshCovers` shows that every refreshed
index does.

Methods of classes change their fields as the source does; each is tied by its contract to a function or relation of
the old state, and the laws are proved about those. Calls to storage may fail at any point: a ghost list says which of
them went through, and contracts say which calls are made and what comes of each answer. A field (`working` in `Outbox`
and `Mailbox`; `readable`, `writable` and `disk` around `State`) says that no call of a kind fails.

Where the code and its own comments disagree the model follows the code:

- `core/uid.go:95-97` says nothing in the document changes when an op is made; the folder's numbering is created.
- `core/state.go:115` says every op is idempotent; `DocumentLaws.ApplyTwice` states the two exceptions, and
  `Retagging.RetagReplayWhen` and `DocumentLaws.ReplayHarmlessFromStart` when they occur.
- `store/state.go:207` merges the local file in and then replays the log on top; for renames this shows changes too
  early (`Absorption.RekeyIsSeenEarly`, `Absorption.RenameIsSeenEarly`, `State.RenameOverOwnFile`).
- `core/state.go:223` says nothing created offline gets lost; filters are not merged, and dropped entries come back.
- `store/state.go:130-135` takes a snapshot that cannot be read for no snapshot.
- `store/mail.go:243-254` stores the ETag with an unreadable placeholder, so the message is not fetched again.
- `store/mail.go:574-577` counts a filed message as moved even if its copy or delete failed.
- `core/folder.go:67` trims white space before slashes, so a name such as `a /` is accepted as `a ` and trimmed to `a`
  when a key is made from it: entries then name a folder their keys do not lie in, exactly for such names
  (`Keys.KeyForReads`, `Mailbox.Mailbox.Move`).

## Model

| member | source | states |
|---|---|---|
| ReedSolomon.Galois.constructor | qr/galois.go:18-31 | the tables hold the powers of the primitive element and, for every non-zero byte, an exponent whose power it is; the second half of the power table repeats the first |
| ReedSolomon.Galois.FillPowers | qr/galois.go:19-27 | the running product visits every power once: slot k is the k-th power and the logarithm of that power is k, no later power overwriting it |
| ReedSolomon.Galois.Mul | qr/galois.go:33-38 | the table lookup is the field product, defined without tables by shifting and adding modulo x^8+x^4+x^3+x^2+1, for all 65536 pairs |
| GaloisField.Distributes | qr/galois.go:33-38 | the product distributes over exclusive or, on both sides |
| GaloisField.Associates | qr/galois.go:33-38 | the product is associative |
| GaloisField.NoZeroDivisors | qr/galois.go:33-38 | a product is zero only if a factor is |
| GaloisField.AlphaPeriod | qr/galois.go:18-31 | the powers of the primitive element repeat after 255 steps |
| GaloisField.AlphaInjective | qr/galois.go:18-31 | the first 255 powers are pairwise distinct, so no logarithm is overwritten |
| GaloisField.AlphaCovers | qr/galois.go:18-31 | every non-zero byte is one of the first 255 powers, so the logarithm table is total on them |
| Polynomials.TooManyRoots | qr/galois.go:56-73 | a polynomial with at most 255 coefficients that vanishes at as many first powers is zero |
| ReedSolomon.Galois.Generator | qr/galois.go:40-54 | the divisor is monic of degree n and takes, at every point of the field, the value of the product of (x + alpha^k) for k below n |
| ReedSolomon.Galois.ClearLeading | qr/galois.go:63-71 | one round of the division clears one more leading coefficient and changes no value at the divisor's roots |
| ReedSolomon.Galois.Correction | qr/galois.go:56-73 | for all data and every n up to 512: data followed by the n returned bytes vanishes at alpha^0 to alpha^(n-1) |
| ReedSolomon.RemainderCompletes | qr/galois.go:56-73 | whatever is left after a division that cleared the data positions and kept the values at the roots completes the data to a codeword |
| ReedSolomon.CodewordIsUnique | qr/galois.go:56-73 | up to 255 correction bytes, there is only one tail that makes the data a codeword |
| BitStream.Writer.Add | qr/qr.go:206-222 | the stored bits are the old ones followed by the lowest count bits of the value, most significant first; a count of zero or less adds nothing; bits of the last byte past the end stay zero |
| BitStream.NumberRoundTrip | qr/qr.go:212-222 | a number below 2^count is read back from the bits written for it |
| BitStream.PackStream | qr/qr.go:206-222 | packing the bits of a byte list gives the bytes back |
| Tables.BlockSizes | qr/tables.go:19-60 | data and total codewords of each version 1 to 20 at level M are the published ones |
| Tables.BlockShapes | qr/tables.go:19-60 | the number of blocks and of correction codewords in each are the published ones, and blocks of a version differ by at most one data codeword: with the totals this fixes the whole table |
| Tables.AlignmentSpaced | qr/tables.go:62-86 | the centres of alignment patterns begin at 6, end seven modules before the border and are evenly spaced from the second on |
| Tables.Fit | qr/qr.go:89-105 | the smallest version that holds n bytes, and an error exactly for more than 666 bytes |
| Payload.EncodeData | qr/qr.go:107-135 | the data codewords are exactly the capacity of the version and spell mode, count, bytes, terminator, zero fill and the alternating pad bytes |
| Payload.CountFits | qr/qr.go:89-116 | the length of every text that fits a version fits its count field |
| Payload.ParseLayout | qr/qr.go:107-135 | a reader of mode and count gets exactly the bytes back from every such layout; terminator and padding never reach the payload |
| Blocks.Cut | qr/qr.go:141-157 | the data is split into the blocks of the version in order, nothing left over, and each block is completed to a codeword of its own |
| Blocks.Interleave | qr/qr.go:137-175 | the stream is the data blocks read by columns, shorter blocks skipped, then the correction blocks read by columns; it has as many codewords as the version, and the reader gets the data back from it |
| Blocks.DealColumns | qr/qr.go:158-174 | a reader that computes the position of codeword i of block k undoes the column reading for blocks of any lengths, whatever follows in the stream |
| Blocks.InterleaveUndone | qr/qr.go:137-175 | from the interleaved stream of every split the reader recovers the blocks and the data |
| Blocks.CodewordCount | qr/tables.go:54-60 | the stream has exactly the total number of codewords of the version |
| Symbol.Code.Mark | qr/matrix.go:13-19 | sets and reserves exactly one module; outside the symbol nothing changes |
| Symbol.Code.DrawFinder | qr/matrix.go:21-35 | on top of any layers drawn before, exactly the modules of a finder with its separator, cut off at the border, are drawn and reserved |
| Symbol.Code.DrawTiming | qr/matrix.go:40-45 | adds exactly the two timing lines |
| Symbol.Code.DrawAlignments | qr/matrix.go:47-65 | adds exactly the alignment patterns of the version, in row order, leaving out those on a finder |
| Symbol.Code.DrawFormatArea | qr/matrix.go:71-82 | adds exactly the format area; the extra reservation of the crossing with the timing row changes nothing, since it is reserved already |
| Symbol.Code.DrawVersion | qr/matrix.go:84-94 | adds exactly the two version blocks with the bits of the version word |
| Symbol.Code.Patterns | qr/matrix.go:9-96 | every module of the finished picture and of the reserved map is what the layers of the version say, later layers over earlier ones |
| Symbol.VersionBits | qr/matrix.go:203-212 | the version word by long division |
| Symbol.FormatBits | qr/matrix.go:165-190 | the format word of level M and the mask by long division |
| CheckWords.VersionWords | qr/matrix.go:203-212 | the long division gives the eighteen-bit words ISO/IEC 18004 tabulates for versions 7 to 20 |
| CheckWords.FormatWords | qr/matrix.go:165-190 | the long division and the final exclusive or give the words ISO/IEC 18004 tabulates for level M and the eight masks |
| CheckWords.WordBitIs | qr/matrix.go:165-212 | bit i of a word is the one worth 2^i |
| DataPath.PathIsBijection | qr/matrix.go:98-129 | for every odd size of at least 9 the path meets every module outside column 6 exactly once, and no other |
| DataPath.FreeMembers | qr/matrix.go:116-118 | the free part of the path is exactly its unreserved modules, each once |
| Symbol.Code.Place | qr/matrix.go:98-129 | for every reserved map: bit k of the codewords lies on the k-th free module of the path, light modules follow when the bits run out, and no other module changes |
| DataPath.ReadPlaced | qr/matrix.go:98-129 | walking the same path gives the codeword bits back whenever the free modules suffice |
| Symbol.ApplyMask | qr/matrix.go:131-163 | flips exactly the unreserved modules that the mask's condition selects, which are those of its pattern |
| MaskPatterns.FlipsPattern | qr/matrix.go:136-157 | each of the eight conditions, for modules of symbols of any size, is the pattern ISO/IEC 18004 prints for its mask, given as rows of marks and repeated from the corner on; the reader undoes masks by these patterns |
| Matrix.MaskTwice | qr/matrix.go:131-163 | masking twice with the same mask is the identity |
| Symbol.Code.FormatInfo | qr/matrix.go:165-201 | both copies of the format word and the dark module are written, and no other module changes |
| Symbol.CellsApart | qr/matrix.go:191-200 | no two bits of the two format copies share a module |
| Capacity.EnoughRoom | qr/tables.go:29-86 | for each version the modules outside column 6, less an upper bound for the reserved ones, are at least eight times the total codewords |
| Capacity.CodewordsFit | qr/matrix.go:98-129 | for every version the free modules of the path carry all codewords of the version |
| Reader.StreamReads | qr/qr.go:58-62 | from the codewords of every text that fits, the reader gets the text |
| Reader.Unmasked | qr/matrix.go:131-201 | reading the finished symbol with the mask's pattern undone shows the modules as they were placed: conditions and patterns agree, and format bits land only on reserved modules |
| Reader.MaskNamed | qr/matrix.go:165-201 | the finished symbol names its own mask |
| Reader.StagesFramed | qr/matrix.go:9-201 | in the finished symbol every function pattern is as drawn, apart from the format word |
| Reader.StagesRead | qr/matrix.go:98-201 | from patterns, placing, masking and format information in this order, the reader recovers mask and codewords |
| Encoder.StagesMakeSymbol | qr/qr.go:50-70 | the stages of the encoder end in a correct symbol of the text under the mask |
| Encoder.SymbolDecodes | qr/qr.go:50-87 | a reader that knows only the modules and their number per side gets exactly the text from every symbol that is framed, names its mask and carries a stream of Reed-Solomon codewords of the text |
| Encoder.SymbolsDiffer | qr/qr.go:50-87 | so two symbols of different texts differ, whatever their versions and masks |
| Encoder.Encode | qr/qr.go:50-87 | an error exactly for more than 666 bytes; otherwise the smallest version that fits, all eight trials are correct symbols of the text, the first with the least score is returned, and it decodes to the text |
| Data.Data.Normalize | core/state.go:51-75 | missing numbering fields get their starting values and nothing else changes |
| Numbering.NormalIs | core/uid.go:43-60 | both counters start at 1, where they are 0, and nothing else changes |
| Absorption.Unmentioned | core/state.go:77-91 | nothing holds of a message without an entry, nor of a tag that is not registered |
| Data.Data.Apply | core/state.go:113-211 | the in-place interpreter of all eleven kinds of op, and of unknown ones, is the function the laws below are proved about |
| Data.Data.ChangeTags | core/state.go:136-149 | each named message loses the removed tags and gains the added ones that are missing, in order, even if it is named twice |
| Data.Data.RenameTag | core/state.go:183-205 | the tag is renamed in the registry and on every message; what becomes of the colours is said by RenameColors |
| TagColors.RenameColors | core/state.go:183-205 | after a rename or a recolouring the tag has the colour that was given; if none was, that of the old tag, or its own, or the next in turn; the old tag is gone and no other tag changes |
| TagColors.ColorStays | core/state.go:113-211 | a registered tag keeps its colour under every op that neither renames nor removes it |
| TagColors.NewColor | core/state.go:131-135 | a tag that is registered along the way gets the colour whose turn it is by the number of tags there were before it |
| TagColors.EightColors | core/state.go:16-19 | eight different colours take turns |
| TagColors.LastColorWins | core/state.go:183-205 | over any log the colour of a tag is the last one that was given to it, unless it is renamed or removed after that |
| TagColors.MergedColors | core/state.go:237-241 | in a merge the base's colour wins, and a tag only the copy knows comes with the copy's |
| TagColors.MergedEntries | core/state.go:231-244 | entries are taken over whole, and only those the base does not have; rules only by a base that has none, filters never |
| DocumentLaws.RenamedInPlace | core/state.go:197-203 | a rename leaves every tag at its place in the list of each message |
| Data.Data.MergeMissing | core/state.go:223-271 | the merge in place, in whatever order the maps are walked, is the function the merge laws are proved about; if a copy has one number on two messages, all but the numbering still is, and every folder takes over what MergeFolder says |
| Data.Data.MergeFolder | core/state.go:253-269 | for any other folder and any order of walking it: no number moves, none is given twice, new ones are the other folder's, and a message left out has one that is taken; if the other folder has no number twice, the result does not depend on the order |
| Data.Data.AssignUIDs | core/uid.go:95-115 | the op numbers the unnumbered names from Next on, in order; the folder's numbering is created if there was none |
| Data.Data.ApplyUID | core/uid.go:116-148 | the first assignment of a message and of a number wins, numbers missing at the end and zeros are skipped |
| Data.Data.RetireUID | core/uid.go:150-160 | the names lose their numbers in the folder |
| Data.Data.DropUIDs | core/uid.go:162-175 | the names lose their numbers in every folder |
| Numbering.Rebuild | core/uid.go:43-60 | the rebuilt reverse index covers every number and only names that have it |
| Numbering.RebuiltIndex | core/uid.go:43-60 | if no number is on two messages, the rebuilt index is the one that was not stored, whatever order the map is walked in |
| Numbering.AssignFirstKeeps | core/uid.go:116-148 | any uid op keeps the index an exact inverse and every number a message has, and Validity rises, modulo 2^32, once for every assignment that meets a number of somebody else at its turn |
| Numbering.AssignFirstInOrder | core/uid.go:116-148 | numbers stay between 1 and Next, and Next does not fall, if and only if no assignment gives the last number of the 32-bit range |
| Numbering.AssignSoundWhen | core/uid.go:129-146 | one assignment keeps a sound folder sound if and only if it does not give the last number, and is not refused while Validity is the last one |
| Numbering.AssignFirstSoundWhen | core/uid.go:116-148 | a whole op keeps a folder sound with neither Next nor Validity falling if and only if none of its assignments gives the last number and its refusals do not wrap Validity around |
| Numbering.RetireFirstKeeps | core/uid.go:150-175 | retiring removes exactly the named messages, keeps the index an inverse and leaves Next and Validity |
| Numbering.BatchNumbered | core/uid.go:95-148 | a batch made for the folder is numbered consecutively from Next on in the given order, nothing else moves, Validity included |
| Numbering.Replay | core/uid.go:116-148 | applied again, a uid op changes nothing but Validity, which rises once for every name the op left without a number |
| Numbering.NumberedWhen | core/uid.go:129-140 | after an op a message has a number if and only if it had one before or an assignment for it was not refused at its turn |
| Numbering.LeftOutWhen | core/uid.go:129-140 | so an op leaves a message without a number if and only if all its assignments for it were refused at their turns |
| Numbering.NextWrapsAround | core/uid.go:143-146 | the last number of the 32-bit range puts Next back to 1, below numbers already given |
| Numbering.StaleOpReusesNumber | core/uid.go:150-160 | an op made for an older document gives a retired number to another message |
| DocumentLaws.IndexKept | core/state.go:113-211 | no op whatever makes two messages of a folder share a number or breaks the reverse index |
| DocumentLaws.NumberingKept | core/state.go:113-211 | an op keeps all folders sound, moves no number unless it removes the message, lets neither Next nor Validity fall and no folder disappear, if and only if it is not a uid op that gives the last number or wraps Validity around |
| DocumentLaws.TagsStayKnown | core/state.go:130-205 | no op leaves a message with a tag that is not registered |
| DocumentLaws.ApplyTwice | core/state.go:113-116 | for every document and op, twice is once, except that overlapping tag lists may be reordered and a conflicting uid op raises Validity by the number of its conflicts |
| DocumentLaws.ReplayHarmlessWhen | core/uid.go:129-140 | replaying a uid op leaves the document alone if no message had all its assignments refused at their turns in the document the op was first applied to, and only then as long as Validity does not go all the way round |
| DocumentLaws.ReplayHarmlessFromStart | core/uid.go:129-140 | for an op that names no message and no number twice, without any bound: if and only if, in the document before, no message without a number is given one that is somebody else's |
| Retagging.RetagReplayWhen | core/state.go:130-149 | replaying a tags op changes nothing, list orders included, if and only if for every message it names exactly once, among the added tags the message had not kept, none outside the removed ones follows one that is also removed |
| Retagging.ThriceIsTwice | core/state.go:136-149 | from the second time on the order stays in any case |
| DocumentLaws.OverlapReorders | core/state.go:130-149 | such an op exists: one that removes and adds the same tag reorders the list when repeated |
| DocumentLaws.ConflictRaisesValidityAgain | core/uid.go:135-140 | a conflicting op raises Validity on every replay |
| Histories.AssignOpIsMade | core/uid.go:101-115 | what AssignUIDs returns for the current document and distinct names is made for that document |
| Histories.AssignOpNumbersAll | store/uids.go:73-102 | after it all the names are numbered, the new ones consecutively in order from Next on, and Validity has not moved |
| Histories.OtherFolderStillMade | store/uids.go:77-102 | the ops of several folders, made for one document, can be applied one after the other |
| Histories.NeverReusedWhen | core/uid.go:20-32 | over any run of any ops: no number of a folder is ever on two messages, however far apart, if and only if no assignment that takes effect at its turn gives a number whose first owner was somebody else |
| Histories.NeverReused | core/uid.go:20-32 | so it is if whatever takes effect gives Next or a later number and not the last one, whatever is refused, replayed, retired or dropped in between |
| Histories.MadeForIsInTurn | core/uid.go:101-115 | which ops made for the document do |
| Histories.ReplayIsInTurn | core/uid.go:129-140 | and ops that are replayed, since nothing of them takes effect |
| Absorption.EffectIs | core/state.go:117-211 | all ops but real renames - rekey, or tagren, to another name - write constants: each yes-or-no fact after the op is what the op says, or what it was; creating a tag is a tagren to the same name and only registers it |
| Absorption.Absorbed | core/state.go:113-116 | replaying any ops of such a log, in any order and number, and then the log gives the entries, tag sets, registered tags, rules and filters of the log alone |
| Absorption.NeverShowsWhen | core/state.go:113-211 | an op replayed early never shows, over any document and before any log of such ops that has it in it, if and only if it is no real rename |
| Absorption.RekeyIsSeenEarly | core/state.go:164-169 | for any two names: an early replay of rekey brings back an entry that the log drops |
| Absorption.RenameIsSeenEarly | core/state.go:183-205 | for any message and any two tags: an early replay of tagren keeps a tag that the log takes away |
| Tracing.AnyReplayWhen | core/state.go:113-211 | for any log, renames included: two documents come to the same content by it if and only if they agree on the facts that the facts after it go back to, worked out from the log alone |
| Tracing.EarlyReplayWhen | core/state.go:113-211 | some ops replayed early, before any log, do not show if and only if each fact after the log goes back to the same value with them and without them in the document before |
| Tracing.AnyFileHarmlessWhen | store/state.go:202-228 | over any snapshot or none and for any log, a local file does not show in the content of a load if and only if it agrees with the snapshot in this sense |
| Tracing.TagAfter | core/state.go:130-205 | after a log without real rekeys a message has a tag if and only if the log puts it there, or it lay there before under one of the former names of the tag |
| Tracing.RenamesReplayWhen | core/state.go:130-205 | so for such logs: the same content if and only if what the log does not settle is equal, and for each tag both documents have it under some former name or neither has |
| Parts.ReplayWhen | core/state.go:113-211 | a replay of ops of all kinds but real renames takes two documents to the same content, rules and filters included, if and only if it writes every part they differ in |
| Parts.FileAbsorbed | store/state.go:206-212 | merging a local file that is ahead of the snapshot by some ops, and then replaying the log with these ops in it, gives the content of a clean replay |
| Merging.MergeKeepsTags | core/state.go:223-243 | merging two documents whose tags are all registered gives one |
| Merging.MergeKeepsNumbering | core/state.go:247-269 | merging sound documents keeps every folder sound, moves no number of the base, and Next and Validity never fall |
| Merging.MergeKeepsIndex | core/state.go:247-269 | merging documents with no number on two messages gives one, whatever the numbers are |
| Merging.EveryStoryKeeps | core/state.go:113-271 | in every document that comes about from empty ones by any ops and any merges with copies that came about in the same way, the tags on messages are registered and no number of a folder is on two messages |
| Merging.EveryStorySound | core/state.go:113-271 | if moreover every uid op in it was in range, numbers lie between 1 and Next everywhere |
| Merging.MergeAddsNothing | core/state.go:223-271 | a copy that has nothing the base lacks changes nothing |
| Merging.DroppedEntryReturns | core/state.go:228-235 | an entry that was dropped comes back from an old local copy |
| FileNumbers.ReplayedOver | core/state.go:247-269 | merged into the folder it comes from, and its ops replayed on top: a numbering has the same numbers, reverse index and Next again, and Validity is higher by what is refused this time, if no number given on the way is on somebody else in the end, and nobody in the way of a refused assignment has another number by then; this is read off the clean replay alone |
| FileNumbers.LoadNumbers | store/state.go:202-228 | so for a load over the own file, folder by folder, with any ops following |
| FileNumbers.NumbersWhen | core/uid.go:116-160 | if messages that are never taken out have the right number or none at the start, assignments and retirements end with exactly the given numbers if and only if, among the turns after which a message is not taken out any more, none gives it another number, and one that gives it the right one is not refused, unless it has it from the start |
| FileNumbers.LoadNumbersWhen | store/state.go:202-228 | whatever conflicts and retirements there are, in the ops the file is ahead by and in those that follow: a load over the own file gives a folder the numbers and the reverse index of a clean replay if and only if the turns, taken again from the merge on, give out those numbers in this sense |
| FileNumbers.PeacefulLoad | store/state.go:202-228 | without conflicts, whatever is retired, the numbering is exactly that of a clean replay, Validity included |
| FileNumbers.GrowingFits | core/uid.go:116-148 | and with any conflicts the condition holds as long as nothing is retired |
| FileNumbers.RenumberedHolder | core/uid.go:129-160 | a conflict, and then another number for the one in the way: loading over the own file gives the old number to the other message |
| StateLog.EventTracked | store/state.go:198-352 | as long as local files and pending ops add nothing, every step of Save, Load and Compact of any machine, with any failures and at any interleaving, keeps every document - in the bucket and in the machines - the exact replay in name order of the ops it is said to have seen |
| StateLog.FreshLoadSees | store/state.go:198-240 | what a fresh machine loads is the replay of the ops merged into the snapshot and of the objects above the watermark |
| StateLog.EveryFreshLoad | store/state.go:198-352 | so at every point of every such run |
| StateLog.EventLossless | store/state.go:198-352 | for every step of every machine, with any local files, pending ops and failures: all ops ever written are still seen by a fresh load if and only if the step is no write at or below the watermark, no put without an op that is at or below its names or no object any more, and no delete of an object above the watermark |
| StateLog.RunSeesAllWhen | store/state.go:198-352 | over every run: all ops were seen at all times up to some point if and only if all steps up to there were of this kind |
| StateLog.EventComplete | store/state.go:198-352 | what the machines can see to keeps the snapshot complete up to its watermark and all newer objects in place: writes named above the watermark and above what machines about to compact have listed, all bodies read by these, and puts only over the snapshot that was read |
| StateLog.OrderlyIsLossless | store/state.go:198-352 | so such runs lose nothing, whatever the clocks of the writers and whatever else fails |
| StateLog.EveryLosslessLoad | store/state.go:198-352 | at every point of every run that loses nothing, and in which local files and pending ops add nothing, a fresh load is exactly the replay of every op ever written: compaction and cleaning never show |
| StateLog.EveryLoadedMachine | store/state.go:198-240 | in an orderly run a machine that has loaded at least so many objects, and whose snapshot is still the one in the bucket, has every op up to the newest it listed |
| StateLog.CompactionSees | store/state.go:318-352 | for any system and any subset of successful deletes: what a fresh load sees after compaction, and exactly when nothing seen before is lost |
| StateLog.CompactionIsInvisible | store/state.go:318-352 | compaction, whichever deletes fail, changes no fresh load if what the machine had seen, with the objects above its names, is what was seen before |
| StateLog.LosslessCompactionSees | store/state.go:318-352 | and that is so for every put that loses nothing |
| LogLimits.LateNameIsLost | store/state.go:219-223 | a run, orderly but for one op named below what a machine about to compact has listed, that loses the op for good |
| LogLimits.StaleNameIsLost | store/state.go:219-223 | a run, orderly but for one op named below the watermark, that no load ever sees |
| LogLimits.UnreadOpIsLost | store/state.go:168-195 | a run, orderly but for one body that could not be read, that loses the op for good |
| LogLimits.RaceLosesCleaned | store/state.go:198-240 | a run, orderly but for a snapshot put over one the machine had not read, because another was put and cleaned between its read of the snapshot and its listing, that loses a cleaned op |
| LogLimits.OlderSnapshotWins | store/state.go:324-340 | the same with two overlapping compactions, in which the older snapshot wins and an op is lost |
| LogLimits.LateDeleteIsLost | store/state.go:335-351 | an older snapshot over a newer one loses nothing as such, but then the newer one's cleaning deletes an object above the watermark and loses it |
| LogLimits.UnreadSnapshotIsLost | store/state.go:130-140 | the same after a snapshot that could not be read and counted as none: what only that snapshot had is lost |
| LogLimits.PendingInSnapshot | store/state.go:233-236 | a snapshot with pending constant ops in it gives, after they are written and replayed, the content of a clean replay |
| LogLimits.LogOverLocalFile | store/state.go:206-212 | a load without a snapshot over a local file that has part of the log in it gives the content of the log |
| LogLimits.OldFileReturns | store/state.go:198-209 | an orderly run with one local file older than the snapshot, after which every fresh load shows an entry that was dropped |
| LogLimits.PendingNeverWritten | store/state.go:232-239 | an orderly run with one snapshot taken while an op was pending that is never written, after which every fresh load shows that op |
| LogContent.EventFollowed | store/state.go:198-352 | for ops of all kinds but real renames, every step of every machine, with any failures, any local files and any pending ops, keeps every document the content of the replay of the ops it has seen, apart from a list of ops known ahead of time: what file and pending ops added, less what was read since |
| LogContent.EveryFreshContent | store/state.go:198-352 | so at every point of every such run a fresh load has the content of the ops seen, apart from what the snapshot has ahead and no newer object repeats |
| LogContent.EveryLosslessContent | store/state.go:198-352 | in a run that loses nothing, once what the snapshot has ahead lies in newer objects, a fresh load has the content of every op ever written |
| LogContent.EveryLoadedContent | store/state.go:198-240 | a machine that has just loaded has the content of the ops it has seen, apart from its list |
| LogContent.FileHarmlessWhen | store/state.go:202-228 | over any snapshot or none, a local file does not show in the content of a load if and only if every part in which it changes the base, rules included, is written by the ops that are replayed |
| LogContent.EveryFileExplained | store/state.go:202-215 | whatever a local file holds, there are ops that account for what it changes, so these runs leave no file out |
| LogTracing.ShowsSeenWhen | store/state.go:202-228 | in any state, for a log with any ops, real renames included: a fresh load has the content of the ops seen if and only if the snapshot agrees with the ops merged into it on all that the newer ops make facts of |
| LogTracing.EventShows | store/state.go:198-352 | if it was so before an event, then it is so after it if and only if the event agrees: a put has to agree in this sense with what its machine has seen, and the snapshot has to where an object is written below newer ones or a newer one is deleted; all other events, with any files and pending ops, change nothing |
| LogTracing.RunShowsWhen | store/state.go:198-352 | over every run from an empty bucket, with any ops, files, pending ops and failures: fresh loads had the content of the ops they see at all times up to some point if and only if all events up to there agreed |
| LogTracing.EveryAgreeingLoad | store/state.go:198-352 | if such a run loses nothing, either, every fresh load has the content of every op ever written |
| LogTracing.PutAgreesWhen | store/state.go:198-352 | the condition of a put, traced back to where its machine began to load: what snapshot and local file make of the ops read, the pending ones and the newer objects is what the ops seen make of those read and the newer ones |
| State.S3.PutOps | s3fake/fake.go:133-142 | the object is written under its name, or nothing changes |
| State.State.FetchOps | store/state.go:168-195 | each body is asked for, whatever became of the others, and the ops of those that were read are applied in name order |
| Journal.CoveredAndComing | store/state.go:197-240 | watermark, objects and pending list cut the list of ops issued into what went into the snapshot and what is applied to it, nothing twice and nothing missing |
| Journal.LoadExact | store/state.go:197-240 | over an exact snapshot and a local file that adds nothing, a load is the replay of everything issued |
| Journal.LoadContent | store/state.go:202-236 | over any snapshot with the content of its part, apart from what is coming, and over a file with the content of all that was issued up to some point after it, a load has the content of everything issued |
| Journal.CompactExact | store/state.go:318-352 | with nothing pending the snapshot of an exact document is exact again, whichever deletes fail |
| Journal.CompactShows | store/state.go:318-352 | with ops pending it has the content of its part, apart from these ops, whichever deletes fail |
| State.State.Load | store/state.go:197-240 | the document is, by the answers there were to the calls: the snapshot if it could be read, the local file merged in, the newer objects that were listed and whose bodies were read, in name order, and the pending ops; with a bucket that works it compacts exactly from fifty listed objects on, clearing away exactly those; with fewer it only reads; and whatever fails it keeps what IssuedInOrder says |
| State.State.Compact | store/state.go:318-352 | the snapshot has the document and the last merged name; then every merged object is deleted whose call went through, and no other; if the snapshot cannot be put, nothing changes; it stays faithful to what was issued |
| State.State.WriteLocal | store/state.go:251-260 | the file is the whole document, or as it was if the disk fails; there is none without a cache |
| State.State.PutPending | store/state.go:284-308 | all pending ops go into one object under a newer name, or all stay pending in their order |
| State.State.Save | store/state.go:274-316 | the whole document goes into the local file, then at most one object with everything pending is written; inside a batch, or with nothing pending, no call is made; a failure is a call that failed, loses nothing and changes no document; from fifty open objects on the state is loaded again |
| State.State.Flush | store/state.go:292-315 | the part that writes to the bucket: one object with everything pending or none, one more open object, and the load that is due from fifty on |
| State.State.Mutate | store/state.go:262-272 | the ops are applied, queued behind what is pending and written in at most one object |
| State.State.Enter | store/state.go:355-358 | the batch is one level deeper |
| State.State.Leave | store/state.go:360-371 | only the outermost end of a batch that changed something writes, and then at most one object; every other end changes nothing and makes no call |
| State.IssuedInOrder | store/state.go:197-352 | after any sequence of calls on a bucket that can be read, with any failing puts, deletes and writes of the local file: the ops in the snapshot, the objects above its watermark in name order and the pending list are exactly the ops issued, in issue order, each once; snapshot and document are their replays, exactly as long as no load found a file that added something and no compaction found ops pending, and in content as long as no load found a file older than the snapshot |
| State.WrittenInOrder | store/state.go:244-308 | even if nothing can be read: the objects written, in name order, and the pending list are exactly the ops issued, and the bucket holds no object that was not written |
| State.LoadGivesIssued | store/state.go:197-240 | what the machine loads next from such a bucket, over its own file, is the replay of everything ever issued, exactly if the file adds nothing, and in content if the file is not older than the snapshot |
| State.OwnFileFits | store/state.go:251-260 | which it never is if the disk works or there is no cache |
| State.OthersSeeWritten | store/state.go:197-240 | another machine without a file has the content of everything written, apart from what is still pending here |
| State.RenameOverOwnFile | core/state.go:183-205 | for a real tagren even the content is not kept: a run of one machine, with nothing failing, that loads over its own file and finds a tag on a message that a clean replay does not put there |
| SendProtocol.EventHarmless | store/sending.go:17-54 | for each single storage call of handler, recovery and answer, and each death of a program, whatever fails: nothing is forgotten, feigned or lost by it if and only if it is sound, that is, nothing goes out whose marker is not there, no marker is taken from a message that is out and not settled, and no message that is not out is filed as sent |
| SendProtocol.RunHarmlessWhen | store/sending.go:17-54 | over every run from the start, with any number of sends and recoveries at once: no harm was done up to some point if and only if all events up to there were sound |
| SendProtocol.UnmarkedDraftNeverSent | store/sending.go:44-54 | over all sound runs, in which every storage call may fail and programs die anywhere: a draft with no marker for it was never accepted for sending |
| SendProtocol.ClearedMeansSettled | store/sending.go:34-42 | over all such runs: a message that went out and has no marker has its copy in sent, as it was sent, and no draft |
| SendProtocol.NothingPretended | store/sending.go:34-54 | over all such runs: only messages that went out are filed as sent, and no draft disappears unless a message made from it went out or somebody discarded it |
| SendLimits.UnwrittenMarker | web/send.go:70-88 | a run, sound but for a message accepted although its marker could not be written, after which it can be sent again |
| SendLimits.UnstoredCopy | web/send.go:102-112 | a run, sound but for a marker cleared although the copy could not be stored, after which a sent message is nowhere |
| SendLimits.DraftLeft | web/send.go:102-117 | a run, sound but for a marker the handler cleared although the draft could not be dropped, after which a message that went out can be sent again |
| SendLimits.UndroppedDraft | store/sending.go:210-215 | a run, sound but for a marker recovery cleared although the draft could not be dropped, after which a message that went out can be sent again |
| SendLimits.UntruthfulAnswer | store/sending.go:185-199 | a run, sound but for an untruthful "not sent", after which a message that went out can be sent again |
| SendLimits.AnswerWhileRunning | store/sending.go:185-199 | a run, sound but for a message that goes out after a truthful "not sent" has taken its marker, after which it can be sent again |
| SendLimits.FalselyConfirmed | store/sending.go:185-199 | a run, sound but for the copy filed after a false "sent", after which a message that never went out is filed as sent and its draft is lost |
| SendLimits.OutageRecovered | store/sending.go:156-183 | a sound run in which no storage call goes through once the message is out: copy, drop and clear all fail, the marker stays, and a later recovery settles the message |
| Outbox.Outbox.SaveDraft | web/send.go:130-140 | the draft lies under its new name, or nothing changes; no run becomes unsound by it |
| Outbox.Outbox.Send | web/send.go:64-117 | whatever storage does and wherever the program dies, the handler makes a run of the protocol, and a sound one if and only if a message that is out had its marker written, and has it still or is settled; which calls it makes, and what marker, copy and draft are then, is exact in how far it came and what each call answered |
| Outbox.Outbox.BeginSend | store/sending.go:82-103 | the marker without an id is written, or the send goes on without it |
| Outbox.Outbox.MarkSent | store/sending.go:104-119 | the marker is read, and if that went through it gets the id and keeps the rest |
| Outbox.Outbox.AbandonSend | store/sending.go:121-129 | exactly this marker is removed |
| Outbox.Outbox.PendingSends | store/sending.go:131-154 | each marker is asked for, and exactly those that could be read are returned, in key order |
| Outbox.Outbox.FinishSent | store/sending.go:201-216 | steps 4 to 6 of a marker, each a step of the protocol; for a message that is out, sound ones if and only if the marker stays or the message is settled; a copy that fails ends it with the marker in place, a draft that cannot be dropped does not, and copy, draft and marker are exactly what the calls answered |
| Outbox.Outbox.RecoverSends | store/sending.go:156-183 | a run of the protocol whatever storage does: every decided marker that could be read is taken up, and is settled or a call of its own failed; no marker goes without its copy, nothing else is touched, and exactly the undecided ones that could be read are returned in key order; if storage works the run is sound and every decided marker is settled |
| Outbox.Outbox.ResolveSending | store/sending.go:185-199 | "sent" settles the message, "not sent" clears exactly its marker and leaves the draft; if it reports an error the marker is there, and a call failed; a truthful answer makes a sound run if storage works, and in any case if the marker stays or the message is settled |
| Outbox.SafeStorage | store/sending.go:17-54 | so what a program finds after any sound sends, deaths, recoveries and answers: a draft with no marker never went out, a message that went out and has no marker is settled, and only messages that went out are filed as sent |
| Outbox.RecoveryConverges | store/sending.go:156-183 | a second recovery changes no marker, draft or copy |
| Outbox.RecoverySettles | store/sending.go:156-183 | each decided message has exactly its copy, no draft and no marker; if no two markers share a draft, undecided messages keep theirs |
| Order.Trichotomy | store/mail.go:99 | names are totally ordered |
| Order.BeforeWhen | store/mail.go:99 | a name comes before another if and only if it ends, or has the smaller character, where they first differ |
| Order.Sorted | store/mail.go:91-101 | the names in ascending order, each once |
| Keys.KeyInReads | core/folder.go:91-118 | base name and folder can be read back from every key made of them |
| Keys.KeyInWrites | core/folder.go:91-118 | a key below the root is remade from its folder and base name if and only if its folder is not an empty segment |
| Keys.ValidAgain | core/folder.go:65-75 | an accepted folder name is one segment that does not start with a dot, or empty; it is accepted again, and unchanged if and only if it does not end in a space |
| Keys.ValidFolderIs | core/folder.go:65-75 | which names are accepted: without the white space, and then the slashes, around it, a name is empty, or a letter and up to 39 letters, numbers, underscores, spaces, dots and hyphens |
| Keys.KeyForReads | core/folder.go:91-118 | a key made for an accepted folder name has the base name it was made with, and lies in that folder if and only if the name does not end in a space |
| Keys.SpaceBeforeSlash | core/folder.go:66-68 | such a name exists: a space before a slash survives the first check |
| Keys.NameOwn | core/folder.go:120-147 | a mail name in an accepted folder makes a key that is the mailbox's own |
| Keys.OwnWhen | core/folder.go:120-147 | a key is the mailbox's own if and only if it lies below the root, does not end in the suffix of markers and has no hidden part below the root |
| Keys.DecimalInjective | store/mail.go:406 | different numbers are written differently |
| Keys.DecimalReads | store/mail.go:406 | a number is written in decimal digits, which read back as the number, without zeros in front |
| Keys.CandidateIs | store/mail.go:399-408 | the number stands before the first dot of the base name, behind a hyphen, or at its end if there is none |
| Keys.CandidatesDiffer | store/mail.go:398-408 | the numbered candidates of a base name are pairwise distinct |
| Keys.TriedCount | store/mail.go:394-409 | n rounds try n different keys |
| Keys.FreeKey | store/mail.go:394-409 | the open-ended search ends: it returns the first free candidate, after at most one round more than there are keys; the key carries the base name it returns and lies in the folder the target is trimmed to |
| Mailbox.Mailbox.constructor | store/mail.go:62-88 | an empty mailbox whose index covers its bucket |
| Mailbox.Mailbox.Copy | s3fake/fake.go:154-171 | the body is at the target key, and nothing else changes; or nothing at all |
| Mailbox.Mailbox.Index | store/mail.go:91-101 | exactly the entries of the index, each once, sorted by key |
| Mailbox.Mailbox.Refresh | store/mail.go:181-237 | exactly the non-empty objects that are neither internal nor folder markers; entries with an unchanged ETag stay; each of the others is fetched, in the order of the keys, and shows what its body shows or, if this call failed, that it is unreadable; the three counts are the sizes of these sets; a failed listing changes nothing; afterwards the index agrees with the bucket and covers its mail |
| Mailbox.RefreshCovers | store/mail.go:181-237 | every refreshed index covers and backs the mail in its bucket, whatever folder markers, empty objects and own files lie there: the condition under which moves and rules lose nothing |
| Mailbox.RefreshIsRebuild | store/mail.go:181-256 | if an ETag fixes the body and every entry is current for its ETag, refreshing is rebuilding from scratch |
| Mailbox.PlaceholderStays | store/mail.go:241-256 | a message that could not be fetched once stays unreadable until its ETag changes |
| Mailbox.Mailbox.MoveOne | store/mail.go:324-377 | the copy lies under the first candidate that is free in the index; the entry follows, with key, base name and folder changed and all else as it was, only if both calls went through; nothing else changes in the index, and the state follows exactly if the base name changed; a failure is a call that failed, and a copy that is there is named |
| Mailbox.Mailbox.MoveAll | store/mail.go:312-379 | what Move promises, for the loop with its counter of failures in a row and its lists of names to retire |
| Mailbox.Mailbox.Move | store/mail.go:302-386 | under any failures of copy and delete and for any folder name, also one that ends in a space: every message of the index can be followed through the results; where they take it, it lies with its body and its entry, in which at most key, base name and folder have changed, to the folder asked for, and its key lies in that folder without the trailing space; no two messages end at the same key and the index has no other entries; only messages that were asked for and lay elsewhere are moved, all of them if every call goes through, and each failure reported is a call that failed. If the index backs the mail, as after every refresh, no body of any object is lost and own files and folder markers are untouched; it gives up after ten failures in a row, exactly the moved messages lose their numbers, and without an error every known key is reported; entries keep naming their folders if and only if the name does not end in a space or nothing moved; for the other names every non-empty body is still at its own key or at its reported and indexed new key, and keys not asked for are untouched |
| Mailbox.MoveSparesWhen | store/mail.go:372-376 | entries go by base name alone: a move leaves the entries of all other messages alone if and only if the base name stayed, the moved message has no entry, no other message has the new name, or that one has the same entry anyway |
| Mailbox.ThirdFolder | store/mail.go:372-376 | for any three folders and any base name, in two of them, whose first variant lies in the third: moving the one to the other, with nothing failing, renames it to the variant and gives its entry to the message in the third folder |
| Mailbox.CopyBacked | store/mail.go:345-350 | a copy to a mail key that is free in the index overwrites at most an empty object or one whose body is also at an indexed key |
| Mailbox.CoveredIsBacked | store/mail.go:181-237 | an index that covers the mail backs it |
| Mailbox.DeleteBacked | store/mail.go:351-369 | deleting the source after the copy loses no body and leaves all mail indexed or duplicated at an indexed key |
| Mailbox.NewKeyIsFree | store/mail.go:394-409 | a key that is free in the index is taken by no mail in the bucket, at most by an empty object |
| Mailbox.Deleted | store/mail.go:344-369 | deleting the source keeps every non-empty body at its key or at a reported key |
| Mailbox.Mailbox.RetireAll | store/mail.go:381-384 | exactly the listed names lose their numbers in their folders, whatever order the folders are walked in |
| Rules.PlanRules | core/rules.go:97-147 | one action for each message that is not ruled yet, or for each if forced; nothing if no rule is enabled |
| Rules.Decide | core/rules.go:116-143 | only the mark in trash, spam, sent and drafts, unless forced, and where no rule matches; else the tags and flags of the first matching enabled rule, and its folder if the message is not there already |
| Rules.NothingToFile | core/rules.go:106-110 | messages that are all ruled leave an empty plan |
| Rules.PlanCovers | core/rules.go:103-147 | every message that is not ruled has an action under its key, and every action has its message |
| Rules.PlanInOrder | core/rules.go:103-147 | over messages in the order of their keys the actions are in this order, too, each for one of the messages, and none takes a flag away |
| Mailbox.MarkSays | store/mail.go:555-571 | the ops of an action say exactly what the action says about its message and leave every other fact as it was |
| Mailbox.Mailbox.CarryOut | store/mail.go:555-578 | marks, tags and flags first, then the move, for which holds what Move says, then the new name in the state; an error if and only if there is no such folder or the key is not an own one |
| Mailbox.ActionTreats | store/mail.go:555-578 | after an action the entry of its message in the state, under the name it has then, has exactly the flags and tags it had with the action's on top |
| Mailbox.FiledNow | store/mail.go:572-578 | its message lies, with its body and its entry, where it was, or in the folder of the action if it was elsewhere and every call went through |
| Mailbox.MovedQueue | store/mail.go:372-376 | a message renamed on the way is as ruled under its new name |
| Mailbox.Mailbox.ApplyRules | store/mail.go:544-582 | the plan is that of PlanRules, over the given messages or the whole index, and its actions are carried out one after the other, each as CarryOut says, up to the first that cannot be; over the whole index, with every call going through, each message of the plan lies in the end where its action wants it, with body and entry, and all that was asked for is on its entry in the state, unless a later move gave its name to another message; without an error every message in the index is ruled afterwards, renamed ones included, whatever copies and deletes failed; if the index backs the mail, as after every refresh, no body is lost, error or not; the count is the number of moves carried out |
| Mailbox.PlanFiled | store/mail.go:544-582 | that this follows for every plan over a whole index: no action touches the message of another, and none is moved to where another one waits |
| Mailbox.FiledMeansNoPlan | store/mail.go:544-582 | so the plan for the new index is empty: filing is done once |

## Left out

- Encoder.Encode: the penalty of a symbol is an arbitrary function; that the first symbol of least score is returned is proved, not how the score is computed. SVG output and reading single modules are left out.
- Encoder.SymbolDecodes: the reader corrects no errors; that correction bytes are a codeword, and the only ones, is proved separately.
- ReedSolomon.Galois.Correction: up to 512 bytes, where the power table ends; the versions use at most 30.
- StateLog.EventTracked: exact replays are claimed only while local files and pending ops add nothing; with them the claim is about content, in `LogContent` and `Journal`, since early replays reorder tag lists and raise Validity.
- LogContent.EventFollowed: content leaves colours of tags, the order of tag lists and the numbering aside, and logs with real renames, for which it fails (`Absorption.NeverShowsWhen`, `State.RenameOverOwnFile`); runs with those are the subject of `LogTracing`, with the same view of content.
- StateLog.EventLossless: names are numbers with 0 for the empty watermark, as elements of a strict order; that a timestamp lies above the watermark is a condition on the run, not proved.
- DocumentLaws.ReplayHarmlessWhen: the direction from harmless to the condition is for ops with fewer than 2^32 names left out, as a full turn of Validity cannot be seen; `DocumentLaws.ReplayHarmlessFromStart` has no such bound.
- Histories.NeverReused: merges with local copies are not steps of these runs; they are in `Merging.EveryStoryKeeps` and `FileNumbers`.
- FileNumbers.LoadNumbers: its condition on the clean replay is sufficient; the exact one, `FileNumbers.LoadNumbersWhen`, speaks of the turns of the second replay, and of numbers and reverse index, not of Next and Validity. It also takes Validity not to fall in the ops the file is ahead by.
- FileNumbers.LoadNumbersWhen: no counter of the folder wraps around to 0 on the way; so in `LoadNumbers`.
- State.State.Load: bodies are fetched in key order instead of concurrently. Local file and bucket start empty; a file left by a program that died is part of `LogContent`, where it may hold anything.
- State.IssuedInOrder: the bucket can be read throughout; when bodies or the snapshot cannot, ops do get lost (`LogLimits.UnreadOpIsLost`, `LogLimits.UnreadSnapshotIsLost`), and `State.WrittenInOrder` is what stays true.
- State.State.Save: one step, without other threads of the same process between taking the queue and putting it; a batch is the pair `Enter` and `Leave` around whatever is called inside.
- State.S3.PutOps: a failed call leaves the bucket as it was, as in `s3fake/fake.go`.
- Data.Data.Normalize: missing maps are empty ones, and the reverse index is a field that is there already; that rebuilding it gives it back is `Numbering.RebuiltIndex`.
- Data.Data.Apply: entries and folder numberings are values in maps that the methods assign again, so sharing of pointers and of tag lists between documents is not modelled, nor are null entries of hand-edited files. The classes `State` and `Mailbox` hold the document as a value.
- Histories.AssignOpNumbersAll: the order by arrival in which `store/uids.go` hands the names over is a parameter.
- SendProtocol.EventHarmless: markers and copies go by the base name made from the Message-ID, messages are not empty, and every send has a base name of its own; making base names is not part of this model. Users do not edit the sent folder.
- Outbox.Outbox.Send: what the mail service answers is a parameter, and so is its id. Flags and index entries of the copy and the dropped draft are left out.
- Mailbox.Mailbox.Move: changes of the state cannot fail here; that failing puts lose none of them is the subject of `State`. The object's encryption and storage class are left out.
- Mailbox.Mailbox.constructor: the cached index is left out; it may hold any entries, which is where `Refresh` starts from.
- Mailbox.Mailbox.Refresh: what is shown of a message is an uninterpreted function of its body; loading the state first is the subject of `State`.
- Rules.PlanRules: whether a rule matches a message is a parameter; so are, in `Keys`, the character classes letter, number and white space.
- Cleaning of rules that come from the interface, deleting mail, emptying the trash, search, contacts, suggestions, filters, follow-ups and import: filters and sorts with easy claims.
- Caches on disk, JSON, encryption, keychains, pairing, push, the assistant for the first start, HTTP, parsing and composing of messages: mostly calls into libraries.

# PLEIADES SAMMY files in Dafny

PLEIADES prepares input for SAMMY, a multilevel R-matrix code that fits
neutron resonance data, and reads back what SAMMY writes. This project
models the parts of it that read, edit and write SAMMY's fixed-column text
files:

- `ParFile`, the SAMMY parameter file. `read` scans the file into five
  sections: particle pairs, spin groups, resonances, channel radii and
  isotopic masses. Each card is decoded into a record through its column
  registry. The object can rename its particle pairs, renumber its spin
  groups and `igroup`s, stamp an isotopic weight, lay out the isotopic-mass
  card, be added to another file to form a compound, and write itself back
  out.
- The input-file cards of the current input module (Cards 1, 2, 3, 6, 8
  and 10).
- The older input module: a table of defaults merged with a
  configuration, a command list rewritten for resolution functions and
  ENDF input, and one line per card.
- The stand-alone input library's Cards 1 and 2.
- Three line scanners:
  - the AME mass-table and isotope-info lookups of the nuclear-data module;
  - the cross-section reader of the simulation-data module;
  - the command-block and statistics readers of the LPT output file.

A file is the sequence of lines Python yields when it iterates over it:
each line keeps its newline, and the last may lack one. A configuration is
a map of sections to maps of options. Every Python exception is an error
value: `None`, a `false` flag, or an error constructor.

Stateful source objects are Dafny classes whose methods are proved against
value-level functions. Those objects are `ParFile`, the input cards and
`InputFile`, `LptFile` and `Isotope`. Every loop of the source is a
`method` with a `while` loop whose `ensures` ties it to a specification
function. The lemmas prove what the source promises about those functions.

The modules are:

| module | covers |
|---|---|
| `Text` | Python string operations |
| `ParFormat` | column registries and record codec |
| `ChannelRadii` | channel-radii cards |
| `ParScan` | the `read` scanner |
| `ParData` | parsing and writing sections |
| `ParEdit` | renaming and renumbering |
| `ParWeight` | weights and the isotopic card |
| `ParKeys` | records keep every registry field |
| `ParLoops` | the in-place edit loops |
| `ParFileModel` | the `ParFile` class |
| `ParRoundTrip`, `ParSpinBack`, `ParScanBack`, `ParFileBack`, `ParFileTrip` | the whole-file round trips |
| `CardFormat`, `InputCards` | current input module |
| `OldInput` | older input module |
| `LibInput` | input library |
| `NucData` | nuclear data |
| `SimData` | simulation data |
| `LptOutput` | SAMMY output |

## Model

| member | source | states |
|---|---|---|
| ParFormat.Decode | pleiades/sammyParFile.py:469-472 | Every `_read_*` builds a record that has every field of its registry. |
| ParFormat.DecodeValue | pleiades/sammyParFile.py:423-426 | With distinct field names, each decoded value is exactly the clamped slice `line[start:stop]`, so a short line gives a short or empty field and never an error. |
| ParFormat.DecodeFits | pleiades/sammyParFile.py:439-442 | On a line at least as wide as the registry, every decoded value is its full slice and fits its field. |
| ParFormat.DecodeExtend | pleiades/sammyParFile.py:405-408 | Text past the last slice does not change the decoded record. |
| ParFormat.OwnerIsLast | pleiades/sammyParFile.py:49-59 | The field that owns a column is the last registry field covering it, and a column has no owner exactly when no field covers it. |
| ParFormat.RegistryNamesDistinct | pleiades/sammyParFile.py:31-77 | None of the five registries repeats a field name. |
| ParFormat.SliceAssign | pleiades/sammyParFile.py:429-436 | Python slice assignment changes the buffer's length by the difference between the new text and the replaced range. |
| ParFormat.SliceAssignShape | pleiades/sammyParFile.py:445-452 | A slice assignment keeps the text before the range, places the new text, and moves the rest after it. |
| ParFormat.EncodeRecord | pleiades/sammyParFile.py:475-482 | The `_write_*` loop over the registry, filling each field's slice in registry order, gives the specification `Encoded`. |
| ParFormat.EncodeParticlePair | pleiades/sammyParFile.py:410-420 | `_write_particle_pairs` fills the three-line template, then removes the space after each newline. |
| ParFormat.EncodedLength | pleiades/sammyParFile.py:489-496 | When every value fits its field, the encoded line is as wide as its base: 80 columns for cards. |
| ParFormat.EncodedAt | pleiades/sammyParFile.py:429-436 | Each column of an encoded line holds the left-justified text of the last field covering it, or the base's character where no field covers it. |
| ParFormat.EncodeDecode | pleiades/sammyParFile.py:469-482 | A line whose uncovered columns match the base decodes and re-encodes to exactly itself. |
| ParFormat.EncodeIdempotent | pleiades/sammyParFile.py:475-482 | Decoding a written line and writing the result again gives the same line. |
| ParFormat.ResonanceIgroupWins | pleiades/sammyParFile.py:49-59 | `igroup` is written last over columns 55-66, so a written resonance line carries the `igroup` text in those columns. |
| ParFormat.ResonanceFlagFromIgroup | pleiades/sammyParFile.py:469-482 | Each of the five vary flags read back from a written resonance line is the piece of the `igroup` text over that flag's columns. |
| ParFormat.PairWritten | pleiades/sammyParFile.py:410-420 | A written particle pair is 199 characters with newlines after columns 62 and 114. It is three newline-free lines: the first starts with `Name`, the other two start with a space and are not blank. |
| ChannelRadii.MatchGroup | pleiades/sammyParFile.py:346-382 | The group pattern, tried at the front of a card, captures a non-empty run of digits as the group number. |
| ChannelRadii.SearchGroup | pleiades/sammyParFile.py:346-382 | `re.search` of the group pattern captures a non-empty digit run when it matches. |
| ChannelRadii.ParseChannels | pleiades/sammyParFile.py:354-382 | The channel list parses as one integer per comma-separated piece, each piece read by `int()`. |
| ChannelRadii.ParseChannelRadiiCards | pleiades/sammyParFile.py:346-382 | The nested `while` loops over the card generator compute the specification `ParseRadii`. |
| ChannelRadii.ReadRadii | pleiades/sammyParFile.py:354-382 | The outer loop computes `RadiiLoop` from the first card on. |
| ChannelRadii.ReadGroupCards | pleiades/sammyParFile.py:365-380 | The inner loop either fails as the specification does, or hands the outer loop its position and the completed record. |
| ChannelRadii.RadiusLines | pleiades/sammyParFile.py:455-466 | A record is written as one radii line followed by one line per channel group. |
| ChannelRadii.WriteChannelRadii | pleiades/sammyParFile.py:455-466 | `_write_channel_radii` returns exactly `RadiusLines`. |
| ChannelRadii.ChannelsReadBack | pleiades/sammyParFile.py:455-466 | Non-negative channels joined by `", "` split at the commas and parse back to the same list. |
| ChannelRadii.GroupCardReads | pleiades/sammyParFile.py:455-466 | A written group card matches the group pattern and yields back its group number and channels. |
| ChannelRadii.RadiiCardReads | pleiades/sammyParFile.py:455-466 | A written radii card matches the radii pattern and yields back its two radii and two flags. |
| ChannelRadii.ChannelRadiiRoundTrip | pleiades/sammyParFile.py:346-382 | Records that can be written come back unchanged when their cards are parsed: radii of digits and dots, digit flags, and each group with at least one channel. |
| ParScan.ReadPairBlock | pleiades/sammyParFile.py:99-112 | The particle-pair `while` loop computes `PairWalk`. It stops at the blank line that ends the block, and fails when the file runs out (`next` raises). |
| ParScan.ReadBlock | pleiades/sammyParFile.py:116-121 | The `while line.strip()` loop of a block computes `BlockWalk`. |
| ParScan.PairsStep | pleiades/sammyParFile.py:97-112 | The particle-pair `if` computes `PairsIf`. |
| ParScan.SimpleStep | pleiades/sammyParFile.py:123-130 | The spin-group, resonance and isotope `if`s compute `SimpleIf`. |
| ParScan.RadiiStep | pleiades/sammyParFile.py:133-139 | The channel-radii `if` computes `RadiiIf`. |
| ParScan.BodyStep | pleiades/sammyParFile.py:94-147 | One pass of the loop body either raises, which makes the whole scan raise, or moves to a later line with a new state. |
| ParScan.ScanFile | pleiades/sammyParFile.py:94-147 | The `for line in fid` loop of `read` computes `ScanLines`. |
| ParData.ParseRecordCards | pleiades/sammyParFile.py:303-310 | `_parse_particle_pairs_cards`, `_parse_resonance_params_cards` and `_parse_isotopic_masses_cards` decode each card, in order. |
| ParData.GroupAt | pleiades/sammyParFile.py:312-343 | A group read at card `i` ends after `i` and within the cards. |
| ParData.ReadChannels | pleiades/sammyParFile.py:329-336 | The `for n in range(n_channels)` loop takes one card per channel, and fails when the cards run out. |
| ParData.ReadGroup | pleiades/sammyParFile.py:318-340 | One pass of the group loop computes `GroupAt`. |
| ParData.ParseSpinGroupCards | pleiades/sammyParFile.py:312-343 | `_parse_spin_group_cards` computes `SpinGroups`. |
| ParData.SpinGroupsKeyed | pleiades/sammyParFile.py:312-343 | Parsed groups have every field of their registries. |
| ParData.ParseCardsKeyed | pleiades/sammyParFile.py:156-160 | Parsing keeps every record of every section keyed. |
| ParData.WritePairs | pleiades/sammyParFile.py:188-189 | The pair loop of `write` emits `PairLines`. |
| ParData.WriteCards | pleiades/sammyParFile.py:210-227 | The resonance and isotope loops emit one encoded card per record. |
| ParData.WriteChannels | pleiades/sammyParFile.py:201-207 | The channel loop emits `ChannelLines`, and fails when a counted channel is missing. |
| ParData.WriteGroup | pleiades/sammyParFile.py:201-207 | One group is written as its header card and its counted channel cards. |
| ParData.WriteSpinGroups | pleiades/sammyParFile.py:201-207 | The spin-group section is `SpinLines`. |
| ParData.SpinLinesFailed | pleiades/sammyParFile.py:201-207 | A group that cannot be written makes every longer group list unwritable. |
| ParData.WriteRadii | pleiades/sammyParFile.py:214-217 | The radii section is every record's `RadiusLines`, in order. |
| ParData.WriteLines | pleiades/sammyParFile.py:174-231 | `write`, up to the text handed to the file, is `WrittenLines`: the sections as the source writes them, ending the isotopic block with `""`. |
| ParSpinBack.CardReadBack | pleiades/sammyParFile.py:423-436 | The record read back from a written card has every field. |
| ParSpinBack.FieldReadBack | pleiades/sammyParFile.py:429-436 | A field whose columns no other field writes reads back as its value, left-justified to its width. |
| ParSpinBack.IntFieldReadBack | pleiades/sammyParFile.py:312-343 | An integer column that no other field writes reads back as the same integer. |
| ParSpinBack.CountReadBack | pleiades/sammyParFile.py:318-330 | A spin-group card read back counts the same number of channels. |
| ParSpinBack.CardWritesBack | pleiades/sammyParFile.py:423-436 | A written card read back writes the same card. |
| ParSpinBack.CardLinesReadBack | pleiades/sammyParFile.py:385-402 | Decoding written cards gives the records read back. |
| ParSpinBack.CardLinesShape | pleiades/sammyParFile.py:475-496 | Written cards of good records are 80 columns wide, have no newline, and are not blank. |
| ParSpinBack.CardLinesWriteBack | pleiades/sammyParFile.py:475-496 | Records read back write the same cards. |
| ParSpinBack.GroupLinesShape | pleiades/sammyParFile.py:201-207 | Every line of a good group is an 80-column card with no newline that is not blank. |
| ParSpinBack.GroupReadBackLines | pleiades/sammyParFile.py:312-343 | A group read back writes the same lines. |
| ParSpinBack.GroupAtWritten | pleiades/sammyParFile.py:312-343 | A good group's written lines, found at card `i`, are read back as that group, and parsing goes on after them. |
| ParSpinBack.GroupReadBackOk | pleiades/sammyParFile.py:312-343 | A group read back from its written lines is a good group with exactly the channels written. |
| ParSpinBack.GroupAtSplits | pleiades/sammyParFile.py:318-340 | A group read at card `p` that ends at `q` is the header card at `p` followed by exactly the channel cards it counts. |
| ParSpinBack.SpinGroupsPartition | pleiades/sammyParFile.py:312-343 | `_parse_spin_group_cards` yields `gs` exactly when the cards split, from the first card to the last, into the groups of `gs` one after another. |
| ParSpinBack.SpinGroupsOfWritten | pleiades/sammyParFile.py:312-343 | The written spin-group section parses back as the groups read back. |
| ParSpinBack.GroupsReadBackLines | pleiades/sammyParFile.py:201-207 | Groups read back are good and write the same spin-group section. |
| ParFileTrip.SectionCards | pleiades/sammyParFile.py:174-231 | Every section of storable data is written as a run of cards, and the radii section is not empty. |
| ParFileTrip.ReadBack | pleiades/sammyParFile.py:156-160 | The data read back from a stored file keeps the radii unchanged and has every section. |
| ParFileTrip.ScanFileLines | pleiades/sammyParFile.py:94-147 | The scan of `read` over the text of stored data, with the isotopic block closed by a blank card, yields the cards of every section. |
| ParFileTrip.ParseStored | pleiades/sammyParFile.py:156-160 | Parsing those cards succeeds and gives the data read back, whatever the object held before. |
| ParFileTrip.ReadStored | old/tests/test_sammyParFile.py:99-112 | `read` with `name="none"` of that text succeeds and keeps the name. |
| ParFileTrip.ReadBackWrites | pleiades/sammyParFile.py:174-231 | Data read back writes exactly the lines of the data it came from. |
| ParFileTrip.WriteReadWrite | old/tests/test_sammyParFile.py:115-130 | Write, read with `name="none"`, write again: the second text equals the first. |
| ParFileTrip.WrittenNoIsotopes | pleiades/sammyParFile.py:223-227 | Without isotopic masses, the source's writer and the closed writer emit the same lines. |
| ParFileTrip.ScanWrittenLines | pleiades/sammyParFile.py:223-227 | With isotopic masses, the text the source writes ends right after the last card, so the scan runs off the end of the file. |
| ParFileTrip.ReadWrittenFails | pleiades/sammyParFile.py:142-147 | Reading that text fails, and the object's data and name are left as they were. |
| ParEdit.UpdateFromSpec | pleiades/sammyParFile.py:498-513 | An in-place update loop that stops at the first record `int()` refuses changes exactly the records before it, keeps the rest, and reports success exactly when none was refused. |
| ParEdit.UpdateAll | pleiades/sammyParFile.py:515-525 | When every record can be updated, the loop succeeds and updates each one. |
| ParEdit.UpdateThen | pleiades/sammyParFile.py:498-525 | Two update passes equal one pass of the composed update. |
| ParEdit.ParseNumeral | pleiades/sammyParFile.py:507-508 | A number right-justified to its width reads back as itself. |
| ParEdit.BumpWithAdds | pleiades/sammyParFile.py:504-508 | Bumping a field that reads as `v` stores the text of `v + inc`, which reads back as `v + inc`. |
| ParEdit.RecordsBumpAdds | pleiades/sammyParFile.py:519-524 | Bumping records whose field reads as `vals` succeeds and leaves fields that read as `vals` plus `inc`. |
| ParEdit.GroupBumpCompose | pleiades/sammyParFile.py:498-513 | Bumping a group by `a` and then by `b` equals bumping it by `a + b`. |
| ParEdit.BumpGroupNumbersAdds | pleiades/sammyParFile.py:498-513 | `_bump_group_number` adds `inc` to every group number and shifts the radius group ids by `inc`. It succeeds exactly when there are radii and changes nothing else. |
| ParEdit.BumpGroupNumbersPartial | pleiades/sammyParFile.py:498-513 | When a group number does not parse, the groups before it are bumped, it and the rest are kept, and the call fails. |
| ParEdit.BumpGroupNumbersCompose | pleiades/sammyParFile.py:498-513 | Bumping group numbers by `a` and then by `b` equals bumping them by `a + b`. |
| ParEdit.BumpIgroupNumbersAdds | pleiades/sammyParFile.py:515-525 | `_bump_igroup_number` adds `inc` to every `igroup` and changes nothing else. |
| ParEdit.RenameInGroups | pleiades/sammyParFile.py:248-258 | Renaming a pair in the spin groups touches only their channel lists. |
| ParEdit.IterationNames | pleiades/sammyParFile.py:240-247 | Pair `k` of `n` gets the name the loop computes for it. |
| ParEdit.LastNames | pleiades/sammyParFile.py:262-263 | The last loop of `_rename` gives every pair the name computed last. |
| ParEdit.ChannelUntouched | pleiades/sammyParFile.py:248-258 | A channel that names none of the remaining pairs is left unchanged. |
| ParEdit.ChannelFollowsPair | pleiades/sammyParFile.py:248-258 | A channel naming pair `p` takes pair `p`'s new name. |
| ParEdit.RenameKeepsReferences | pleiades/sammyParFile.py:233-265 | In the corrected rename, a channel that named a pair names that pair's new name, and a channel that named no pair is unchanged. |
| ParEdit.RenamedShape | pleiades/sammyParFile.py:233-265 | The corrected rename succeeds exactly when there are pairs and spin groups. It gives pair `k` its new name and keeps the other sections, the group headers and the channel counts. |
| ParEdit.RenameAsWrittenDangles | pleiades/sammyParFile.py:262-263 | Pairs "A" and "B" become "X_2" and "X_2" while their channels become "X_1" and "X_2". |
| ParEdit.RenameFirstOfTwo | pleiades/sammyParFile.py:248-258 | Of two channels, only the one matching the old name (after stripping) is renamed. |
| ParEdit.RenameSecondOfTwo | pleiades/sammyParFile.py:248-258 | The same, when the second channel is the one that matches. |
| ParKeys.BumpGroupNumbersKeyed | pleiades/sammyParFile.py:498-513 | Bumping group numbers keeps every record keyed. |
| ParKeys.BumpIgroupNumbersKeyed | pleiades/sammyParFile.py:515-525 | Bumping `igroup`s keeps every record keyed. |
| ParKeys.RenamedKeyed | pleiades/sammyParFile.py:233-265 | Renaming keeps every record keyed. |
| ParWeight.ReweightedSpec | pleiades/sammyParFile.py:528-532 | `_update_isotopic_weight` succeeds exactly when there are spin groups. It sets every group's abundance to the weight right-justified to 10 and changes nothing else. |
| ParWeight.ReweightedIdempotent | pleiades/sammyParFile.py:528-532 | Stamping the weight twice equals stamping it once. |
| ParWeight.ReweightedKeyed | pleiades/sammyParFile.py:528-532 | Stamping keeps every record keyed. |
| ParWeight.GroupNumbersInSlots | pleiades/sammyParFile.py:540-543 | Group numbers of at most two characters are laid out in consecutive two-character slots. |
| ParWeight.GroupNumbersMissing | pleiades/sammyParFile.py:540-543 | A group without a number makes the layout fail (`KeyError`). |
| ParWeight.ChunksCover | pleiades/sammyParFile.py:544-547 | The 46-character pieces concatenate back to the text, and all but the last are full. |
| ParWeight.GroupListIsJoin | pleiades/sammyParFile.py:544-547 | The corrected group list is every 46-character piece, joined by the continuation marker. |
| ParWeight.GroupListEven | pleiades/sammyParFile.py:544-547 | When the length is a multiple of 46, the loop as written agrees with the corrected one. |
| ParWeight.GroupListAsWrittenDrops | pleiades/sammyParFile.py:544-547 | For 46 < length < 92, the loop as written keeps only the first piece, while the corrected one keeps both. |
| ParWeight.RestampedCards | pleiades/sammyParFile.py:549-551 | Existing isotopic cards only get the weight as abundance, and nothing else changes. |
| ParWeight.NewIsotopeCard | pleiades/sammyParFile.py:535-554 | With no isotopic card, one is made from the first pair's `mass_b`, the weight and the group list. It fails exactly when a group number or the pair is missing. |
| ParWeight.UpdatedIsotopesStable | pleiades/sammyParFile.py:535-554 | Updating the isotopic cards twice equals updating them once. |
| ParWeight.UpdatedIsotopesKeyed | pleiades/sammyParFile.py:535-554 | The update keeps every record keyed. |
| ParLoops.BumpSpinGroups | pleiades/sammyParFile.py:500-509 | The group loop of `_bump_group_number` computes the stop-at-first-failure update. |
| ParLoops.ShiftChannelGroups | pleiades/sammyParFile.py:510-512 | The channel-group loop adds `inc` to every group id. |
| ParLoops.ShiftRadii | pleiades/sammyParFile.py:510-512 | The radii loop shifts every record's group ids. |
| ParLoops.BumpGroups | pleiades/sammyParFile.py:498-513 | `_bump_group_number` computes `BumpGroupNumbers`. |
| ParLoops.BumpResonances | pleiades/sammyParFile.py:517-524 | The resonance loop bumps `igroup` at width 12 and stops at the first failure. |
| ParLoops.BumpIgroups | pleiades/sammyParFile.py:515-525 | `_bump_igroup_number` computes `BumpIgroupNumbers`. |
| ParLoops.RenameChannels | pleiades/sammyParFile.py:254-258 | The channel loop renames every channel whose stripped name matches. |
| ParLoops.RenameGroups | pleiades/sammyParFile.py:252-258 | The group loop renames the channels of every group. |
| ParLoops.RenamePairs | pleiades/sammyParFile.py:233-265 | The loops of `_rename`, as written, compute `RenamedAsWritten`. |
| ParLoops.StampGroups | pleiades/sammyParFile.py:530-532 | The loop sets every group's abundance to the given text. |
| ParLoops.StampCards | pleiades/sammyParFile.py:549-551 | The loop sets every isotopic card's abundance to the given text. |
| ParLoops.LayOutGroups | pleiades/sammyParFile.py:544-547 | The piece loop, as written, computes `GroupListAsWritten`. |
| ParFileModel.RFind | pleiades/sammyParFile.py:86 | The index of the last occurrence of a character, or -1 when it is absent: the search `pathlib.Path` makes for the last separator and the last dot. |
| ParFileModel.StemOfPath | pleiades/sammyParFile.py:240-246 | The stem of `dir/stem.ext` is `stem`. |
| ParFileModel.ParseSections | pleiades/sammyParFile.py:156-160 | The five `_parse_*` calls compute `ParseCards`. |
| ParFileModel.Reweigh | pleiades/sammyParFile.py:528-532 | Computes `Reweighted`. |
| ParFileModel.UpdateIsotopes | pleiades/sammyParFile.py:535-554 | Computes the as-written `UpdatedIsotopesAsWritten`. |
| ParFileModel.JoinData | pleiades/sammyParFile.py:285-297 | The list extensions of `__add__` compute `Joined`. |
| ParFileModel.ParFile.constructor | pleiades/sammyParFile.py:10-77 | A new object stores its file name, name and weight and has no data. |
| ParFileModel.ParFile.Copy | pleiades/sammyParFile.py:277-278 | A deep copy holds the same values. |
| ParFileModel.ParFile.Read | pleiades/sammyParFile.py:80-171 | `read` leaves the data, name and outcome given by `ReadResult`, and the stem of the file name. |
| ParFileModel.ParFile.Load | pleiades/sammyParFile.py:156-160 | Parsing the scanned cards updates only the data, as `ParseCards` says. |
| ParFileModel.ParFile.Adjust | pleiades/sammyParFile.py:162-169 | The rename and the two weight updates at the end of `read`, as `Adjusted` says. |
| ParFileModel.ParFile.Rename | pleiades/sammyParFile.py:233-265 | `_rename` as written: on success the data and name of `RenameResult`, on failure nothing changes. |
| ParFileModel.ParFile.BumpGroupNumber | pleiades/sammyParFile.py:498-513 | The data and outcome of `BumpGroupNumbers`; the other fields are unchanged. |
| ParFileModel.ParFile.BumpIgroupNumber | pleiades/sammyParFile.py:515-525 | The data and outcome of `BumpIgroupNumbers`; the other fields are unchanged. |
| ParFileModel.ParFile.UpdateIsotopicWeight | pleiades/sammyParFile.py:528-532 | Succeeds exactly when `Reweighted` does, and stores its data. |
| ParFileModel.ParFile.UpdateIsotopicMassesAbundance | pleiades/sammyParFile.py:535-554 | Succeeds exactly when the as-written update does, and stores its data. |
| ParFileModel.ParFile.Write | pleiades/sammyParFile.py:174-231 | The lines are `WrittenLines` of the data, the source's own layout. |
| ParFileModel.ParFile.Add | pleiades/sammyParFile.py:268-299 | `__add__` returns a fresh compound holding `AddResult`, or nothing where it raises, and leaves the argument bumped as `AddResult` says. |
| ParFileModel.ParFile.AddBumpedInto | pleiades/sammyParFile.py:280-299 | The compound step over an already bumped argument, as `AddBumped` says. |
| ParFileModel.JoinedKeyed | pleiades/sammyParFile.py:285-297 | Joining keyed data gives keyed data. |
| ParFileModel.AddedKeyed | pleiades/sammyParFile.py:268-299 | Adding keyed files gives a keyed compound and a keyed argument. |
| ParFileModel.ParsedKeyed | pleiades/sammyParFile.py:156-160 | A successful parse gives keyed data. |
| ParFileModel.AdjustedStamps | pleiades/sammyParFile.py:162-169 | After a successful adjustment, every group abundance is the weight right-justified to 10, and there is at least one isotopic card, whose abundance is the weight justified to 10. |
| ParFileModel.ReadStampsWeight | pleiades/sammyParFile.py:80-171 | A successful `read` with a name other than "none" stamps the weight into every group and isotopic card. |
| ParFileModel.AddContinuesNumbering | pleiades/sammyParFile.py:268-299 | The compound keeps the first file's isotopes. It appends the argument's pairs, radii, groups and resonances, with group numbers and `igroup`s continuing after the first file's last ones. |
| CardFormat.FormatA | pleiades/sammyInput.py:10-21 | Type A is the text left-justified to the width, never truncated. |
| CardFormat.FormatI | pleiades/sammyInput.py:37-47 | Type I is the decimal text right-justified to the width, never truncated. |
| CardFormat.FormatF | pleiades/sammyInput.py:23-35 | Type F is the rendered real right-justified to the width. |
| CardFormat.FormatIReadsBack | pleiades/sammyInput.py:37-47 | `int()` reads a type I field back as its integer. |
| CardFormat.FormatATrims | pleiades/sammyInput.py:10-21 | Right-stripping a type A field gives back a text that does not end in whitespace. |
| CardFormat.ConcatColumns | pleiades/sammyInput.py:154-170 | Fields of their exact widths, concatenated, each occupy their own columns. |
| CardFormat.Card2Layout | pleiades/sammyInput.py:154-170 | When every value fits, Card 2 is 79 columns and each of its 14 fields sits in its own columns. |
| CardFormat.Card2NameFirst | pleiades/sammyInput.py:154-170 | Card 2 starts with the element name. |
| CardFormat.Card2ReadsBack | pleiades/sammyInput.py:154-170 | Every integer field of Card 2, cut out by its columns, reads back as its value. |
| CardFormat.ConfigGet | pleiades/sammyInput.py:70-73 | `config.get` gives the option when it is present and the fallback otherwise. |
| CardFormat.ConfigGetInt | pleiades/sammyInput.py:135-152 | `config.getint` parses the option when it is present and gives the fallback otherwise. |
| CardFormat.ConfigGetFloat | pleiades/sammyInput.py:293-313 | `config.getfloat` parses the option when it is present and gives the fallback otherwise. |
| InputCards.Card1.constructor | pleiades/sammyInput.py:52-60 | The default title. |
| InputCards.Card1.FromConfig | pleiades/sammyInput.py:70-73 | The title from the configuration, or the default. |
| InputCards.Card1.Set | pleiades/sammyInput.py:62-68 | `set` stores the title. |
| InputCards.Card1.Str | pleiades/sammyInput.py:75-76 | The title left-justified to 80 columns: exactly 80 when it fits, padded with blanks. |
| InputCards.Card2Set | pleiades/sammyInput.py:101-133 | Each argument given replaces its attribute, and each one left `None` keeps it. |
| InputCards.Card2.constructor | pleiades/sammyInput.py:81-99 | The fourteen default attribute values. |
| InputCards.Card2.Set | pleiades/sammyInput.py:101-133 | `set` updates the attributes as `Card2Set` says. |
| InputCards.Card2.Str | pleiades/sammyInput.py:154-170 | 79 columns when every value fits. |
| InputCards.Card3Attribute | pleiades/sammyInput.py:213-216 | `hasattr`/`getattr` on a card: a predefined command name resolves to its keyword text. Apart from those, only `__doc__` and `__module__` resolve to texts; every other attribute, the card's own or inherited from `object`, resolves to itself. |
| InputCards.InheritedNameBreaksStr | pleiades/sammyInput.py:213-222 | A `commands` option naming `__class__` puts that object in the list, so `__str__` raises. |
| InputCards.MemberBreaksStr | pleiades/sammyInput.py:221-222 | One entry that is not a text makes the join of `__str__` raise. |
| InputCards.Resolved | pleiades/sammyInput.py:207-219 | One entry per comma-separated token, each resolved after stripping. |
| InputCards.Card3.constructor | pleiades/sammyInput.py:198-201 | No commands. |
| InputCards.Card3.AddCommand | pleiades/sammyInput.py:203-205 | Appends one command. |
| InputCards.Card3.ReadFromConfig | pleiades/sammyInput.py:207-219 | Appends the resolved tokens of the `commands` option, in order. |
| InputCards.Card3.ReadTokens | pleiades/sammyInput.py:211-219 | The token loop appends `Resolved(tokens)`. |
| InputCards.Card3.Str | pleiades/sammyInput.py:221-222 | The text exists exactly when every entry is a command text. |
| InputCards.CommandsTextLines | pleiades/sammyInput.py:221-222 | Card 3's text ends in a newline, and split at newlines it gives back the command texts. |
| InputCards.ConfigCommandsOfNames | pleiades/sammyInput.py:207-219 | Names joined by commas are read name by name: a predefined name becomes its keyword text, and an unknown name is kept stripped. |
| InputCards.EmptyConfigCommands | pleiades/sammyInput.py:207-219 | Without a `commands` option, the list is one empty command and the text is a single newline. |
| InputCards.CrunchFactors | pleiades/sammyInput.py:293-313 | Reading `BCF_i` and `CF_i` for `i` up to `NCF` gives lists of equal length, each entry the configured value or the fallback 0.0. |
| InputCards.CrunchPairs | pleiades/sammyInput.py:315-336 | The first `n` crunch-factor pairs, each as two 10-column fields. |
| InputCards.Card6.constructor | pleiades/sammyInput.py:276-291 | `DELTAG` comes from Card 5 when one is given. |
| InputCards.Card6.Configure | pleiades/sammyInput.py:293-313 | The configuration is read only when `DELTAG < 0`, appending `NCF` entries to each list. It fails exactly where `getfloat` or `getint` raises. |
| InputCards.Card6.Str | pleiades/sammyInput.py:315-336 | `__str__` computes `Card6Text`. |
| InputCards.CrunchLine | pleiades/sammyInput.py:327-334 | The pair loop fails exactly when `NCF` exceeds a list. Otherwise it gives the `NCF` pairs side by side. |
| InputCards.Card6ReadPrints | pleiades/sammyInput.py:293-336 | A card read from the configuration stores `NCF` factors of each kind, so it can be printed. |
| InputCards.Card6Layout | pleiades/sammyInput.py:315-336 | When `DELTAG < 0` and the values fit, Card 6 is a 15-column head (10 + 5), a newline, and `NCF` 20-column pairs. |
| InputCards.Card6PairColumns | pleiades/sammyInput.py:315-336 | Pair `k` sits at columns `16 + 20k` to `36 + 20k`. |
| InputCards.Card8.constructor | pleiades/sammyInput.py:370-379 | An empty cross-section text. |
| InputCards.Card8.ReadFromConfig | pleiades/sammyInput.py:381-392 | `CROSS` from the configuration, cut to 80 characters. |
| InputCards.Card8.Str | pleiades/sammyInput.py:394-400 | The text left-justified to 80 columns. |
| InputCards.Card8Width | pleiades/sammyInput.py:381-400 | Card 8 read from any configuration is exactly 80 columns and starts with as much of the configured text as fits. |
| InputCards.ParseInts | pleiades/sammyInput.py:426-437 | `list(map(int, …))` fails exactly when some token does not parse, and otherwise parses each token. |
| InputCards.Card10Config | pleiades/sammyInput.py:405-437 | The isotopes and the spin-group counts, which have equal lengths. |
| InputCards.Card10.constructor | pleiades/sammyInput.py:405-424 | Empty lists. |
| InputCards.Card10.Load | pleiades/sammyInput.py:419-437 | Succeeds exactly when the configuration gives lists of equal length, and stores them. On failure nothing changes. |
| InputCards.Card10.CreateSpinGroupString | pleiades/sammyInput.py:439-465 | Fails exactly when there are more isotopes than counts. Otherwise it gives one line per group over `Owners`, numbered from 1. |
| InputCards.SpinGroupString | pleiades/sammyInput.py:439-465 | The nested loops with the running group counter compute the numbered group lines. |
| InputCards.OwnersBlocks | pleiades/sammyInput.py:439-465 | The groups of isotope `i` are the `counts[i]` consecutive groups after those of the isotopes before it. There are as many groups as the counts add up to. |
| InputCards.GroupLinesNumbered | pleiades/sammyInput.py:439-465 | The spin-group text is one newline-terminated line per group: line `k` is numbered `first + k` and commented with its isotope. |
| InputCards.GroupLineFields | pleiades/sammyInput.py:450-460 | Each group line gives back its group number from columns 0-2 and its isotope from column 34. |
| OldInput.Defaults | old/pleiades/sammyInput.py:128-192 | The data `_set_default_params` fills. |
| OldInput.DefaultsContents | old/pleiades/sammyInput.py:128-192 | `data` has exactly the cards and parameters of the table, each set to its declared default. |
| OldInput.BuildDefaults | old/pleiades/sammyInput.py:185-192 | The nested loops compute `Defaults`. |
| OldInput.DefaultTableWellFormed | old/pleiades/sammyInput.py:128-184 | The declared table has distinct cards with distinct parameters. |
| OldInput.MergeKeepsShape | old/pleiades/sammyInput.py:194-200 | Merging a configuration adds and removes no card and no parameter. |
| OldInput.MergeSources | old/pleiades/sammyInput.py:194-200 | A merged value is the configuration's exactly where the configuration names an existing pair, and the old value otherwise. |
| OldInput.MergeIdempotent | old/pleiades/sammyInput.py:194-200 | Merging the same configuration twice equals merging it once. |
| OldInput.MergeIgnoresUnknown | old/pleiades/sammyInput.py:26-28 | A section naming no card, such as the deleted Card10, has no effect. |
| OldInput.MergeSection | old/pleiades/sammyInput.py:198-200 | The inner loop computes `MergeRow`. |
| OldInput.MergeConfig | old/pleiades/sammyInput.py:196-200 | The outer loop computes `Merge`. |
| OldInput.EditCommands | old/pleiades/sammyInput.py:256-264 | The corrected edit: the result holds no `FILE=` command, and a resolution block is set exactly when there was one. |
| OldInput.EditResolutionIsLast | old/pleiades/sammyInput.py:256-264 | The block is the one of the last `FILE=` command. |
| OldInput.EditIdentity | old/pleiades/sammyInput.py:256-264 | Without `FILE=` commands and without ENDF rewriting, the list is unchanged. |
| OldInput.EditIdempotent | old/pleiades/sammyInput.py:256-264 | The corrected edit, applied to its own result, changes nothing and sets no block. |
| OldInput.EditCommandList | old/pleiades/sammyInput.py:256-264 | The rewriting loop as intended, with every `FILE=` command taken out, computes `EditCommands`. |
| OldInput.PopWalkSkips | old/pleiades/sammyInput.py:258-262 | In one run of the update, the loop as written keeps the second of two `FILE=` commands and stores the first one's block. The corrected edit removes both and stores the second one's. |
| OldInput.PopWalkList | old/pleiades/sammyInput.py:256-264 | The loop as written, which pops from the list it enumerates, computes `EditAsWritten`. |
| OldInput.PopWalkKeepsPrefix | old/pleiades/sammyInput.py:256-262 | From any index on, the walk as written leaves the commands before that index as they are. |
| OldInput.PopWalkBlock | old/pleiades/sammyInput.py:258-261 | From any index on, the block the walk ends with is the one it had or that of a `FILE=` command at that index or later. |
| OldInput.PopWalkPopSkipsNext | old/pleiades/sammyInput.py:258-262 | For every list and index: when the walk pops a `FILE=` command at index `i`, the command after it ends up at index `i` unedited, even when it is itself a `FILE=` or an ENDF command. The stored block is the popped one's or that of a command further on, so never the skipped command's unless its text occurs again. |
| OldInput.ResolutionBlockInjective | old/pleiades/sammyInput.py:261 | Different `FILE=` commands give different resolution blocks. |
| OldInput.PopWalkTwiceSkips | old/pleiades/sammyInput.py:256-264 | With three `FILE=` commands, the two runs of the update (in `__init__`, then in `process` on the list joined back with commas) store the second one's block as written. The corrected edit stores the third one's. |
| OldInput.CalculateKeepsShape | old/pleiades/sammyInput.py:229-266 | With either edit, the update only overwrites parameters the data already has. |
| OldInput.CalculateOk | old/pleiades/sammyInput.py:229-266 | With either edit, the update returns normally exactly when the keys exist and the lookups succeed; the material number matters only when updating automatically. |
| OldInput.CalculateWeight | old/pleiades/sammyInput.py:246-249 | An `auto` atomic weight is replaced by the looked-up one, and only when updating automatically. |
| OldInput.SplitCommaJoined | old/pleiades/sammyInput.py:256-266 | Splitting a comma-joined list of comma-free texts gives the list back. |
| OldInput.CalculateTakesOutFiles | old/pleiades/sammyInput.py:256-266 | After the update with the corrected edit, the Card 3 list holds no `FILE=` command. As written a `FILE=` right after a popped one stays (`PopWalkPopSkipsNext`). |
| OldInput.ReEditJoined | old/pleiades/sammyInput.py:256-266 | With the corrected edit, re-splitting and re-editing the joined edited list gives the same text. |
| OldInput.CalculateAgain | old/pleiades/sammyInput.py:229-266 | With either edit, the update run again equals the first run whenever its command step run again does. |
| OldInput.CalculateIdempotent | old/pleiades/sammyInput.py:39-59 | With the corrected edit, running the update again, as `process` does after the constructor, changes nothing. As written it can change the list, since each run skips commands (`PopWalkTwiceSkips`). |
| OldInput.ExpandAgrees | old/pleiades/sammyInput.py:92-96 | On tokens without surrounding blanks, the expansion as written agrees with the corrected one. |
| OldInput.PaddedNameFails | old/pleiades/sammyInput.py:93-94 | The token " TWENTY" is found once stripped but looked up unstripped, so it raises as written. Corrected, it expands. |
| OldInput.MapAll | old/pleiades/sammyInput.py:92-96 | Each text mapped, in order. |
| OldInput.ExpandedAsWritten | old/pleiades/sammyInput.py:92-96 | The commands of a list expanded as `process` does: this fails exactly when one command raises `KeyError`, and otherwise each command is its lookup as written. |
| OldInput.ExpandCommands | old/pleiades/sammyInput.py:92-96 | The command loop of `process` computes `ExpandedAsWritten`, stopping at the first `KeyError`. |
| OldInput.ExpandedAgrees | old/pleiades/sammyInput.py:92-96 | On lists whose commands have no blanks around them, the expansion as written succeeds and equals the corrected one. |
| OldInput.CommandTextAgrees | old/pleiades/sammyInput.py:88-99 | The free-format card as written fails exactly when some command is a known name once stripped but unknown as written. Without padded commands it is the corrected card. |
| OldInput.CommandTextAsWrittenLines | old/pleiades/sammyInput.py:88-99 | The free-format card as written ends in a newline, and split at newlines it gives back the expanded commands. |
| OldInput.CommandTextLines | old/pleiades/sammyInput.py:88-99 | The corrected free-format card ends in a newline, and split at newlines it gives back the expanded commands. |
| OldInput.CardLineWith | old/pleiades/sammyInput.py:66-99 | A card line fails exactly when one parameter raises. That is a sized parameter that cannot be formatted (including a declared type other than str, int or float), or the free-format text. |
| OldInput.BuildCardLine | old/pleiades/sammyInput.py:66-99 | The inner loop of `process` computes `CardLine`, with Card 3 expanded as written: it fails on a padded known name. |
| OldInput.CardLineConcat | old/pleiades/sammyInput.py:66-86 | A card whose parameters are all sized and formattable is their texts side by side. |
| OldInput.CardLineColumns | old/pleiades/sammyInput.py:66-86 | With each piece of exactly its width, parameter `j` occupies the columns after the widths before it. |
| OldInput.IntPieceReadsBack | old/pleiades/sammyInput.py:298-309 | A sized integer parameter reads back from its piece as the same integer. |
| OldInput.CardLines | old/pleiades/sammyInput.py:58-102 | One line per card. It fails exactly when some card's line fails, including Card 3 on a padded known command name. |
| OldInput.BuildCardLines | old/pleiades/sammyInput.py:58-102 | The outer loop of `process` computes `CardLines`. |
| OldInput.Processed | old/pleiades/sammyInput.py:104-109 | The card lines, a line holding a newline, and the resolution block when one is set. |
| OldInput.UpdateValues | old/pleiades/sammyInput.py:229-266 | The steps of the update, with the command loop as written, compute `CalculateWith` with `EditAsWritten`. |
| OldInput.BuildProcessed | old/pleiades/sammyInput.py:45-112 | `process` after the update computes `ProcessedCardsWith`: no cards when a line fails, including Card 3 on a padded known command name. |
| OldInput.InputFile.constructor | old/pleiades/sammyInput.py:11-37 | `__init__` up to its last step: the defaults merged with the configuration, with Card10 removed first, and the predefined commands. |
| OldInput.NewInputFile | old/pleiades/sammyInput.py:11-43 | The whole of `__init__`: an object exists exactly when the final `_update_and_calculate_values(auto_update)` returns normally, and then it holds the data and resolution block of that update as written (`Calculate`, with the pop-during-enumerate loop). |
| OldInput.InputFile.SetDefaultParams | old/pleiades/sammyInput.py:128-192 | `data` becomes `Defaults` of the table, and nothing else changes. |
| OldInput.InputFile.UpdateDefaultParamsWithConfig | old/pleiades/sammyInput.py:194-200 | `data` becomes `Merge` of itself and the configuration. |
| OldInput.InputFile.SetPredefinedCommands | old/pleiades/sammyInput.py:204-227 | The predefined command table is stored. |
| OldInput.InputFile.UpdateAndCalculateValues | old/pleiades/sammyInput.py:229-266 | The data, resolution block and outcome of `Calculate`, the update with the loop as written. |
| OldInput.InputFile.Process | old/pleiades/sammyInput.py:45-112 | The update as written (`Calculate`), then the processed cards when every line can be formatted and Card 3 expands as written. |
| OldInput.InputFile.FormatCards | old/pleiades/sammyInput.py:58-109 | The formatting half of `process`: the processed cards, or none when a line fails, including Card 3 on a padded known command name. |
| LibInput.Card1.Str | libs/sammyInput.py:24-25 | The title left-justified to 80 columns; a longer title is kept whole. |
| LibInput.Card1ReadsBack | libs/sammyInput.py:24-25 | A title that does not end in blanks reads back from its card. |
| LibInput.Card2.Str | libs/sammyInput.py:44-60 | Card 2 is 79 columns when every value fits, starts with the element, and each integer field reads back as its value. |
| LibInput.WriteText | libs/sammyInput.py:62-70 | The text of each card followed by a newline. |
| LibInput.WriteTextLines | libs/sammyInput.py:62-70 | Read back line by line, the written file is the cards, one per line. |
| NucData.Keep | pleiades/nucData.py:83-88 | The characters that pass the test, in order. |
| NucData.GetInfo | pleiades/nucData.py:83-88 | `get_info` fails exactly when there is no digit. Otherwise the element is every non-digit character. |
| NucData.GetInfoOfSymbol | pleiades/nucData.py:83-88 | As written, "X-N" gives the element "X-" with the hyphen. |
| NucData.GetInfoFixed | pleiades/nucData.py:83-88 | Corrected: the element holds only symbol characters. |
| NucData.GetInfoFixedOfSymbol | pleiades/nucData.py:83-88 | Corrected, "X-N" gives the element X and the number N. |
| NucData.UraniumInfo | pleiades/nucData.py:83-88 | "U-238" gives "U-" as written and "U" corrected, both with 238. |
| NucData.SafeInt | pleiades/nucData.py:33-34 | A blank field reads as 0. |
| NucData.SafeIntOfColumn | pleiades/nucData.py:33-34 | A number right-justified in its column reads back as itself. |
| NucData.ParseAmeLine | pleiades/nucData.py:29-81 | Parsing fails exactly when the line is empty, an integer column does not parse, or the masses do not parse. `cc` is the first character and `el` the stripped columns 20-22. |
| NucData.ParseAmeText | pleiades/nucData.py:37-48 | A line laid out in the AME columns reads back every integer and text field. |
| NucData.LastMatch | pleiades/nucData.py:105-111 | A mass is found exactly when some candidate matches, and it is that of the last matching candidate. |
| NucData.SearchFound | pleiades/nucData.py:90-111 | The search finds a mass exactly when every candidate parses and some line is a matching candidate. |
| NucData.MassFromAmeMisses | pleiades/nucData.py:90-111 | As written, "X-N" finds nothing in a table whose element columns hold no hyphen. |
| NucData.MassFromAmeFixedSearches | pleiades/nucData.py:90-111 | Corrected, "X-N" searches for the element X itself. |
| NucData.NoneStaysNone | pleiades/nucData.py:103-106 | Once a candidate raises, the whole scan raises. |
| NucData.SearchBody | pleiades/nucData.py:103-111 | The two loops compute `Search`. |
| NucData.GetMassFromAme | pleiades/nucData.py:90-111 | `get_mass_from_ame` over the table lines computes the corrected lookup. |
| NucData.FirstRow | pleiades/nucData.py:3-27 | The scan is not found exactly when every line is skipped. Otherwise the first line that is not skipped decides between found and raises. |
| NucData.ExtractIsotopeInfo | pleiades/nucData.py:3-27 | The early-return loop computes `IsotopeInfo`. |
| SimData.Pair | pleiades/simData.py:21-23 | A data line is read exactly when it splits into two numbers. |
| SimData.Finish | pleiades/simData.py:27-31 | The not-found error is raised exactly when the isotope was never seen, and the bad-line error exactly when a line raised. |
| SimData.RunIsExpected | pleiades/simData.py:3-31 | The state machine, after any file, is in the state the block-by-block description gives. |
| SimData.ParseXsIsReference | pleiades/simData.py:3-31 | `parse_xs_file` returns exactly what the block-by-block description gives, on every file. |
| SimData.NotFoundIff | pleiades/simData.py:27-28 | The read raises not-found exactly when no line names the isotope. |
| SimData.RunSettled | pleiades/simData.py:17-19 | Once the loop has stopped or raised, later lines change nothing. |
| SimData.ReadLine | pleiades/simData.py:8-23 | One pass of the loop body is one step of the state machine. |
| SimData.ParseXsFile | pleiades/simData.py:3-31 | The loop computes `ParseXs`. |
| SimData.Isotope.constructor | pleiades/simData.py:35-43 | The name and file location, with no data. |
| SimData.Isotope.LoadXsData | pleiades/simData.py:45-49 | A read that raises leaves the data unchanged; an empty read is stored and then raises; otherwise the data is stored. |
| LptOutput.Lookup | pleiades/sammyOutput.py:73-92 | A key is found exactly when some pattern has it. |
| LptOutput.RegisteredSpec | pleiades/sammyOutput.py:73-92 | Registering gives the key its new pattern and keeps every other key's entry and the earlier keys' order. It grows the table exactly when the key is new. |
| LptOutput.PatternNoMatch | pleiades/sammyOutput.py:58-70 | Lines none of which starts with the start text keep the stored value. |
| LptOutput.LastMatchWins | pleiades/sammyOutput.py:58-70 | The value comes from the line `skipped_rows` after the last match. |
| LptOutput.MatchRunsOff | pleiades/sammyOutput.py:58-70 | A match too close to the end for its skipped rows raises. |
| LptOutput.StatsFails | pleiades/sammyOutput.py:53-70 | `stats` fails exactly when some pattern's pass fails. |
| LptOutput.StatsEntries | pleiades/sammyOutput.py:53-70 | The result holds exactly the keys whose pass matched, each with its pass's value. |
| LptOutput.BlockFrom | pleiades/sammyOutput.py:101-107 | A block ends at a line starting with the end marker. |
| LptOutput.BlockRun | pleiades/sammyOutput.py:101-107 | A block collects the stripped, non-blank lines before its end marker. |
| LptOutput.BlockRunsOff | pleiades/sammyOutput.py:101-107 | A block with no end marker raises. |
| LptOutput.NoHeaderFails | pleiades/sammyOutput.py:94-109 | Without a header line, `commands` fails (unbound `cards`). |
| LptOutput.UnendedBlockFails | pleiades/sammyOutput.py:101-107 | A header with no end marker after it makes `commands` fail. |
| LptOutput.LastBlockWins | pleiades/sammyOutput.py:94-109 | The last block decides: its cards, with the header and the end marker excluded. |
| LptOutput.OneBlock | pleiades/sammyOutput.py:94-109 | With one block, the result is the cards strictly between the header and the end marker. |
| LptOutput.SecondBlockReplaces | pleiades/sammyOutput.py:94-109 | A second block replaces the first. |
| LptOutput.StatsPrefixFails | pleiades/sammyOutput.py:53-70 | A failing pattern makes every longer table fail. |
| LptOutput.LptFile.constructor | pleiades/sammyOutput.py:7-51 | The file name and the default patterns. |
| LptOutput.LptFile.RegisterNewStats | pleiades/sammyOutput.py:73-92 | The table becomes `Registered`. |
| LptOutput.LptFile.Stats | pleiades/sammyOutput.py:53-70 | The loops compute `StatsOf`. |
| LptOutput.LptFile.Commands | pleiades/sammyOutput.py:94-109 | The loops compute `CommandsOf`. |
| LptOutput.ReadCommands | pleiades/sammyOutput.py:94-109 | The loops of `commands` compute `CommandsOf`. |

## Left out

- File opening, reading and writing. A file is the sequence of its lines. Universal-newline translation and `pathlib` are not modelled.
- Floating point: every float the source renders or parses is an abstract function or a rendered string. This covers:
  - `.7f` weights and their tenth;
  - `.4f` and `str()` card fields;
  - `{:5.2f}` in Card 10;
  - `float()` in the simulation data;
  - the AME masses.
- configparser. A configuration is a map of sections to maps of options.
- The `eval` of `LptFile.stats`, which is an abstract function `ev`.
- `get_mat_number`, called by the older input module but not defined in pleiades/nucData.py. The material number is a parameter.
- Reading `mass.mas20` and skipping its 36 header lines: the lookup works on the table lines after the header.
- Card 5, Card 7 and `write_to_file` of pleiades/sammyInput.py, and the `Isotopes` configuration loop of pleiades/simData.py: these are plumbing.
- Text.Upper: `str.upper()` is modelled with ASCII case mapping only. Python also maps other letters, such as "ſ" to "S" and "ı" to "I", so `Header`, the section test of `read`, can differ from the source on such lines.
- `IsSpace` covers the characters Python's `str.isspace` accepts. Digits are ASCII only: `int()` (a sign, digits and single underscores), `str.isdigit` in NucData.GetInfo and NucData.Keep, and `\d` in ChannelRadii.MatchGroup and ChannelRadii.SearchGroup. Python also accepts other Unicode decimal digits, and `isdigit` also accepts superscripts.
- ParFileTrip.ReadStored: the round trip is proved for storable data:
  - at least one particle pair;
  - every value fits its columns and has no newline, and no card is blank;
  - each spin group has its counted channels;
  - channel radii that the radii pattern reads back;
  - the isotopic block closed by a blank card, as the corrected writer does.
  
  Files that PLEIADES did not write are not covered.
- ParFileTrip.WriteReadWrite: proved for data written by the corrected writer. With isotopic masses, the source's writer produces text that cannot be read back (see Findings).
- ParEdit.RenameChannel: a channel without a `channel_name` key is left alone, and `Get` reads a missing pair name as "". `_rename` would raise `KeyError` there instead. Records read from a file always carry their format's keys (`ParData.ParseCardsKeyed`), so this difference concerns only records built by hand.
- ParFileModel.ParFile.Add: `deepcopy` is the value semantics of datatypes; object identity and aliasing of the copied dictionaries are not modelled.
- OldInput.CalculateTakesOutFiles: holds for the corrected edit `EditCommands` only. The program runs the loop as written (`EditAsWritten`), which can leave a `FILE=` command in the list (see Findings).
- OldInput.CalculateIdempotent: holds for the corrected edit only. As written, the second run of the update in `process` can pop a command the first run skipped and change the stored block (`PopWalkTwiceSkips`).
- OldInput.CommandTextLines: states the layout of the corrected card `CommandText`, which looks names up stripped. `process` builds `CommandTextAsWritten`, whose layout is `CommandTextAsWrittenLines` (see Findings).
- OldInput.InputFile.constructor: stops before `__init__`'s final `_update_and_calculate_values(auto_update)` (old/pleiades/sammyInput.py:39), which can raise; OldInput.NewInputFile models the whole of `__init__`.
- InputCards.Card3Attribute: the inherited attributes are those of Python 3.11 and 3.12 (`__getstate__` is new in 3.11). `__doc__` keeps the indentation of the docstring's closing line, which Python 3.13 strips. `__module__` assumes the card is imported from the package `pleiades`.
- NucData.GetMassFromAme: uses the corrected `GetInfoFixed`, which drops the hyphen from the element. The lookup as written is `MassFromAme` (see Findings).

## Findings

| source | as written | input that shows it | evidently intended | confidence | as-written member | corrected member |
|---|---|---|---|---|---|---|
| pleiades/sammyParFile.py:262-263 | the last loop of `_rename` gives every pair the name computed last | pairs "A" and "B" with channels naming them become "X_2" and "X_2", while the channels become "X_1" and "X_2" | each pair keeps the name computed for it, so every channel still names a pair | not executed | ParEdit.RenameAsWrittenDangles | ParEdit.RenameKeepsReferences |
| pleiades/sammyParFile.py:544-547 | `L = len // 46` and `range(1, L)` drop the last partial 46-character piece of the group list | a group list of 47 to 91 characters keeps only its first 46 | every piece is kept, joined by the continuation marker | not executed | ParWeight.GroupListAsWrittenDrops | ParWeight.GroupListIsJoin |
| pleiades/sammyParFile.py:223-227 | `write` ends the isotopic block with `""`, so the file ends right after the last isotopic card | any file with an isotopic card: reading it runs off the end inside the isotopic block (`StopIteration`), though old/tests/test_sammyParFile.py:115-130 expects the compound to read back | the block is closed by a blank card, as the other blocks are | not executed | ParFileTrip.ReadWrittenFails | ParFileTrip.WriteReadWrite |
| old/pleiades/sammyInput.py:258-262 | `commands.pop(i)` inside `enumerate(commands)` skips the command after each popped one | "FILE=a,FILE=b,FILE=c": after the runs in `__init__` and `process`, the stored block is that of "FILE=b". ("FILE=a,FILE=b" shows the skip only in the state `__init__` leaves, because the second run pops the leftover "FILE=b".) | every `FILE=` command is taken out, and the last one's block is stored | not executed | OldInput.PopWalkTwiceSkips | OldInput.EditResolutionIsLast |
| old/pleiades/sammyInput.py:93-94 | the stripped token is checked against the command table but the unstripped token is looked up | "TWENTY, TWENTY": the second token " TWENTY" raises `KeyError`, so `process` raises (`InputFile.Process` keeps the lookup as written; `CommandTextAgrees` says when it matches the corrected card) | the stripped token is looked up | not executed | OldInput.PaddedNameFails | OldInput.ExpandAgrees |
| pleiades/nucData.py:83-88 | `get_info` keeps every non-digit character, so "U-238" gives the element "U-" | `get_mass_from_ame("U-238")` compares "U-" with the stripped element column "U" and finds no mass | the element is the symbol without the hyphen | not executed | NucData.MassFromAmeMisses | NucData.MassFromAmeFixedSearches |

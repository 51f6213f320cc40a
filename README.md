# FFXIV log splitter — a Dafny model

The repository holds six versions of a small tool. The tool cuts a Final Fantasy XIV
combat log, as written by the ACT parser plugin, down to chosen encounters. The result
can then be uploaded to FFLogs on its own. A log is a text file of `|`-separated lines.
The first field of each line is a two- or three-character type code:

- `01` is a zone change;
- `02` is the player's own id;
- `20`/`21` are actions;
- `25` is a death;
- `26` is a status effect, here the "damage down" penalty;
- `33` is a director (instance control) event;
- `41` is a limit-break clear;
- `253` is the ACT plugin version line;
- `256`–`278` are OverlayPlugin lines.

Every version works in two passes:

1. **Scan.** Read the log once. Split it into fights (encounters, chunks), counting deaths
   and damage-downs per fight.
2. **Write.** Read the log again and write a new one. Lines of the chosen fights are kept.
   Other lines are dropped or overwritten with placeholder `00|` lines, so line numbers
   stay meaningful.

The model covers both passes of each version:

- **versions/v2.1.cs** (C#, the current version). The segmenter `LogReader.SeparateLogChunks`
  tiles the whole file into chunks, grouped by the zone-change line they follow.
  `SaveLogFile` writes each chunk by a rule picked from the chunk's selection state, with
  three "hide" options.
  - `ChunksV21`: the chunk record and its dictionary.
  - `SegmentV21`: the loop as a fold.
  - `SegmentV21Steps`: what each kind of line does.
  - `SegmentV21Facts`: what the fold guarantees.
  - `ReaderV21`: the imperative class.
  - `RegenV21`: the second pass.
- **versions/v2.0.cs** (C#). A reader keeps a list of encounters. `OutputController`
  turns the kept encounters into a plan of skipped, overwritten and copied line ranges.
  - `SegmentV20`, `SegmentV20Facts`: the reader as functions.
  - `ReaderV20`: the class.
  - `OutputV20`: the plan and the lines it writes.
- **The Python scripts.** These are versions/v1.0.py (a check-box GUI), versions/1.0.py
  (a GUI with typed indexes), v0.1.py and 1.py (console).
  - `PyScan` and `PyScanFacts`: their scan loops, one step function told apart by `Script`.
  - `PyReader`: the loops as a class over the scripts' variables.
  - `PyIndexes`: the index prompt.
  - `PySave`, `PySaveFacts`: the selection lists and the on/off switch loops that write
    the output.

`Patterns` writes every regular expression as the string function it computes. `Text`
holds the .NET and Python string operations used.

What the model abstracts:

- **Times.** The time parsers are a parameter `parse: string -> int`, with 0 for "unset".
- **v2.1 units.** v2.1 parses milliseconds, so its 20-second rule is `>= 20000`.
- **v2.0 units.** v2.0 and the scripts count seconds.
- **Files.** A file is the sequence of its lines.
- **Selection.** The GUI's check boxes are a `selected` field (v2.1) or a `checked` sequence
  (versions/v1.0.py).

## Model

| member | source | states |
|---|---|---|
| ChunksV21.SaveInto | versions/v2.1.cs:287-289 | Saving a chunk adds its zone-change index to the keys. That key's list becomes the old list (empty if missing) plus the chunk. Every other key keeps its list. |
| ChunksV21.SortedKeys | versions/v2.1.cs:106 | The keys in `OrderBy` order: strictly increasing, holding exactly the dictionary's keys. |
| ChunksV21.SortedKeysUnique | versions/v2.1.cs:106 | Any strictly increasing sequence holding exactly the keys is `SortedKeys`, so the order is determined. |
| ChunksV21.LegalOnly | versions/v2.1.cs:107 | A chunk is kept exactly when it is in the input and is a legal encounter. The result is no longer than the input. |
| ChunksV21.LegalOnlyIsFilter | versions/v2.1.cs:107 | `Where` keeps order: filtering a concatenation filters each part and concatenates the results, and a single chunk is kept exactly when it is legal. |
| ChunksV21.LegalEncountersExact | versions/v2.1.cs:56-59 | `LegalEncounters` lists a chunk exactly when `LogChunks` does, its start time is set and it lasts at least 20 s (20000 ms). |
| ChunksV21.LogChunksSaveLast | versions/v2.1.cs:106 | Saving a chunk whose key is at least every existing key appends it at the end of the `LogChunks` view. |
| ChunksV21.LogChunksOfSaveAll | versions/v2.1.cs:106 | Chunks saved in non-decreasing key order come back from `LogChunks` exactly in saving order. |
| ChunksV21.TilesOrdered | versions/v2.1.cs:794-806 | In back-to-back chunks, every earlier chunk ends before every later one starts. |
| ChunksV21.TilesPartition | versions/v2.1.cs:794-806 | Chunks that tile lines 0..n-1 partition them: every line belongs to exactly one chunk. |
| Patterns.ZoneName | versions/v2.1.cs:109 | The zone-change pattern, also at versions/v2.0.cs:55 and in every script. A match means a `01` line, and the captured name holds no bar. |
| Patterns.Zone40Name | v0.1.py:56 | The `40` zone-info pattern, also at 1.py:50. A match means a `40` line, and the name holds no bar. |
| Patterns.PlayerIdUntilBar | versions/v2.1.cs:110 | v2.1's player pattern. A match means a `02` line, and the id holds no bar. |
| Patterns.PlayerId8 | versions/v2.0.cs:56 | The player pattern of v2.0 and the scripts. A match means a `02` line with an 8-character id. When that id holds no bar, v2.1's player pattern matches too and reads the same id. |
| Patterns.DeathId8 | versions/v2.1.cs:111 | v2.1's death pattern. A match means a `25` line with an 8-character id. |
| Patterns.DeathId1 | versions/v2.0.cs:57 | The death pattern of v2.0 and the scripts. A match means a `25` line with an 8-character id starting `1`. |
| Patterns.DirectorType8 | versions/v2.1.cs:114 | v2.1's director pattern. A match means a `33` line with an 8-character type. |
| Patterns.DirectorType2 | versions/v2.0.cs:59 | `400000(?<type>..)`. It matches exactly when v2.1's eight-character type matches and starts with `400000`; the result is 2 characters long. |
| Patterns.DamageDownTarget | versions/v2.1.cs:113 | The damage-down pattern of every version. A match means a `26` line whose target id has 8 characters and starts `1`. |
| Text.IndexOfFrom | versions/v2.1.cs:109 | `IndexOf` as the patterns use it to find the next bar: the first position at or after `from` holding the character, or none. |
| Text.PySlice | versions/1.0.py:156 | Python slicing with clipped bounds. It is the ordinary slice when the bounds are in range and never longer than the string. |
| Text.LStrip | versions/1.0.py:156 | `lstrip` of bars: a suffix of the input whose first character is not a bar, after removing only bars. |
| Text.RemoveChar | versions/1.0.py:122 | `replace(' ', '')`: no space is left, the result is no longer than the input, and a string without spaces is unchanged. |
| Text.DigitsValueOfNatToString | versions/1.0.py:127 | Reading back the decimal text of a number gives the number. |
| SegmentV21.StepTooShort | versions/v2.1.cs:161-162 | A line shorter than 3 characters stops the loop with `LineTooShort` and its 1-based number. |
| SegmentV21.RunFromSticky | versions/v2.1.cs:159-245 | Once a line has raised, reading more lines changes neither the state nor the error. |
| SegmentV21.FirstNonBlank | versions/v2.1.cs:134-138 | The header loop's stop: every line before it is blank; the line there is not; it is past the end only when all lines are blank. |
| SegmentV21Steps.ZoneBoundary | versions/v2.1.cs:167-172 | A `01` line at i saves the open chunk ending at i-1 with the pending outcome and resets the outcome. It opens a fresh chunk of the new zone at i, whose zone line is i. An unmatched `01` line raises `Malformed(i+1)`. |
| SegmentV21Steps.PendingOutcome | versions/v2.1.cs:216-222 | Director `40000002`/`40000003`/`40000005` only set the pending win (false for `40000005`) and end time (this line's). The open chunk stays open. |
| SegmentV21Steps.DirectorReset | versions/v2.1.cs:223-227 | Director `40000011` at i saves the open chunk ending at i with the pending outcome. It opens a fresh chunk of the same zone at i+1. |
| SegmentV21Steps.DirectorIgnored | versions/v2.1.cs:213-228 | Any other director type changes nothing. An unmatched `33` line raises `Malformed(i+1)`. |
| SegmentV21Steps.DoorBossBoundary | versions/v2.1.cs:230-241 | With the door-boss option, a limit-break clear at i saves the open chunk as won, with this line's time and its zone name plus " (P1)", ending at i; a chunk of the same zone opens at i+1. The reader's zone, zone line and own id stay. Otherwise the line changes nothing. |
| SegmentV21Steps.PlayerIdKept | versions/v2.1.cs:174-180 | A `02` line takes its id as the user's own only when the id starts `10`, and changes nothing else. An unmatched line raises. |
| SegmentV21Steps.DeathCounted | versions/v2.1.cs:198-203 | A `25` line adds one to the total only for a `10…` id. It adds one to the user's count only when that id is also the user's. Nothing else in the chunk or the reader changes. An unmatched line raises. |
| SegmentV21Steps.DamageDownCounted | versions/v2.1.cs:205-211 | A matched `26` line adds one to the total, and one to the user's count when the target is the user. Nothing else in the chunk or the reader changes. An unmatched line changes nothing. |
| SegmentV21Steps.StartTimesSetOnce | versions/v2.1.cs:182-196 | Within a chunk, each start time is kept or set once from unset: the overlay time by a matching `260` line, the ACT time by a matching boss attack, each to that line's time. A line that cuts opens a chunk with both unset. |
| SegmentV21Steps.HeaderErrors | versions/v2.1.cs:134-150 | Separation fails with `EmptyLog` exactly when every line is blank. It fails with `BadHeader` exactly when the first non-blank line is not a `253` line. |
| SegmentV21Steps.RunFailsOnLine | versions/v2.1.cs:159-245 | The loop only ever raises `LineTooShort` or `Malformed`. |
| SegmentV21Steps.CompletedSeparationLinesLong | versions/v2.1.cs:161-162 | A separation without error saw a version line, and every line after it has at least 3 characters. |
| SegmentV21Facts.KindExcludes | versions/v2.1.cs:165-241 | A line of another switch case is neither a player death, nor a damage-down, nor a victory. |
| SegmentV21Facts.CountedHasPrefix | versions/v2.1.cs:198-241 | Only `25` lines are deaths, only `26` lines damage-downs, and only `33`/`41` lines victories. |
| SegmentV21Facts.QuietStepKeeps | versions/v2.1.cs:174-196 | `02`, `260`, `20`/`21` and other lines keep the saved chunks, the zone line, the pending win, and the open chunk's range and counters. |
| SegmentV21Facts.StepKeepsInv | versions/v2.1.cs:165-244 | Every line that does not raise keeps the loop invariant. Saved chunks and the open chunk tile the lines read, and zone keys never decrease. Counters equal the counts of death and damage-down lines covered, with self ≤ total. A won chunk covers a victory line. |
| SegmentV21Facts.RunKeepsInv | versions/v2.1.cs:159-245 | When no line before the loop is a death or damage-down line, the invariant holds after the loop over any prefix of the lines that did not raise. |
| SegmentV21Facts.HeaderQuiet | versions/v2.1.cs:134-142 | Blank lines and the version line hold no death or damage-down. |
| SegmentV21Facts.CloseLast | versions/v2.1.cs:246-253 | Closing the open chunk at the last line completes the tiling, keeps keys sorted, and keeps each chunk's counts and win witness. |
| SegmentV21Facts.NothingLeftOpen | versions/v2.1.cs:247 | With the open chunk empty at the end, the saved chunks already tile the file. |
| SegmentV21Facts.SeparationSucceeded | versions/v2.1.cs:125-255 | A separation without error found a `253` version line. The loop read every line after it, and the chunks are the loop's final ones. |
| SegmentV21Facts.SeparationSound | versions/v2.1.cs:125-255 | After a successful separation the chunks tile lines 0..n-1 and come out of `LogChunks` in saving order. Each chunk's counters equal the death and damage-down lines it covers, with self ≤ total. A won chunk covers a victory line. |
| ReaderV21.SeparationStopsAt | versions/v2.1.cs:159-162 | When the loop raises, separation reports that error with the chunks saved before it. |
| ReaderV21.SeparationCompletes | versions/v2.1.cs:246-253 | When the loop reads every line, separation's result is what closing the last chunk gives. |
| ReaderV21.ReadAdvances | versions/v2.1.cs:157-244 | A line read as `Step` says advances the fold by exactly that line. |
| ReaderV21.LogReader.SaveCurrentChunk | versions/v2.1.cs:282-292 | The dictionary becomes `SaveInto` of the old one and the chunk, completed with the pending win, end line and end time. The returned pending win and end time are reset. |
| ReaderV21.LogReader.ZoneChangeLine | versions/v2.1.cs:167-172 | The `01` case does what `OnZone` says to the open chunk and the dictionary, or raises its error and leaves the dictionary alone. |
| ReaderV21.LogReader.DeathLine | versions/v2.1.cs:198-203 | The `25` case updates the open chunk as `OnDeath` says, or raises its error. |
| ReaderV21.LogReader.DamageDownLine | versions/v2.1.cs:205-211 | The `26` case updates the open chunk as `OnDamageDown` says. |
| ReaderV21.LogReader.DirectorLine | versions/v2.1.cs:213-228 | The `33` case does what `OnDirector` says to the chunk, the pending outcome and the dictionary, or raises its error. |
| ReaderV21.LogReader.ClearLBLine | versions/v2.1.cs:230-241 | The `41` case does what `OnClearLB` says, saving into the dictionary when it cuts. |
| ReaderV21.LogReader.ReadLine | versions/v2.1.cs:159-244 | One pass of the `switch` does what `Step` says, to the loop variables and the dictionary, or raises `Step`'s error. |
| ReaderV21.LogReader.ReadNextLine | versions/v2.1.cs:157-244 | One loop turn advances the fold by the next line and remembers it as the previous line. |
| ReaderV21.LogReader.CloseLastChunk | versions/v2.1.cs:246-253 | The final close saves what `Finish` says, or raises `MissingLastLine`. |
| ReaderV21.LogReader.ReadLines | versions/v2.1.cs:152-245 | The main loop ends with the fold's state and the dictionary holding its saved chunks, or with the error of the first line that raised. |
| ReaderV21.LogReader.ReadVersionLine | versions/v2.1.cs:134-142 | `ActVersionLine` becomes the first non-blank line, or null. `found` holds exactly when there is one, and the loop resumes after it. |
| ReaderV21.LogReader.SeparateFrom | versions/v2.1.cs:152-255 | After a valid version line, the dictionary receives exactly the chunks `Separation` saves, and the error is `Separation`'s. |
| ReaderV21.LogReader.SeparateLogChunks | versions/v2.1.cs:125-255 | The dictionary becomes the old one with `Separation`'s chunks saved in order. The method raises exactly `Separation`'s error, and `ActVersionLine` is the first non-blank line. |
| RegenV21.LastSelected | versions/v2.1.cs:705 | `FindLastIndex`: between -1 and the last index. The chunk there is selected, and none after it is. |
| RegenV21.RuleMeaning | versions/v2.1.cs:713-729 | A chunk gets "write nothing" exactly when no chunk from it on is selected, and "filtered" exactly when it is selected. An unselected chunk before a selected one keeps its zone-entry lines if it is first in its group, and is all placeholders otherwise. |
| RegenV21.OverlayLabelsExact | versions/v2.1.cs:755-757 | The twenty `case` labels are exactly the types 256–278 other than 260, 268 and 269. |
| RegenV21.OverlayTypeLabelled | versions/v2.1.cs:755-757 | Every such overlay type is a `case` label. |
| RegenV21.LabelledOverlay | versions/v2.1.cs:755-757 | Every `case` label is such an overlay type. |
| RegenV21.KeepLineMeaning | versions/v2.1.cs:729-766 | The selected-chunk filter raises exactly on a line shorter than 3, or on a `00` line shorter than 41 when chat is hidden. Otherwise it keeps exactly the lines that are not hidden. |
| RegenV21.WriteLine | versions/v2.1.cs:713-766 | A write action writes one line, or none for "write nothing". It raises exactly on a null line under the zone-entry or filtered rule, or on a line the filter cannot read. |
| RegenV21.EmitCount | versions/v2.1.cs:769-772 | Without an exception, the lines written equal the reads whose rule is not "write nothing". |
| RegenV21.EmitSticky | versions/v2.1.cs:784-789 | After an exception, further reads change nothing: the file keeps what was written. |
| RegenV21.EmitReadsLineJ | versions/v2.1.cs:769-772 | The j-th read gets line j of the file and writes what its rule makes of it. |
| RegenV21.ExpandTiles | versions/v2.1.cs:91-95 | When the chunks tile lines 0..n-1, `ReadChunk` reads exactly n lines, and read j uses the rule of the chunk owning line j. |
| RegenV21.ContinuityExact | versions/v2.1.cs:792-807 | The continuity check passes exactly when the chunks are back to back from line 0. |
| RegenV21.ContinuityAfterSeparation | versions/v2.1.cs:792-807 | After a successful separation into an empty dictionary, the continuity check never raises. |
| RegenV21.SavePlanAfterSeparation | versions/v2.1.cs:700-772 | After a successful separation, saving reads the file line for line: one read per line, each using the rule of the chunk that owns it. |
| RegenV21.ValidateChunkContinuity | versions/v2.1.cs:792-807 | The method's verdict is the continuity check of `LogChunks`: none, or the first gap. |
| RegenV21.WriteChunk | versions/v2.1.cs:769-772 | Reading one chunk writes what the plan says for its reads; an exception leaves what the whole plan leaves. |
| RegenV21.WriteGroup | versions/v2.1.cs:703-773 | One group writes all its chunks in group order, each with the rule `RuleFor` picks. |
| RegenV21.WriteGroups | versions/v2.1.cs:700-774 | The `foreach` over the sorted keys writes what the plan of all groups says. |
| RegenV21.WriteLog | versions/v2.1.cs:694-775 | The writer holds the version line, then what the plan writes, and the first exception. |
| RegenV21.SaveLogFile | versions/v2.1.cs:688-790 | A gap between chunks writes nothing and reports it. Otherwise the file is the version line (empty if null) followed by what `SavePlan` writes, ending at the first exception. |
| SegmentV20.GetDuration | versions/v2.0.cs:35-46 | "Error" exactly when start or end time is unset. Otherwise minutes*60 + seconds equals end − start, with seconds in 0..59 for non-negative durations and in −59..0 for negative ones. |
| SegmentV20Facts.DoorBossNeverFires | versions/v2.0.cs:209 | The door-boss option changes nothing: its arm compares a 3-character prefix with `"41"`. |
| SegmentV20Facts.SilentSkipping | versions/v2.0.cs:133-206 | Short lines, lines no pattern matches, and director types that neither open nor close are skipped without changing the reader. |
| SegmentV20Facts.PlayerLine | versions/v2.0.cs:147-154 | A `02` line records the id and opens a blank encounter of the current zone at the next line. Saved encounters are kept. |
| SegmentV20Facts.DirectorOpens | versions/v2.0.cs:191-196 | Director `01`/`06` open a blank encounter of the current zone at the next line; nothing else changes. |
| SegmentV20Facts.DirectorCloses | versions/v2.0.cs:197-206 | Director `02`/`03`/`11`/`12` close the encounter at this line with this line's time, won exactly for `03`. It is appended only if its start time is set, and a blank encounter replaces it; nothing else changes. |
| SegmentV20Facts.ZoneLine | versions/v2.0.cs:137-146 | A `01` line becomes the zone line with its name; the user's id is kept. An open encounter is saved, if started, as a loss ending at the previous line with that line's time, and a blank one replaces it. Before any encounter opens, nothing is saved. |
| SegmentV20Facts.StartTimeSetOnce | versions/v2.0.cs:155-161 | A start time changes to a set value only from unset, on a boss attack, to that line's time. |
| SegmentV20Facts.CountersGrow | versions/v2.0.cs:162-181 | Each line adds at most one death and one damage-down, self never more than total, unless the encounter is replaced by a blank one. |
| SegmentV20Facts.DeathLine | versions/v2.0.cs:162-171 | A `25` line whose dead actor's id starts with `1` adds one to the total deaths, and one to the self deaths exactly when that id is the recorded player's. Nothing else changes. Any other `25` line changes nothing. |
| SegmentV20Facts.DamageDownLine | versions/v2.0.cs:172-181 | A `26` line whose damage-down lands on a player adds one to the total damage-downs, and one to the self damage-downs exactly when the target is the recorded player. Nothing else changes. Any other `26` line changes nothing. |
| SegmentV20Facts.StepInv | versions/v2.0.cs:131-217 | Each line keeps the invariant. Every saved encounter is started, has a non-empty range of lines already read, and self ≤ total. |
| SegmentV20Facts.RunInv | versions/v2.0.cs:84-89 | The invariant holds after the loop, and the line index counts the lines read. |
| SegmentV20Facts.LegalIsFilter | versions/v2.0.cs:95 | The 20-second filter distributes over concatenation and keeps one encounter exactly when it lasts ≥ 20 s. |
| SegmentV20Facts.LegalMembers | versions/v2.0.cs:95 | An encounter is kept exactly when it was read and lasts at least 20 s. |
| SegmentV20Facts.ReadSound | versions/v2.0.cs:80-100 | Every encounter `Read` keeps is started and lies within the file, start ≤ end. It lasts ≥ 20 s, and self ≤ total for deaths and damage-downs. |
| ReaderV20.LogReader.constructor | versions/v2.0.cs:74-78 | A new reader has no line read, no zone, no id, a blank encounter and no encounters. |
| ReaderV20.LogReader.SetNewEncounter | versions/v2.0.cs:108-116 | A blank encounter of the current zone line and name, starting at the given line, replaces the open one. |
| ReaderV20.LogReader.SaveCurrentEncounter | versions/v2.0.cs:118-129 | The open encounter, completed with the end line, win and end time, is appended exactly when its start time is set. A blank encounter replaces it either way. |
| ReaderV20.LogReader.ZoneLine | versions/v2.0.cs:137-146 | The `01` arm moves the fields as `OnZone` says. |
| ReaderV20.LogReader.PlayerLine | versions/v2.0.cs:147-154 | The `02` arm moves the fields as `OnPlayer` says. |
| ReaderV20.LogReader.DeathLine | versions/v2.0.cs:162-171 | The `25` arm moves the fields as `OnDeath` says. |
| ReaderV20.LogReader.DamageDownLine | versions/v2.0.cs:172-181 | The `26` arm moves the fields as `OnDamageDown` says. |
| ReaderV20.LogReader.DirectorLine | versions/v2.0.cs:182-208 | The `33` arm moves the fields as `OnDirector` says. |
| ReaderV20.LogReader.ReadLine | versions/v2.0.cs:131-217 | `ReadLine` moves the fields as `OnLine` says, whose properties are the `SegmentV20Facts` rows. |
| ReaderV20.LogReader.ReadLines | versions/v2.0.cs:84-89 | The loop leaves the fields as the fold `Run` over the lines does. |
| ReaderV20.LogReader.Read | versions/v2.0.cs:80-100 | `Read` leaves the fields as `ReadAll` does, which `ReadSound` characterises. |
| OutputV20.ZonesExact | versions/v2.0.cs:238 | `Distinct()` lists every zone line of the encounters once and nothing else. |
| OutputV20.ZoneEncountersExact | versions/v2.0.cs:262 | The `Where` keeps exactly the encounters of that zone line. |
| OutputV20.PlanContiguous | versions/v2.0.cs:235-283 | The plan has no gaps and no overlaps: it starts at line 0, and each controller starts right after the previous one ends. |
| OutputV20.PlanKeepsEncounters | versions/v2.0.cs:275-278 | For every selected encounter the plan copies exactly its range (an `Unchange` controller). |
| OutputV20.PlanKeepsZoneEntry | versions/v2.0.cs:255-258 | For every zone the plan copies its three entry lines. |
| OutputV20.AddZoneEncounters | versions/v2.0.cs:262-279 | The inner loop appends, per encounter, an overwritten gap and the encounter copied, as `EncPlan` says. It ends at the last encounter's end. |
| OutputV20.ParseEncounters | versions/v2.0.cs:235-283 | The controllers returned are `Plan(encounters)`, whose properties are the rows above. |
| OutputV20.Output | versions/v2.0.cs:285-314 | One controller reads its count of lines. The lines are written as `Emit` says: copied, a `29` line as the placeholder, overwritten, or skipped. A null line under `Unchange` raises. |
| OutputV20.SaveLogFile | versions/v2.0.cs:591-622 | The file holds what carrying out the whole plan writes, up to the first exception. |
| OutputV20.ExpandAt | versions/v2.0.cs:285-314 | In a tiled plan, line j is handled by the controller whose range holds it. |
| OutputV20.EmitFailsIff | versions/v2.0.cs:293-296 | Writing fails exactly when some line past the end of the log is to be copied. |
| OutputV20.EmitLength | versions/v2.0.cs:285-314 | Without failure, one line is written per line not skipped. |
| OutputV20.EmitAt | versions/v2.0.cs:285-314 | For a line not skipped: it is a copied line in the log, or overwritten. The output holds the placeholder or the line (a `29` line as the placeholder) at the position that counts the lines written before. |
| OutputV20.SavedLinesKept | versions/v2.0.cs:591-622 | With a tiled plan and no failure, every line of every selected encounter is written. It sits at the position that counts the lines written before it, with a `29` line replaced by the placeholder. |
| PyScan.MinSec | versions/v1.0.py:98 | Minutes and seconds from Python's flooring `%`: minutes*60 + seconds = duration, 0 ≤ seconds < 60. |
| PyScanFacts.FilterIsShortcut | versions/v1.0.py:49 | The three-character prefix filter only saves work: without it every line gives the same result (also versions/1.0.py:38, v0.1.py:40, 1.py:32). |
| PyScanFacts.StartTimeSetOnce | versions/v1.0.py:53-56 | The start time changes to a set value only from 0, on a boss-attack line, to that line's time. |
| PyScanFacts.FightAppendedOnClose | versions/v1.0.py:96-102 | A fight is appended only by a closing director type after the start time was set. It ends on the current line, starts at `startLine`, and is a kill exactly for type `03`. |
| PyScanFacts.AbortIff | versions/v1.0.py:102 | A line raises exactly in versions/v1.0.py, for a fight closing after the start time was set while `startLine01` is still unbound. |
| PyScanFacts.OnlyCheckboxAborts | versions/1.0.py:21-88 | The other three scripts always scan the whole log. |
| PyScanFacts.StepInv | versions/v1.0.py:44-103 | Every line keeps the invariant: self ≤ total counters; fights end on lines already read, in strictly increasing order. In versions/v1.0.py zone lines increase and each fight lies after its own zone line and before the next. |
| PyScanFacts.RunInv | versions/v1.0.py:44-103 | The invariant holds after every scan that does not abort, and `lineCount` counts the lines read. |
| PyReader.LogScanner.Initialize | versions/v1.0.py:33-38 | `initialize()` resets the counters, start time text, timestamp and start line, and nothing else. |
| PyReader.LogScanner.MapLine | versions/v1.0.py:59-64 | The `01` arm moves the variables as `OnMap` says for the script. |
| PyReader.LogScanner.SelfLine | versions/v1.0.py:67-72 | The `02` arm moves the variables as `OnSelf` says. |
| PyReader.LogScanner.DeathLine | versions/v1.0.py:75-80 | The `25` arm counts as `OnDeath` says. |
| PyReader.LogScanner.DmgDownLine | versions/v1.0.py:83-88 | The `26` arm counts as `OnDmgDown` says. |
| PyReader.LogScanner.DirectorLine | versions/v1.0.py:91-103 | The `33` arm moves the variables as `OnDirector` says, and reports exactly when it raises. |
| PyReader.LogScanner.ReadLine | versions/v1.0.py:48-103 | The loop body moves the variables as `OnLine` says, and reports exactly when it raises. |
| PyReader.LogScanner.ReadLines | versions/v1.0.py:44-103 | The loop leaves the variables as `Run` does and fails exactly when `Run` aborts. |
| PyReader.LogScanner.ReadLogFile | versions/v1.0.py:22-103 | The scan succeeds exactly when `Scan` does, and then leaves the variables as `Scan` does; `RunInv` characterises that state. |
| PyIndexes.Split | versions/1.0.py:120 | Splitting the answer at ASCII and full-width commas gives at least one piece. |
| PyIndexes.SplitJoin | versions/1.0.py:120 | Splitting cuts exactly at the separators. There is one more piece than separators, no piece holds one, and joining them back gives the answer. |
| PyIndexes.MatchIndex | versions/1.0.py:123 | `(\d+)(?:[-–−—~](\d+))?` at the front of a piece. It fails exactly when the piece does not start with a digit. Otherwise it is the maximal leading digit run, plus a second maximal run when a range separator and a digit follow. |
| PyIndexes.ParseInt | versions/1.0.py:127 | `int(piece)` never reads a piece that starts with a digit as a negative number. |
| PyIndexes.ParseIntOfPiece | versions/1.0.py:127 | On a piece that starts with a digit, `int` succeeds exactly when the piece is digits with single underscores between them followed only by white space (Python's `str.isspace`). It then gives the value of those digits, underscores skipped. |
| PyIndexes.ParseIntOfDigits | versions/1.0.py:127 | A piece of plain digits reads as its decimal value. |
| PyIndexes.ParseIntTrailingSpace | versions/1.0.py:127 | A digit followed by white space, such as `7` and a tab or an ideographic space, reads as that digit. |
| PyIndexes.ParseIntUnderscore | versions/1.0.py:127 | Two digits with one underscore between them, such as `1_0`, read as a two-digit number (10). |
| PyIndexes.ParseIntRejectsUnderscores | versions/1.0.py:127 | A doubled underscore between digits, or a final underscore, makes `int` raise. |
| PyIndexes.ParseIntRejectsText | versions/1.0.py:127 | A character after a digit that is neither a digit nor white space makes `int` raise (`7a` raises). |
| PyIndexes.ReadPlainPiece | versions/1.0.py:121-127 | A piece of plain digits adds the one number it spells, under every reading. |
| PyIndexes.ParseIntOfNatToString | versions/1.0.py:127 | `int` reads back the text of every number. |
| PyIndexes.MatchNumber | versions/1.0.py:123 | An all-digit piece matches as that single number. |
| PyIndexes.MatchRange | versions/1.0.py:123 | A piece `a<sep>b` matches as the range from `a` to `b`. |
| PyIndexes.RangeIff | versions/1.0.py:129 | `range(lo, hi+1)` is lo, lo+1, …, hi: empty when lo > hi, and holds exactly lo..hi. |
| PyIndexes.PieceIndexesIff | versions/1.0.py:123-132 | A piece raises exactly when it does not match under the debug print, or matches as a single number that `int` does not accept (`IntText`). Otherwise it adds exactly the number `int` reads from it, or its range's numbers (bounds read per script). |
| PyIndexes.CollectRaisesIff | versions/1.0.py:121-132 | The prompt loop raises exactly when some piece raises. |
| PyIndexes.CollectHas | versions/1.0.py:121-132 | Otherwise an index is in the list exactly when some piece adds it. |
| PyIndexes.IntendedReading | versions/1.0.py:125-132 | Read as intended, a piece that does not match adds nothing, and `a-b` adds exactly a..b. |
| PyIndexes.TrailingCommaRaises | versions/1.0.py:124 | As written, an answer of two digits each followed by a comma, such as `1,2,`, raises (the debug print reads the groups of the empty piece's failed match). |
| PyIndexes.TrailingCommaIntended | versions/1.0.py:131-132 | Read as intended, the same answer gives the two digits typed: `1,2,` gives `[1, 2]`. |
| PyIndexes.LastDigitRange | 1.py:97 | As written, 1.py reads `10-15`, the prompt's own example, as 0..5. |
| PyIndexes.WholeNumberRange | versions/1.0.py:123 | Read as intended, `10-15` gives 10..15. |
| PyIndexes.AppendRange | versions/1.0.py:129-130 | The inner loop appends exactly `range(lo, hi+1)`. |
| PyIndexes.AppendPiece | versions/1.0.py:122-132 | One piece appends what `PieceIndexes` gives, and fails exactly when it raises. |
| PyIndexes.ParseFightIndexes | versions/1.0.py:119-132 | The prompt's loop gives `ParseIndexes` of the answer and fails exactly when it raises; `CollectHas` and `PieceIndexesIff` characterise the list. |
| PyIndexes.CollectRaises | versions/1.0.py:121-132 | A piece that raised ends the loop. |
| PySave.UnselectedIff | versions/1.0.py:136-137 | A fight index is not chosen exactly when it is in range and not typed; the list is increasing. |
| PySave.SelectLines | versions/1.0.py:134-139 | `offLines`/`onLines` hold, for each fight not chosen and in fight order, its start line and its end line. |
| PySave.TickedIff | versions/v1.0.py:148 | An index is ticked exactly when its box is. |
| PySave.WithoutIff | versions/v1.0.py:153-155 | A zone line is in `off01Lines` exactly when it is a zone line and no ticked fight belongs to it. |
| PySave.SelectZones | versions/v1.0.py:143-155 | Ticked fights give their zone lines, in order. Unticked ones give start and end lines, in order. Zone lines of no ticked fight are the rest. |
| PySave.ZonesWithout | versions/v1.0.py:153-155 | The loop computes `Without(all01Lines, on01Lines)`. |
| PySave.SwitchOffIff | versions/1.0.py:151-158 | The switch is off after line n exactly when some `offLines` line at or before n has no `onLines` line from it through n. |
| PySave.PlaceholderIff | versions/1.0.py:151-158 | Line n is written as a placeholder exactly when some `offLines` line at or before n has no `onLines` line from it up to n-1. |
| PySave.PlaceholderInside | versions/1.0.py:134-158 | Every placeholder line lies within a fight that was not chosen. |
| PySave.NothingCutCopiesAll | versions/1.0.py:151-158 | With every fight chosen, no line becomes a placeholder. |
| PySave.PlaceholdersAt | versions/1.0.py:146-158 | One line out per line in: line k is copied, or written as its placeholder exactly when `PlaceholderAt` holds. |
| PySave.WritePlaceholders | versions/1.0.py:143-158 | The writing loop (width 35) gives `Placeholders`, characterised by `PlaceholdersAt`; also v0.1.py:125-141. |
| PySave.WriteLine | versions/1.0.py:150-158 | One turn: the switch after it and the line written follow `SwitchOff`/`PlaceholderAt`. |
| PySave.LatchedIff | 1.py:124-130 | The latch is on exactly when some `p` line at or before n has no `q` line after it through n. |
| PySave.WriteKept | 1.py:114-131 | 1.py's loop writes exactly the lines whose drop switch is on, as `Kept` says. |
| PySave.DroppedInside | 1.py:107-131 | Every line 1.py drops lies between the start line and the line before the end line of a fight not chosen. |
| PySave.NothingCutKeepsAll | 1.py:114-131 | With every fight chosen, 1.py writes the log unchanged. |
| PySave.KeptOnlyIff | versions/v1.0.py:170-175 | A line is kept by `KeptOnly` exactly when it is listed, positive, and `switch01` is on there. |
| PySave.WriteCheckbox | versions/v1.0.py:157-185 | The loop writes `CheckboxOutput`. A line is dropped while `switch01` is off. Otherwise it is copied, or written as a width-34 placeholder while the placeholder switch, which sees only kept lines, is off. |
| PySave.BeforeFirstZoneDropped | versions/v1.0.py:170-175 | Lines before the first zone line of a ticked fight are dropped. |
| PySaveFacts.PlaceholderIsSkipped | versions/1.0.py:156 | A placeholder is a `00` line, which a later scan by any script passes over. |
| PySaveFacts.TickedFightKept | versions/v1.0.py:170-175 | Every line of a ticked fight, from its zone line through its end line, is kept by `switch01`. |

## Left out

- The GUIs are not modelled: WinForms, the `DataGridView`, tkinter windows and check
  boxes, and DPI calls. Selection is an input: `selected` in v2.1, `checked` in
  versions/v1.0.py.
- Threads, the clipboard and message boxes are not modelled. The empty-log message of v2.1
  appears only as the `EmptyLog` error.
- File I/O is not modelled: open and save dialogs, `input`/`print`, encodings. A file is
  the sequence of its lines. In the C# versions a line is read without its terminator
  (`ReadLine`). In the Python scripts a line is what `readline` returns, terminator
  included, and lines are written back as they are. This is why a placeholder ends in its
  own newline. The `.log` name check and the output file name are left out.
- Date and time parsing (`ParseTime`, `DateTime.Parse`, `getTimestamp`, `strptime`) is the
  parameter `parse`, with 0 for an unset time. A parse that raises is not modelled.
- v2.1's `DurationDesc` (a `double` formatted to one decimal) is not modelled. The Python
  scripts' duration text is a function, but only its arithmetic (`MinSec`) carries a
  contract.
- Regular expressions are written as string functions. `\d` is ASCII digits; Python's
  `\d` also matches other Unicode digits.
- PyIndexes.ParseInt: digits other than ASCII `0`-`9`, which Python's `int` also reads, are
  not modelled. `\d` is ASCII here too (see above).
- The debug line `print(fights[24],'??')` at v0.1.py:100 is not modelled. It raises on logs
  with fewer than 25 fights.
- versions/1.0.py's export button has no `command`, and its `saveLogFile` reads `file`,
  `filename` and `fights`, which are local to `readLogFile`. The model gives `saveLogFile`
  those values as parameters, as the console scripts' globals would.
- After an exception, state other than the chunks saved so far, and the lines written so
  far, is not modelled.
- OutputV20.SavedLinesKept: requires the plan to be tiled. v2.0's plan can overlap or go
  backwards when the encounters of different zones interleave, and then lines are read
  for the wrong controller.
- PySave.WritePlaceholders: ensures only equality with the function `Placeholders`. The
  per-line rule is stated by `PlaceholdersAt` and `PlaceholderIff`.
- ReaderV21.LogReader.SaveCurrentChunk and the other methods whose contracts use `old`
  state the new state through the specification functions. Their properties are the
  lemma rows.

## Findings

| source | as written | input that shows it | evidently intended | confidence | as-written member | corrected member |
|---|---|---|---|---|---|---|
| versions/1.0.py:124 | The debug `print` reads `group(1)` of the match before the `if` checks it. A piece that does not match (an empty piece from a trailing comma, or a word) raises `AttributeError`, and no fights are extracted. The same line is at v0.1.py:106. | the answer `1,2,` | The empty piece is reported as "not a number or a range" and the indexes 1 and 2 are read | not executed | PyIndexes.TrailingCommaRaises | PyIndexes.TrailingCommaIntended |
| versions/v2.0.cs:209 | The door-boss arm compares the three-character `prefix` with the two-character `"41"`, so it never fires. Turning the option on changes nothing. | a `41` limit-break clear line read with the option on | The arm fires on `41` lines and splits the encounter at the limit-break clear, as v2.1 does with the same option | not executed | SegmentV20Facts.DoorBossNeverFires | SegmentV21Steps.DoorBossBoundary |
| 1.py:97 | `(\d)+` captures only the last digit of each bound, so a range keeps only the bounds' last digits. | the piece `10-15`, the prompt's own example | The range 10..15, as `(\d+)` in the later scripts reads it | not executed | PyIndexes.LastDigitRange | PyIndexes.WholeNumberRange |

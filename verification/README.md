# Cena: its core algorithms, modelled and proved in Dafny

Cena is a game client. An agent or a script reads what happens to a character through a
bounded log behind a gatekeeper, asks for walks and spells, and edits settings by dotted
key; beside the client stand tools that work on the game's map. This project models the
parts of that repository that carry an argument, in the form the source gives them
(classes where methods change fields, loops where the source loops, functions where it
computes), and proves what they are for. `dafny verify dfyconfig.toml` checks everything.

| files | what they model |
|---|---|
| Json, Happenings, History, Paging | the log of happenings and lines (`happenings.rs`): one operation at a time, every run of an in-order writer, and a reader that pages through it |
| Characters | the gatekeeper that keeps places below Observe out of the log (`characters.rs`) |
| Watcher | the watcher that feeds the gatekeeper, with what a lagging receiver loses |
| LineReading, PageReading | readers of lines and of happenings while the watcher writes |
| Changes | what changed between two projections, and the copy kept by merging the changes |
| Lexical, CommentRemoval, Grammar | the line lexer of the architecture tests (`lexical.rs`), that removing comments is a fixpoint, and a token grammar it reads back |
| Iteration, Bits, Crc, BigEndian, Calibration | the PNG chunk codec (`calibration.rs`) against RFC 2083 |
| RouteKey, Levels, Routes, Pockets, Slopes, Heights, Floors, Conflicts, Shifts, FloorMap, Chokepoints | the map tools: Dijkstra with lazy deletion, union-find, breadth-first routes, bridges and dead ends, slope cuts, floors, conflicts, all of these end to end, and the greedy order of unported shapes |
| Roads, Paces, Travel | the walk as a state machine (`travel.rs`, `pace.rs`, `standing.rs`) |
| Keys, Settings, Printing, Rebuilding | dotted-key settings over nested tables (`settings.rs`) |
| Waggle | casting spells down a list of people (`waggle.rs`) |
| Builtins | starting and stopping built-ins for scripts (`builtins.rb`), over every interleaving |
| Options, Words, Cuts, Sets | small shared helpers |

Where a promise of the source's documentation does not hold for its code, the code is
modelled, the exact condition is proved, and a lemma or method gives an input that fails:

- Nothing from below Observe is to be kept. The watcher follows the level by the events it
  receives, and reads the door once: a change lost in a lag, or made before the door was
  read, leaves it with an old level. The log holds only what the session's own levels allow
  exactly when nothing is kept between an unheard lowering and the next change that is heard
  (`NothingLeaksWhen`), and holds exactly what they allow exactly when nothing is heard after
  an unheard change either way (`ToldExactlyWhen`); no level change among the lost is enough
  (`NoLevelLostIsExact`), and so is no loss (`NoGapsNoLoss`). `LostLoweringLeaks` is the input.
- Every `changed` after a cursor is to reach who waits from it. `watch` pushes several
  happenings at one cursor, after it reported that cursor reached; a read in between is
  answered that cursor and never given the rest. All pushes are ahead of the reader exactly
  when it began before them and no such read falls so (`WatchersPagesAreRead`).
  `ReadAtPromptLoses` is the input.
- Writing a calibration into a picture is to touch nothing else. It also drops what follows
  the end chunk and rewrites wrong CRCs; `NothingElseTouched` says of every picture exactly
  when it does neither, and `TrailingIsDropped` gives the pictures with something after the end.
- Comments are to be blanked by the lexer. The tail of a line comment is cut off instead: a
  line's code is as long as the line exactly when the lexer meets no line comment in it
  (`CodeIsCutWhen`); a line that is all comment has none (`CommentIsCut`).
- Printed settings are to name each value by its key. They do exactly when no table with
  anything to print stands under an empty key at the top (`TopNamesWhen`,
  `EmptyKeyMisprints`); and the lines, set again from nothing, rebuild the settings exactly
  when they are tidy: keys without dots, none empty, no list of tables, and no white space
  where a line's key begins or ends (`PrintedRebuilds`; a list of tables is `ListIsNotRebuilt`).
- `cannot_send` is to give up an exit of the plan. It also gives up what runs beside the plan,
  and leaves `inAside` set exactly when it was set (`CannotSend`): the answer of the next
  planned crossing is then told as the aside's, from a new trip on in `AsideGivenUp`.

## Model

| member | source | states |
|---|---|---|
| Happenings.Log.Push | crates/cena-agent/src/happenings.rs:399-412 | the log after a push: bounded, and the cursor of the last entry dropped remembered |
| Happenings.Log.Forget | crates/cena-agent/src/happenings.rs:421-428 | entries and lines up to a cursor go, and both stretches remember it |
| Happenings.Log.Read | crates/cena-agent/src/happenings.rs:502-533 | one answer: the wanted page after `since`, the cursor to go on from, and whether anything was lost |
| Happenings.Log.TakePage | crates/cena-agent/src/happenings.rs:506-521 | the loop over kept entries computes the page, which stops only between cursors |
| History.LinesNewest | crates/cena-agent/src/happenings.rs:449-470 | with no cursor to read from, the answer is the last lines ever spoken in the window: as many as asked for, or all that are kept |
| History.TellKeeps | crates/cena-agent/src/happenings.rs:399-428 | every operation of an in-order writer keeps the log a suffix of all ever told, with everything missing at or below what was dropped through, which never falls |
| History.RunKeeps | crates/cena-agent/src/happenings.rs:399-446 | the same for every run of operations from an empty log |
| History.DroppedFallsWhen | crates/cena-agent/src/happenings.rs:399-412 | what was dropped through falls exactly when the entry pushed out is below it |
| History.NotLaggedNothingLost | crates/cena-agent/src/happenings.rs:502-533 | an answer that does not say `lagged` lost none of what was ever told |
| History.ReadIsAStretch | crates/cena-agent/src/happenings.rs:502-533 | an answer is exactly the wanted entries between `since` and the cursor it returns; a full page moves on, a short one holds all |
| History.LinesNotLagged | crates/cena-agent/src/happenings.rs:449-470 | an answer of lines that does not say `lagged` is the first of all ever spoken in the window, and `more` says whether any are left |
| Paging.ExactlyOnce | crates/cena-agent/src/happenings.rs:502-533 | over every interleaving of writes and reads a reader has each wanted happening pushed ahead of it once, in order, up to its cursor |
| Paging.PagingLosesNothing | crates/cena-agent/src/happenings.rs:502-533 | if every push is above the reader's cursor, paging delivers exactly all wanted happenings |
| Paging.PageLeavesTheRest | crates/cena-agent/src/happenings.rs:502-533 | an answer and what is wanted after its cursor are together what was wanted |
| Paging.Drained | crates/cena-agent/src/happenings.rs:502-533 | reading until a short page ends, and the pages joined are everything wanted |
| Characters.Keeper.Visible | crates/cena-agent/src/characters.rs:267-277 | looking at the level: the first look after a hidden stretch forgets up to before it |
| Characters.Keeper.Keep | crates/cena-agent/src/characters.rs:248-256 | what the keeper and its log are after a happening |
| Characters.Keeper.KeepLine | crates/cena-agent/src/characters.rs:258-265 | what the keeper and its log are after a line |
| Characters.EveryRunIsGuarded | crates/cena-agent/src/characters.rs:239-277 | over every interleaving of levels, happenings and lines the log was told exactly what the levels let through |
| Characters.NothingLeaks | crates/cena-agent/src/characters.rs:239-277 | the log holds no line, and no happening but a level change, from a place below Observe |
| Characters.HiddenIsLagged | crates/cena-agent/src/characters.rs:267-277 | over any stream in which lines and levels rise, a reader from before anything hidden is told it lagged, by both reads, once anything later is readable |
| Characters.WordNamesLevel | crates/cena-agent/src/characters.rs:248-256 | the word a level change carries names that level and no other |
| Watcher.WatcherInOrder | crates/cena-agent/src/characters.rs:291-375 | over any number of turns the watcher feeds its keeper cursors that never go back, each event's above all before it |
| Watcher.WatcherIsGuarded | crates/cena-agent/src/characters.rs:239-375 | in every run of the watcher its log is told exactly what the levels it receives let an agent have |
| Watcher.NothingLeaksWhen | crates/cena-agent/src/characters.rs:9-15 | all the log was ever told the session's own levels allow, exactly when nothing is kept between an unheard lowering of the level and the next change that is heard |
| Watcher.ToldExactlyWhen | crates/cena-agent/src/characters.rs:225-275 | the log is told exactly what the session's own levels allow of what is heard, exactly when nothing is heard between an unheard change, either way, and the next that is heard |
| Watcher.NoLevelLostIsExact | crates/cena-agent/src/characters.rs:304-352 | so it is when no level change is among what was lost, nor made before the door is read |
| Watcher.NoGapsNoLoss | crates/cena-agent/src/characters.rs:320-352 | a run in which no loss was noticed lost no level change |
| Watcher.WatcherHides | crates/cena-agent/src/characters.rs:267-375 | in every run a reader from before anything the session hid, heard or lost, is told it lagged, by both reads, once anything later is readable, if the watcher knows the levels of those two places |
| Watcher.LostLoweringLeaks | crates/cena-agent/src/characters.rs:320-352 | the failing input: a lost lowering, a line kept after it, and a reader given the line with no word of a loss |
| LineReading.WatchRises | crates/cena-agent/src/characters.rs:239-375 | every line the watcher's log is told lies above all lines before it |
| LineReading.LinesLoseNothing | crates/cena-agent/src/happenings.rs:449-470 | over every run of writes and reads of lines that rise, while no answer says `lagged` what was got and what is left are together every line spoken from where it began, and `more` tells whether any are left |
| LineReading.WatchersLinesAreRead | crates/cena-agent/src/characters.rs:239-375 | so it is for a reader under any run of the watcher, reading when it will |
| PageReading.WatcherGoesOn | crates/cena-agent/src/characters.rs:291-375 | the watcher never tells its log of a cursor below one the log has seen |
| PageReading.WatchOpsAreKept | crates/cena-agent/src/characters.rs:291-375 | but for the cursors reached its writes are those of the keeper it feeds |
| PageReading.WatchersPagesAreRead | crates/cena-agent/src/happenings.rs:502-533 | under any run of the watcher a reader gets exactly the happenings ahead of it when pushed; all are, exactly when it began before them and no read that is not cut short falls between two things told at one cursor, the later a push |
| PageReading.ReadAtPromptLoses | crates/cena-agent/src/characters.rs:304-375 | the failing input: a read between a prompt and the changes pushed at its cursor never gets them, and is not told it lagged |
| Changes.SilentWhen | crates/cena-agent/src/happenings.rs:264-300 | no change is said exactly when all the later projection tells besides the clock was told before |
| Changes.CopyIsTheLast | bridges/ruby/hydra/copy.rb:15-27 | projections having one set of fields, a copy kept by merging changes over any run of them is what the last one tells |
| Changes.CopyHolds | crates/cena-agent/src/happenings.rs:276-319 | the merged copy always holds every field of the last projection with its value |
| Changes.DiffStatuses | crates/cena-agent/src/happenings.rs:204-219 | exactly the statuses that differ are said, in the order of the ids, each once with what it is now |
| Changes.StatusesFollow | crates/cena-agent/src/happenings.rs:204-219 | those statements, applied in any order, turn the old statuses into the new |
| Changes.DiffRoom | crates/cena-agent/src/happenings.rs:220-261 | a move hides the rest; else exactly the arrivals, deaths and departures between two stated lists: those here now and then those gone, each in the order of the ids |
| Changes.SaidOnce | crates/cena-agent/src/happenings.rs:234-261 | so nothing is said twice |
| Changes.PresenceFollows | crates/cena-agent/src/happenings.rs:234-261 | who was here, with the arrivals and less the departures, is who is here |
| Lexical.LexLines | crates/cena-arch-tests/src/lexical.rs:124-219 | the line loop gives each line's code and skeleton by the classes of its characters, the mode carried over |
| Lexical.StepMarks | crates/cena-arch-tests/src/lexical.rs:124-219 | each step of the loop says of the line's characters what they are |
| Lexical.LexAllJoins | crates/cena-arch-tests/src/lexical.rs:124-219 | lexing a text is lexing its first part and going on from the mode that leaves |
| Lexical.CodeIsCutWhen | crates/cena-arch-tests/src/lexical.rs:124-219 | a line's code is as long as the line exactly when the lexer meets no line comment in it; else it ends where the comment begins, in code |
| CommentRemoval.RemovalIsAFixpoint | crates/cena-arch-tests/src/lexical.rs:124-235 | lexing the code lines of any text gives the same code lines and the same skeleton lines |
| CommentRemoval.LineIsKept | crates/cena-arch-tests/src/lexical.rs:124-235 | the same for one line from any mode: the classes stay, comments become code |
| CommentRemoval.SkeletonHasNoComments | crates/cena-arch-tests/src/lexical.rs:95-103 | no skeleton line holds a comment opener |
| Grammar.WrittenIsReadBack | crates/cena-arch-tests/src/lexical.rs:124-235 | a line written from well-formed tokens is read back as those tokens' classes |
| Grammar.NoteItem | crates/cena-arch-tests/src/lexical.rs:131-151 | the lexer reads a block comment to where its nesting closes, whatever it holds, as comment |
| Grammar.RawPassed | crates/cena-arch-tests/src/lexical.rs:561-595 | the lexer reads a raw string of any prefix and hash count as one literal, from where it stands to the end of its hashes |
| Iteration.FoldJoins | crates/cena-gui/src/calibration.rs:216-226 | feeding parts in order is feeding them joined |
| Crc.EightRoundsAreATableStep | crates/cena-gui/src/calibration.rs:216-226 | eight bitwise rounds on a byte are one step of the table of section 15 of RFC 2083 |
| Crc.Crc32 | crates/cena-gui/src/calibration.rs:216-226 | the bitwise CRC of the parts is RFC 2083's table-driven CRC of their concatenation |
| Calibration.Chunks | crates/cena-gui/src/calibration.rs:252-272 | the loop reads the chunks up to the end chunk, or none when the bytes are not a picture |
| Calibration.PushChunk | crates/cena-gui/src/calibration.rs:207-214 | a chunk written as length, kind, data and CRC, none when too long |
| Calibration.WithChunk | crates/cena-gui/src/calibration.rs:181-205 | the loop gives the picture with the old calibration dropped and the new one after the first header |
| Calibration.ParsedEncoded | crates/cena-gui/src/calibration.rs:207-272 | chunks written are read back the same |
| Calibration.WrittenIsRead | crates/cena-gui/src/calibration.rs:181-205 | a picture written and read has its other chunks in order and the one new calibration |
| Calibration.WrittenIsEmbedded | crates/cena-gui/src/calibration.rs:239-249 | the text written is the text read |
| Calibration.WrittenTwice | crates/cena-gui/src/calibration.rs:181-205 | writing twice gives the same bytes as writing the second |
| Calibration.WrittenIsSound | crates/cena-gui/src/calibration.rs:181-226 | every chunk of what is written carries its right CRC, to the very end |
| Calibration.RewriteOfParsed | crates/cena-gui/src/calibration.rs:207-272 | reading and writing back gives the same bytes exactly when every CRC was right and nothing follows the end |
| Calibration.NothingElseTouched | crates/cena-gui/src/calibration.rs:176-205 | for every picture: less the calibration's own chunks the bytes written are the old ones exactly when nothing followed the end chunk and every other CRC was right |
| Calibration.TrailingIsDropped | crates/cena-gui/src/calibration.rs:176-205 | the failing pictures: whatever follows the end chunk is dropped |
| RouteKey.Distances | research/mapdb-inventory/route_key.py:28-41 | a room is in the result exactly when it can be reached, with the least cost of any route |
| RouteKey.FirstPopIsLeast | research/mapdb-inventory/route_key.py:32-36 | a room taken off the heap for the first time is at the least cost of any route |
| RouteKey.LowerBound | research/mapdb-inventory/route_key.py:28-41 | once all is relaxed no route is cheaper than its room's distance |
| Levels.Forest.Find | research/jev-trial/floors2.py:228-234 | path halving ends, at the root, and moves no root |
| Levels.Forest.Join | research/jev-trial/floors2.py:236-239 | every room with the one root now has the other's |
| Levels.JoinTells | research/jev-trial/floors2.py:236-239 | a join keeps equal roots meaning a chain of joined rooms |
| Levels.HillsidesIs | research/jev-trial/floors2.py:299-315 | which climbs are merged and which stay climbs |
| Levels.LevelsOf | research/jev-trial/floors2.py:226-316 | two rooms share a level exactly when a chain of merged moves joins them |
| Routes.Route | research/jev-trial/floors2.py:163-174 | a shortest route, or none exactly when the rooms are not linked |
| Pockets.Pocket | research/jev-trial/floors2.py:253-265 | none exactly when another way leads back; else exactly the rooms on that side |
| Pockets.ReturnsIsLinked | research/jev-trial/floors2.py:253-265 | for two different rooms, another way back is being linked without the move: no pocket unless it is a bridge |
| Pockets.DeadEnds | research/jev-trial/floors2.py:275-281 | each outdoor climb's dead end, both ways: none when another way joins it, else the smaller side |
| Slopes.CutSlopes | research/jev-trial/floors2.py:142-187 | every indoor climb of the map's rule ends unlinked by level moves, or in a maze, or with twelve cuts; every note was made for such a climb, at most twelve cuts for each and never both ways; each is explained by a shortest route over what was left then; only cut moves go |
| Slopes.Choose | research/jev-trial/floors2.py:178-180 | the move to cut is the last worded one, else the last |
| Slopes.SettledStays | research/jev-trial/floors2.py:157-187 | later cuts unsettle no pair |
| Slopes.DoorwaysStay | research/jev-trial/floors2.py:148-187 | no move between indoors and outdoors is ever cut |
| Heights.Commonest | research/jev-trial/floors2.py:422-424 | the commonest floor, the first met among equals |
| Heights.FloorsAreTheHeights | research/jev-trial/floors2.py:330-341 | heights that fit every ledge are the floors exactly when they fit the anchors |
| Heights.AnchorsFit | research/jev-trial/floors2.py:350-445 | heights equal over doorways and 0 at the levels put on 0 fit every anchor |
| Floors.Tower.Walk | research/jev-trial/floors2.py:330-341 | a walk moves nothing placed, takes the map's own climbs as far as they go from its starts before a reader's, and leaves no wanted neighbour of a placed level without a floor |
| Floors.Tower.PlaceIndoors | research/jev-trial/floors2.py:414-436 | the passes end, with no doorway and no ledge between a level with a floor and one without; a level whose names say off the ground takes a door's floor only once nothing else moves |
| Floors.Tower.StackOf | research/jev-trial/floors2.py:439-447 | the levels without floors that hang together |
| Floors.PlacedBack | research/jev-trial/floors2.py:439-454 | a walk from any level of a stack reaches the level the stack was grown from |
| Floors.Tower.PlaceStack | research/jev-trial/floors2.py:439-454 | a level left without a floor gets one by its stack's biggest level being put on 0 and climbed from |
| Floors.Tower.PlaceRest | research/jev-trial/floors2.py:449-454 | every level ends with a floor, by ledges from the bases of whole stacks, each the biggest of its stack |
| Floors.FloorsOf | research/jev-trial/floors2.py:328-454 | all steps together: every level placed, each placement resting on earlier ones; a level is put on 0 only as a main deck, outdoor ground, an outdoor cluster once the outdoors is walked, or the biggest of a whole stack once everything is; outdoors, doors and stacks come in that order; a level is placed over a reader's climb only after the map's own were followed as far as they go |
| Conflicts.LedgesOf | research/jev-trial/floors2.py:322-326 | the ledges are the climbs between levels, from both ends |
| Conflicts.WorldIsValid | research/jev-trial/floors2.py:322-345 | those ledges and doors meet what the placing asks |
| Conflicts.FloorsAreRight | research/jev-trial/floors2.py:226-457 | room heights that fit merges, doorways, climbs between levels and zeros are the floors of all rooms |
| Conflicts.FittingFloorsAgree | research/jev-trial/floors2.py:226-482 | and then no climb between two levels is reported, nor any doorway |
| Conflicts.ClimbConflicts | research/jev-trial/floors2.py:458-475 | exactly the climbs looked at that neither rise by their step nor span floors are reported, in order, each once; the spans are counted |
| Conflicts.QuietWhenAllRise | research/jev-trial/floors2.py:458-475 | nothing is reported and nothing spans exactly when every climb looked at rises by its step |
| Conflicts.NoneBetweenLevels | research/jev-trial/floors2.py:458-475 | when the floors are fitting heights, no climb between two levels is reported |
| Conflicts.DoorwayConflicts | research/jev-trial/floors2.py:476-482 | exactly the doorways across floors whose pair was not met the other way are reported, in order |
| Conflicts.DoorwayOnce | research/jev-trial/floors2.py:476-482 | a pair of rooms is never reported both ways, and one way only as often as the doorways list it |
| Shifts.FloorsAreShifted | research/jev-trial/floors2.py:330-454 | room heights that fit ledges and doors are the floors, each but for the height of the level on 0 it was placed from |
| Shifts.ShiftsAreAlike | research/jev-trial/floors2.py:439-454 | both ends of every ledge have one shift: it is one for each stack that was left |
| Shifts.FloorsFitUpToShifts | research/jev-trial/floors2.py:226-457 | room heights that fit merges, doorways, climbs between levels and the ground are the floors, but for one shift a stack; every climb between levels rises by its step |
| FloorMap.MapFloors | research/jev-trial/floors2.py:221-482 | the whole tool: slopes cut, levels merged, ledges and doors, floors, conflicts, each out of what the step before made |
| FloorMap.HeightsAreTheFloors | research/jev-trial/floors2.py:221-482 | end to end: for a map that has heights the floors are they, but for one shift a stack that was left; only climbs within a level are reported, and no doorway between levels placed before the stacks; no doorway was cut |
| Chokepoints.Reach | research/mapdb-inventory/chokepoints.py:61-78 | exactly the rooms reachable over exits whose blockers are ported |
| Chokepoints.ReachableMore | research/mapdb-inventory/chokepoints.py:61-78 | porting more never loses a room |
| Chokepoints.OffBorderGainsNothing | research/mapdb-inventory/chokepoints.py:61-78 | a shape off the border opens no room |
| Chokepoints.BestOnBorderIsBest | research/mapdb-inventory/chokepoints.py:85-87 | the best shape on the border is the best of all shapes |
| Chokepoints.Rank | research/mapdb-inventory/chokepoints.py:81-93 | each pick opens rooms, no fewer than any other shape would; it stops early only when no shape gains |
| Roads.PickIsCheapest | crates/cena-behavior/src/travel.rs:652-683 | the exit chosen is the cheapest the pricing admits, none exactly when it admits none |
| Roads.BannedIsNeverCrossed | crates/cena-behavior/src/travel.rs:652-663 | over a whole run no crossing begun is over an exit banned then or earlier |
| Travel.SentIsLawful | crates/cena-behavior/src/travel/pace.rs:188-241 | every command a tick sends ahead is that of an exit on record, admitted, and not banned when the tick began nor at any crossing before |
| Paces.RefusedSlows | crates/cena-behavior/src/travel/pace.rs:77-91 | a refusal means fewer moves at once or wider apart |
| Paces.LandedWhen | crates/cena-behavior/src/travel/pace.rs:141-157 | a batch has landed exactly in the last room it was sent to |
| Travel.BillShrinks | crates/cena-behavior/src/travel.rs:373-384 | paying the first debt takes the first deed off the bill and no other |
| Travel.Trip.Ban | crates/cena-behavior/src/travel.rs:267-270 | the ban is added and the plan thrown away; the laws of the run are kept |
| Travel.Trip.CannotSend | crates/cena-behavior/src/travel.rs:347-353 | the exit under way is given up and what it owes is the trip's; an aside is left beside the plan with nothing under way exactly when one was |
| Travel.Trip.GiveUpAside | crates/cena-behavior/src/travel.rs:347-353 | from any state with an aside under way that cannot be sent, the next planned crossing's answer is told as the aside's |
| Travel.AsideGivenUp | crates/cena-behavior/src/travel.rs:310-353 | the same from a new trip: steps asked for beside the plan, one tick of them, and what they ask for cannot be sent |
| Travel.Trip.NextOwed | crates/cena-behavior/src/travel.rs:373-384 | the first debt in order, and only that one cleared |
| Travel.Trip.Owed | crates/cena-behavior/src/travel.rs:359-361 | all debts, in order, cleared, with a crossing under way or none |
| Travel.DeedsAreCareful | crates/cena-behavior/src/travel/steps.rs:543-584 | every deed of a crossing's steps drops no debt but the one it pays |
| Travel.Trip.StandFirst | crates/cena-behavior/src/travel/standing.rs:63-91 | one `stand` at a time, at most the most allowed, and none when afloat or waived |
| Travel.Trip.SendAhead | crates/cena-behavior/src/travel/pace.rs:188-241 | the commands sent are those of exits put on record there and then, admitted, to the rooms taken off the plan in order; no more unanswered than the typeahead allows |
| Travel.Trip.BatchTick | crates/cena-behavior/src/travel/pace.rs:246-293 | what a batch does with a tick: stopped, settled, paced, sent on; none only with no batch left and the walker settled |
| Travel.Trip.Plan | crates/cena-behavior/src/travel.rs:640-648 | plans are counted and never pass the most |
| Travel.Trip.GiveUpOn | crates/cena-behavior/src/travel.rs:501-528 | what is banned and what is held wrong when a crossing is given up |
| Travel.Trip.RoutineOver | crates/cena-behavior/src/travel.rs:439-450 | a routine that failed or never moved is banned; off its exit the trip plans again |
| Travel.Trip.TickInner | crates/cena-behavior/src/travel.rs:420-530 | one tick ends whatever crossings answer; bans only grow, a debt goes only with the deed that pays it, what is sent is on record, a planned crossing under way after it was begun in it or before it with no new plan, an ending answer is true, and what is told as an aside's is an aside's |
| Travel.Trip.Crossing | crates/cena-behavior/src/travel.rs:475-555 | what each answer of the crossing under way makes of the tick: passed on, believed at the goal, or given up and planned again, a banned exit not being what is crossed next |
| Travel.Trip.StepFrom | crates/cena-behavior/src/travel.rs:559-574 | arrived at the goal, failed off the map, and planned again with nothing ahead; and what every tick keeps |
| Travel.Trip.BeginNext | crates/cena-behavior/src/travel.rs:575-629 | no plan left fails, an exit gone plans again, a routine handed over is on record as admitted; and what every tick keeps |
| Travel.Trip.Replan | crates/cena-behavior/src/travel.rs:631-638 | another plan is counted, or the trip has failed for planning too often |
| Travel.Trip.Tick | crates/cena-behavior/src/travel.rs:391-401 | the trip says it is over only owing nothing, else it hands over the first debt; steps asked for beside the plan are what it ticks next; and what every tick keeps |
| Travel.Trip.WindUp | crates/cena-behavior/src/travel.rs:391-401 | from an ended trip each debt is handed over once, in order, in at most four ticks, and nothing more is begun |
| Keys.SplitDotted | crates/cena-behavior/src/settings.rs:328-339 | parts joined with dots are split back |
| Keys.DecimalParses | crates/cena-behavior/src/settings.rs:356-357 | a printed number is read back |
| Settings.SetLooksUp | crates/cena-behavior/src/settings.rs:251-256 | after a successful set the trimmed key leads to the value |
| Settings.UnsetLooksUp | crates/cena-behavior/src/settings.rs:271-276 | after a successful unset it leads to nothing, and the answer says what it led to |
| Settings.SetLeavesOthers | crates/cena-behavior/src/settings.rs:379-429 | an unrelated key keeps its value when the way converts nothing |
| Settings.UnsetLeavesOthers | crates/cena-behavior/src/settings.rs:379-429 | an unset never touches an unrelated key |
| Settings.BeforeIsLookedUp | crates/cena-behavior/src/settings.rs:251-276 | the value said to be replaced is the one looked up, when the way converts nothing |
| Settings.ListKeepsItsSteps | crates/cena-behavior/src/settings.rs:393-400 | a list in the way becomes a table with its items at `steps` |
| Settings.FailedSetUnchanged | crates/cena-behavior/src/settings.rs:379-429 | a failed set changes nothing exactly when no list was converted |
| Settings.FailedSetMayChange | crates/cena-behavior/src/settings.rs:379-429 | setting `x.steps.1.y` on a list of one scalar fails and leaves it a table; the callers throw the table away |
| Printing.Flatten | crates/cena-behavior/src/settings.rs:341-362 | the recursive loop pushes the lines of a table after those there |
| Printing.TopNamesWhen | crates/cena-behavior/src/settings.rs:341-362 | every printed key is its value's whole path exactly when nothing printable stands under an empty top key |
| Printing.EmptyKeyMisprints | crates/cena-behavior/src/settings.rs:341-347 | a table under an empty key whose printed line names nothing |
| Printing.PrintedLooksUp | crates/cena-behavior/src/settings.rs:328-362 | otherwise, with dot-free keys, every printed key looks up to its value and none is printed twice |
| Printing.LinesUnderAKey | crates/cena-behavior/src/settings.rs:284-298 | the same for the lines under one key, whatever stands under an empty key |
| Rebuilding.PrintedRebuilds | crates/cena-behavior/src/settings.rs:251-362 | settings printed and set line by line from nothing are the same settings in the same order exactly when they are tidy |
| Rebuilding.ListIsNotRebuilt | crates/cena-behavior/src/settings.rs:341-429 | a failing input: a list of tables comes back as a table with numbers for keys |
| Rebuilding.SetKeepsTidy | crates/cena-behavior/src/settings.rs:251-256 | whatever key is typed, setting what a line says keeps tidy settings tidy |
| Waggle.CountIsTheLesser | crates/cena-behavior/src/waggle.rs:374-380 | the count found is the lesser of the ceiling and the casts needed |
| Waggle.StackingCount | crates/cena-behavior/src/waggle.rs:359-382 | a stackable count is that lesser, at least one, and ends less than a cast past the stop |
| Waggle.OrderedIsTheList | crates/cena-behavior/src/waggle.rs:320-326 | a pass's order is a permutation of the cast list, 625 and 1612 first when stacking |
| Waggle.CastIsWithin | crates/cena-behavior/src/waggle.rs:328-437 | a cast counted in leaves its spell below the stop plus a cast when stacking, at most the refreshing least plus a cast when refreshing, at most a cast otherwise, if a cast gives no more minutes than when it was chosen |
| Waggle.OneBoundWhen | crates/cena-behavior/src/waggle.rs:359-387 | the one bound, stop plus a cast, covers all three exactly when the stop is above the refreshing least and above none |
| Waggle.BoundsAreMet | crates/cena-behavior/src/waggle.rs:383-387 | the bounds of the other two passes are reached |
| Waggle.MoreMinutesGoOver | crates/cena-behavior/src/waggle.rs:421-437 | with more minutes at the count than at the choice the bound can fail |
| Waggle.Waggler.Next | crates/cena-behavior/src/waggle.rs:235-302 | the next command always comes; a cast is one that is due by what is known at that step, the first spell the pass wants and can send is cast, someone new is asked about; everyone is taken in turn, and left only when given up, skipped for not sharing, or with every place of every pass sent from or found unwanted at some step; the end means all were served |
| Waggle.Waggler.Offer | crates/cena-behavior/src/waggle.rs:259-302 | for the target in hand: the first wanted spell that can be sent is cast, else the run moves on |
| Waggle.StaysServed | crates/cena-behavior/src/waggle.rs:235-441 | a target served stays served whatever is given up, sent or found unwanted later |
| Waggle.Waggler.Outcome | crates/cena-behavior/src/waggle.rs:395-441 | what each answer makes of the run, by what is known when it is heard; spells stay bounded if a counted cast gives no more minutes than when it was chosen |
| Builtins.StepKeeps | bridges/ruby/hydra/builtins.rb:87-185 | every step of any script or of the errand thread keeps the protocol's invariant |
| Builtins.StoppedExactlyOnce | bridges/ruby/hydra/builtins.rb:87-149 | a killed script's run is queued to stop exactly once, and a run whose script stayed never |
| Builtins.OnlyRunsAreStopped | bridges/ruby/hydra/builtins.rb:115-185 | nothing is stopped that was not started for a script |

## Left out

- Sockets, HTTP, MCP, SQLite, processes, threads and timers: plumbing over libraries. A lock is one atomic step, and a `Notify` is none.
- `wait` around `read`: its timeouts and wake-ups; only the answer it gives is modelled.
- Watcher.NothingLeaksWhen: the events that arrive, those lost, and the level read from the door are inputs, with the cursors the session promises; that tools also check the level when they are called is not part of this model.
- Rust's character classes: `alphanumeric` is a parameter of the lexer, with what the proofs need of it.
- UTF-8: whether a chunk's bytes are text is a parameter of `Embedded`.
- Grammar.WrittenIsReadBack: covers tokens that lie within one line; tokens that span lines are covered by `LexAllJoins` and by `RemovalIsAFixpoint`, which holds for any text.
- `tokens`, `items`, `outline` and the rest of the architecture checks.
- The GUI, picture decoding, anchor rounding and TOML text in `calibration.rs`.
- Loading the map and classifying its commands: level moves, climbs, outdoors, descriptions, plates, slope commands and dead ends are inputs of the floor model. The exits kept by `route_key.py` and `chokepoints.py` are inputs too.
- Floors.FloorsOf: the orders in which the levels are taken are parameters, so it holds for any order; that the source sorts them by size and pocket is not modelled, nor are the confidence grades after the floors.
- RouteKey.Distances: costs are exact reals; the source adds floating-point numbers.
- FloorMap.MapFloors: walkable rooms, dead-end pockets and what the names say of levels are inputs; the exits not walkable are taken to be left out already.
- Slopes.CutSlopes: the command text a cut records is not kept.
- Chokepoints.Rank: shapes are numbers in the order of their names, which break ties; the printed table is not modelled.
- Travel.Trip.TickInner: what a crossing under way answers is an arbitrary function of the trip's draws and the crossing, so `Run::tick` with its remedies, the prompts and the lines it hears are not modelled; neither is the pathfinder, whose plan is arbitrary too. Every property holds whatever they answer but those of debts, which ask of each answer that it drop a debt only with the deed that pays it (`Careful`), as the steps' own deeds do (`DeedsAreCareful`).
- Travel.Trip.Heard: a line is what the trip reads out of it, that standing cannot be done here or the number a typeahead refusal names; the classifier of the game's text is left out.
- Travel.Trip.Tick: time is an unbounded counter that does not go back, prices are reals, and the seed of the random numbers is a count of draws.
- `path_from`, `typeahead_learned` and the driver around the trip.
- `descend` works on a table through a moving reference; here it is a function from tables to tables that gives the tables after, also when it fails.
- Removing a key from a TOML table is taken to leave the other keys in order.
- Head comments, parsing and printing of TOML text, `typed`, `shown` and the files themselves.
- Printing.Flatten: a line is its key and its value; how a value is spelt after the equals sign is not modelled.
- Waggle.Waggler.Next: what is known of spells, mana and the caster, and the reading of `spell active`, are inputs of each step; minutes are reals.
- Waggle.Waggler.Outcome: a hindered cast is tried again without bound, as in the source; the driver's cap on steps is not modelled.
- Builtins.StoppedExactlyOnce: a second kill inside a killed script's own clean-up is not modelled; a lock and the push that follows it are two steps.
- Changes.DiffRoom: a creature found alive again is not told by the source, so only who is present is rebuilt.

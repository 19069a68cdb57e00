# A verified model of the simulator's core

The repository simulates microcontrollers. This project models, in Dafny 4.11, the parts of it whose
correctness is not visible in any one function, and proves what they are for:

* **The console's expression language** (`Scanner*.dfy`, `Parser*.dfy`, `Console*.dfy`). A scanner with
  compressed tables feeds a table-driven LALR(1) engine whose actions read and write simulated memory.
  The real tables are constants of the model. `Scanner.NextLexeme` is proved to find the longest match,
  `ParserLoop.YyParse` (two growable arrays, lookahead, error popping) is proved equal to an engine over
  one stack of states and values, and that engine is proved equal, on every token list, to a recursive
  precedence parser followed by an evaluator of syntax trees. The tables never mention precedence. What
  evaluation does to memory is stated bit by bit and cell by cell (`ConsoleEffects.dfy`).
* **Timer 1 of the CC2530** (`Timer1*.dfy`). The timer does not compare its counter with five compare
  registers at every tick; it predicts the next hit and counts it down in 16-bit arithmetic. For each of
  the three modes (where channel 0 sets the top: in compare mode, with a top from 1 to 0x7FFF) it is
  proved exactly when the timer does what a polling one does; the counter and the output pins have closed forms
  in every mode.
* **The MAC timer** (`MacTimer.dfy`): a mixed-radix counter, with its closed form, its flags and events.
* **The DMA engine** (`Dma*.dfy`): five state machines over one memory; non-interference, and what an
  armed channel, from the bytes of its configuration block to its interrupt, leaves in memory.
* **The HC08 core** (`Hc08*.dfy`): every handler and the whole opcode dispatch, proved to execute what the
  tables of the disassembler print, in signed and unsigned numbers. Programs that add and subtract
  numbers of any length, the branches that compare them, and the stack: every properly nested run of
  push/pull, JSR/RTS and SWI/RTI restores what it saved.
* **The two-lock protocol of `ptt.cc`** (`TwoLocks.dfy`), for any number of consoles and simulators.
* **Sorted collections and options** (`SortedList.dfy`).

Code that updates objects in place is modelled by classes (`ParserLoop.Engine`, `Timer1Device.Timer1`,
`MacTimerDevice.MacTimer`, `DmaDevice.DmaEngine`, `Hc08Device.Hc08`, `SortedListDevice.SortedList`) and
loops; each method is proved against a function on values, and the theorems are about these functions.
For the HC08 every handler has its method, and `Hc08Device.Hc08.ExecInst` carries them all.
`dafny verify dfyconfig.toml` checks everything.

Memory cells are a map from addresses to values. Symbol lookup, the random source behind a non-existing
address, the register writes and triggers that reach the DMA engine between two ticks, and the scheduler
of threads are parameters, so the theorems hold for all of them. The theorems about compare events of
Timer 1 are about stretches without pin edges on channels in capture mode and without register writes.

## What the proofs show about the code

The model follows the code where code and intention differ. These are consequences, stated as lemmas or
visible in the contracts:

* An expression followed by garbage is evaluated, stored and printed before it is rejected
  (`ConsoleParser.EngineReadsGrammar`). Division by zero reports an error and yields the dividend.
* No state shifts the error token, so recovery only pops (`ParserTables.NoErrorShift`).
* A channel of Timer 1 with the compare value 0 never fires in modulo mode; that is the only difference
  from polling (`Timer1Prediction.PollingIffNoZeroValue`). For the same reason a pin that an output mode
  sets on its value and clears on 0 is never cleared (`Timer1Pins.SetAndStays`), and output modes 0 to 2
  follow the value of channel 0 instead of the channel's own (`Timer1Pins.PinWave`).
* In free-running mode a single channel is served on its value and, up to once a turn, one tick early as
  well (`Timer1FreeRunning.EveryTurn`). Several channels are served for ever exactly under the condition
  of `Timer1Misses.NeverMissesIff`; channels 3 and 4 alone never are (`Timer1Misses.LastChannelsAlone`).
* In up/down mode prediction is exact on the way up (`Timer1UpDown.WayUp`). On the way down at most two
  values are served (`Timer1UpDown.WayDown`), for two reasons: channel 0, now behind, hides the others
  (`Timer1UpDown.RestIsMissed`), and channels 3 and 4 are measured upwards
  (`Timer1UpDownPolling.UpwardMeasureMisleads`). The exact conditions are
  `Timer1UpDownPolling.UpDownNeverMissesIff` and `UpDownSimple`.
* For the same reasons a pin in output mode 3 or 4 in up/down mode gives the pulse between its two values
  exactly if the way down serves the value; if not, it ends at the bottom, or never
  (`Timer1Levels.PwmWave`).
* The interrupt mask test of the MAC timer looks at bit 0 only (`MacTimerModel.OnlyPeriodInterrupts`).
* A DMA block with count 0 moves one unit (`DmaBlock.BlockEnds`). A trigger that reaches a channel in
  single mode between trigger and transfer makes the rest of its block follow without further triggers
  (`DmaBlock.OverrunGoesOn`), and arming a channel at the tick that disarms it is lost
  (`DmaConfig.RestsUntilArmed`).
* The HC08 stops at BIL and BIH, which the disassembler prints, and executes 0x96, which it does not, as a
  load from address 101 (`Hc08Flow.HaltsIff`, `Hc08Flow.UnlistedStep`).
* A simulator thread ignores its number of steps: the flag test overwrites it
  (`TwoLocks.LeavesIffCleared`).
* A full sorted list at its maximum size, or with a Delta that is not positive, is written past its end
  by the next insertion (`SortedListDevice.SortedList.AddAt`).
* `get_option(name, creator)` ends the whole program when the name is present at the end of the list and
  no option of that creator exists (`SortedListDevice.SortedList.GetOption`,
  `SortedListModel.LookupCanExit`).
* On the HC08, push followed by pop returns the value exactly when SP does not wrap
  (`Hc08Stack.PushPopIffInRange`), and RTI restores P only because bits 5 and 6 of P are always set
  (`Hc08Stack.RtiNeeds60`, `Hc08Stack.ReachableHas60`). SWI clears the interrupt mask; DAA leaves the
  right decimal carry but does not adjust A (`Hc08Meaning.DaaAfterAdd`); opcode 0x96 runs LDA from
  address 101; BIL and BIH halt. BHI, BLS, BGT and BLE do what they say only under the conditions of
  `Hc08Meaning.BranchMeansMnemonic`, BRSET and BRCLR never do (`Hc08Meaning.BitBranchIsInverted`).

## Model

| member | source | states |
|---|---|---|
| `ParserTables.TablesDecode` | cmd.src/cmdpars.cc:581-621 | the packed action tables, looked up as the engine does with every index in range, are the automaton, for all 37 states and 26 token numbers |
| `ParserTables.GotosDecode` | cmd.src/cmdpars.cc:585-621 | the packed goto tables are the automaton's gotos |
| `ParserTables.NoErrorShift` | cmd.src/cmdpars.cc:1388-1410 | in no state does the table have an entry for the error token |
| `ParserEngine.ReductionFindsItsHandle` | cmd.src/cmdpars.cc:1091-1112 | on every valid stack a reduction finds its whole right-hand side on both stacks, with values of the kinds its action reads |
| `ParserEngine.UncoveredStateGoesOn` | cmd.src/cmdpars.cc:1228-1280 | the state uncovered by a reduction has a goto on the reduced symbol |
| `ParserEngine.ActionsAreTyped` | cmd.src/cmdpars.cc:1114-1227 | every action yields the kind of value its left-hand side carries |
| `ParserEngine.ReductionKeepsValid` | cmd.src/cmdpars.cc:1091-1280 | a reduction keeps the invariant between state stack, value stack and tables |
| `ParserEngine.ReductionLowersWeight` | cmd.src/cmdpars.cc:1083-1280 | runs of reductions between shifts are well-founded |
| `ParserEngine.ShiftKeepsValid` | cmd.src/cmdpars.cc:1058-1081 | a shift keeps the invariant; only the end of input is shifted into the last state |
| `ParserEngine.ReduceIsDefault` | cmd.src/cmdpars.cc:1048-1089 | all reductions are default reductions |
| `ParserEngine.NoOverflow` | cmd.src/cmdpars.cc:937-944 | the stack never holds more symbols than tokens were read, so a list below the limit never overflows it |
| `ParserLoop.Engine.FillLookAhead` | cmd.src/cmdpars.cc:995-1030 | after it the lookahead is the next unread token |
| `ParserLoop.Engine.NextAction` | cmd.src/cmdpars.cc:979-1089 | the action chosen from the packed tables is the automaton's; a shift has read its lookahead |
| `ParserLoop.Engine.NewState` | cmd.src/cmdpars.cc:896-968 | pushes, doubling the arrays when full; fails exactly at the maximum depth |
| `ParserLoop.Engine.Grow` | cmd.src/cmdpars.cc:935-956 | both arrays keep their contents and become longer, never beyond the maximum |
| `ParserLoop.Engine.ShiftLookAhead` | cmd.src/cmdpars.cc:1058-1081 | shifts the token with its value; the end of input is not consumed |
| `ParserLoop.Engine.ReduceRule` | cmd.src/cmdpars.cc:1091-1280 | runs the action, pops the handle, pushes the result |
| `ParserLoop.Engine.Recover` | cmd.src/cmdpars.cc:1282-1410 | reports, pops everything and returns 1 |
| `ParserLoop.Engine.Step` | cmd.src/cmdpars.cc:896-1423 | one turn of the loop either ends with the engine's outcome or moves to a smaller configuration with the same outcome |
| `ParserLoop.YyParse` | cmd.src/cmdpars.cc:819-1423 | the imperative parser returns on every token list with the code and the memory of the engine on values |
| `ParserRefinement.MemRefines` | cmd.src/cmdpars.y:119-125 | from every state that takes a memory place the engine reads it, or fails on it, as recursive descent does |
| `ParserRefinement.PlaceRefines` | cmd.src/cmdpars.y:119-135 | the same for memory and bit places |
| `ParserRefinement.FactorRefines` | cmd.src/cmdpars.y:63-117 | the same for factors, assignments included |
| `ParserRefinement.TermRefines` | cmd.src/cmdpars.y:86-97 | `*` and `/` bind tighter than `+` and `-`, to the left |
| `ParserRefinement.ExprRefines` | cmd.src/cmdpars.y:86-104 | the engine reads a whole expression as recursive descent does, value and effects, and where that fails it rejects after the effects of the complete phrases before the error |
| `ConsoleReading.ExprIsGood` | cmd.src/cmdpars.y:59-135 | what recursive descent reads is a canonical tree whose tokens are the consumed prefix |
| `ConsoleReading.ReadBackIffCanonical` | cmd.src/cmdpars.y:33-37 | a tree is read back from its own tokens if and only if it obeys the precedences |
| `ConsoleReading.CanonicalTreesAreUnique` | cmd.src/cmdpars.y:33-37 | the precedences make the language unambiguous |
| `ConsoleParser.GoalReached` | cmd.src/cmdpars.cc:1116-1119 | a complete expression is printed once; the end of input accepts, anything else rejects |
| `ConsoleParser.EngineReadsGrammar` | cmd.src/cmdpars.cc:571-621 | on every token list and store, accepted or not, the engine's return code, printed value, messages and memory equal those of the recursive precedence parser and the tree evaluator, effects before a syntax error included, unless its stack overflows, which no list below the limit makes it do |
| `ConsoleParser.AcceptsExactlyCanonical` | cmd.src/cmdpars.cc:896-1423 | the engine accepts exactly the token lists of canonical trees and answers with the value and effects of the one tree |
| `ConsoleParser.ParenthesisedIsCanonical` | cmd.src/cmdpars.y:86-104 | a tree printed with every compound operand in parentheses is canonical and loses nothing |
| `ConsoleParser.StripKeepsMeaning` | cmd.src/cmdpars.cc:1177-1180 | parentheses change neither value nor effects |
| `ConsoleParser.PrintParseRoundTrip` | cmd.src/cmdpars.cc:896-1280 | print with parentheses, parse: the same tree, and the engine answers with its value; only a list too long for the stack can overflow |
| `ConsoleDerivation.ExprIsDerived` | cmd.src/cmdpars.cc:540-555 | every expression has a derivation tree by the grammar's own rule tables whose frontier is its tokens |
| `ConsoleDerivation.PostOrderEvaluates` | cmd.src/cmdpars.cc:1114-1227 | the 20 actions executed over that tree in post-order evaluate the expression |
| `ConsoleDerivation.AcceptedIsDerived` | cmd.src/cmdpars.cc:1091-1280 | soundness: whatever the engine accepts has a derivation from the goal symbol, and the printed value and final memory are those of its actions once each in post-order |
| `ConsoleEffects.AssignBit` | cmd.src/cmdpars.cc:1127-1143 | after a bit is assigned its mask bits are all set if the number is not 0 and all clear otherwise, every other bit of the cell and every other cell is as before |
| `ConsoleEffects.AssignCell` | cmd.src/cmdpars.cc:1120-1126 | after a cell is assigned it reads as the number modulo 2^16, and no other cell has changed |
| `ConsoleEffects.LoadTheBit` | cmd.src/cmdpars.cc:1189-1192 | a bit reads as 1 exactly if some bit of its mask is set in its cell, and as 0 otherwise |
| `ConsoleEffects.SelectedBit` | cmd.src/cmdpars.cc:1215-1225 | `m.e` has in its mask bit number e and no other of the 16, and the address that the processor gives that bit |
| `ConsoleEffects.AddressAnswers` | cmd.src/cmdpars.cc:1193-1207 | the address of a cell, or of a bit that has one; otherwise a message and 0 |
| `ConsoleEffects.DivisionAnswers` | cmd.src/cmdpars.cc:1160-1168 | a = q * b + r with r smaller than b in size and of the sign of a; division by 0 gives a message and the dividend |
| `ConsoleEffects.BitLine` | cmd.src/cmdpars.cc:1127-1143 | the same at the engine: the tokens of `bit = n` leave exactly that bit changed and answer with it |
| `ConsoleEffects.CellLines` | cmd.src/cmdpars.cc:1120-1126 | the tokens of `cell = n` and then `cell` at the engine: the number modulo 2^16 comes back |
| `ConsoleEffects.OperatorLine` | cmd.src/cmdpars.cc:1148-1176 | the lines `a + b * c`, `a - b - c` and `-a + b` answer with their arithmetic values |
| `ScannerTables.TablesDecode` | cmd.src/cmdlex.cc:324-401 | the compressed tables with their default chain are the automaton, for all states and classes |
| `Scanner.StateStep` | cmd.src/cmdlex.cc:567-582 | the automaton computes the state that the rules give to the text read so far |
| `Scanner.AcceptIsFirstRule` | cmd.src/cmdlex.cc:324-330 | a state accepts exactly the first rule that matches the text |
| `Scanner.DeadForever` | cmd.src/cmdlex.cc:582 | after a state without successors nothing matches, whatever follows |
| `Scanner.BackUpIsLongest` | cmd.src/cmdlex.cc:584-591 | backing up to the last accepting position gives the longest match |
| `Scanner.LongestIsUnique` | cmd.src/cmdlex.cc:555-593 | rule and length of the longest match are unique |
| `Scanner.Transition` | cmd.src/cmdlex.cc:573-579 | the default chain terminates and gives the automaton's successor |
| `Scanner.MatchLoop` | cmd.src/cmdlex.cc:565-582 | the loop ends in a state without successors and remembers the last match |
| `Scanner.NextLexeme` | cmd.src/cmdlex.cc:555-593 | every non-empty text yields its longest match, by the first rule that has it |
| `Scanner.PreviousState` | cmd.src/cmdlex.cc:1039-1064 | rescanning gives the state and the last match at the end of the text |
| `Scanner.Scan` | cmd.src/cmdlex.cc:804-812 | every text is split into longest matches that concatenate to it |
| `Scanner.MunchedConcat` | cmd.src/cmdlex.cc:555-593 | lexemes concatenate to the text they were taken from |
| `Scanner.MunchedIsUnique` | cmd.src/cmdlex.cc:555-593 | there is only one such split |
| `ConsoleText.DecimalReadsBack` | cmd.src/cmdlex.cc:668-674 | a number written in decimal is read back |
| `ConsoleText.HexReadsBack` | cmd.src/cmdlex.cc:668-674 | a number written in hexadecimal, with any leading zeros and any mixture of letter cases, is read back |
| `ConsoleText.OctalReadsBack` | cmd.src/cmdlex.cc:668-674 | a number written in octal with its leading zeros is read back |
| `ConsoleText.OctalPartIs` | cmd.src/cmdlex.cc:668-674 | what follows the octal part of a literal that starts with 0, from the first 8 or 9 on, does not count |
| `ConsoleText.LiteralReadsBack` | cmd.src/cmdlex.cc:668-674 | every literal, written by the three writers, is read as the number it was written for |
| `ConsoleText.EveryNumberIsLiteral` | cmd.src/cmdlex.cc:668-674 | and every digit string and hexadecimal literal the scanner takes is such a literal |
| `ConsoleText.WordIsLexeme` | cmd.src/cmdlex.cc:608-690 | a written token is one lexeme, and gives back that token, if and only if what follows cannot continue it; numbers in decimal, octal or hex |
| `ConsoleText.LexemesAreMunched` | cmd.src/cmdlex.cc:555-593 | a line is split exactly into its words and the runs of blanks and tabs between them |
| `ConsoleText.TextRoundTrip` | cmd.src/cmdlex.cc:555-690 | however a canonical expression is written down, with any literals and any blanks or none where words end by themselves, scanner and parser together answer with its value |
| `Timer1Prediction.PredictsNearest` | s51.src/CC2530timer1.cc:333-382 | below the top the prediction is the distance to the nearest compare value ahead |
| `Timer1Prediction.TickIsExact` | s51.src/CC2530timer.cc:368-410 | a modulo tick runs `CaptureCompare` exactly if the new count is a compare value other than 0, and keeps the prediction exact |
| `Timer1Prediction.PredictionIsPolling` | s51.src/CC2530timer.cc:368-410 | after any number of ticks the whole state (count, pins, flags, events) is that of a timer that polls all five channels |
| `Timer1Prediction.PollingIffNoZeroValue` | s51.src/CC2530timer1.cc:333-382 | prediction equals polling for ever if and only if no compare channel has the value 0 |
| `Timer1Prediction.FreshPredictionIsExact` | s51.src/CC2530timer1.cc:333-382 | a new prediction is exact from any count |
| `Timer1FreeRunning.Countdown` | s51.src/CC2530timer.cc:338-366 | until the wrapped countdown ends nothing happens |
| `Timer1FreeRunning.FreshPredictionTracks` | s51.src/CC2530timer1.cc:333-382 | a new prediction is the wrapped distance, or one less when made on the value itself |
| `Timer1FreeRunning.TickTracks` | s51.src/CC2530timer.cc:338-366 | across wrap-around `CaptureCompare` runs at every tick that reaches the compare value and at no other but the one before it |
| `Timer1FreeRunning.Scheduled` | s51.src/CC2530timer.cc:338-366 | from every state that counts down one channel and for every number of ticks: the exact list of counts at which `CaptureCompare` runs |
| `Timer1FreeRunning.EveryTurn` | s51.src/CC2530timer.cc:338-366 | in every stretch of 65536 ticks, wherever it starts, it runs exactly once on the compare value and at most once more |
| `Timer1Misses.PredictionForm` | s51.src/CC2530timer1.cc:333-382 | what the loop predicts for any set of channels: nothing, the first deciding distance if that is negative, or the least positive one |
| `Timer1Misses.MissesIffBlocked` | s51.src/CC2530timer1.cc:333-382 | a free-running prediction comes after some compare value if and only if the first deciding channel lies behind the count and another comes sooner, or no channel 0-2 decides and 3 or 4 would |
| `Timer1Misses.NeverMissesIff` | s51.src/CC2530timer.cc:338-366 | from a new prediction on, no compare value is ever missed if and only if no prediction is blocked now, at any compare value, or just before the value if there is only one |
| `Timer1Misses.FreePollingIff` | s51.src/CC2530timer.cc:338-366 | from a new prediction on, a free-running timer is at every tick in the state of a polling one if and only if there are two compare values or more and none is ever missed |
| `Timer1Misses.LastChannelsAlone` | s51.src/CC2530timer1.cc:360-375 | channel 3 or 4 without one of channels 0-2 always misses values |
| `Timer1UpDown.WayUp` | s51.src/CC2530timer.cc:412-466 | counting up, `CaptureCompare` runs at exactly the compare values, for all channels |
| `Timer1UpDown.WayDown` | s51.src/CC2530timer.cc:412-466 | counting down, the exact list of runs, whatever the channels hold: at most two |
| `Timer1UpDown.RestIsMissed` | s51.src/CC2530timer1.cc:348-355 | after a prediction made more than one below the top, every value down to 0 is missed |
| `Timer1UpDown.FullPeriod` | s51.src/CC2530timer.cc:412-466 | the runs of a whole period from the bottom to the bottom |
| `Timer1UpDown.DownTickRuns` | s51.src/CC2530timer.cc:412-466 | tick by tick on the way down: `CaptureCompare` runs if and only if the count is in that list |
| `Timer1UpDown.ServesIff` | s51.src/CC2530timer1.cc:333-382 | the list has every compare value below if and only if a condition on the channel settings holds, whatever the values are |
| `Timer1UpDown.FollowsIff` | s51.src/CC2530timer1.cc:333-382 | the same for the list being exactly the compare values below |
| `Timer1UpDownPolling.UpDownNeverMissesIff` | s51.src/CC2530timer.cc:412-466 | from a new prediction on, no compare value is ever missed if and only if the settings serve the way down, for all values on and off the triangle |
| `Timer1UpDownPolling.UpDownPollingIff` | s51.src/CC2530timer.cc:412-466 | from a new prediction on, the timer is at every tick in the state of a polling one if and only if the runs of the way down are its values |
| `Timer1UpDownPolling.GoodIsSimple` | s51.src/CC2530timer1.cc:333-382 | with all values on the triangle both conditions say: values below the top stand on channels 1 and 2 only, and two different ones are the top less one and, unless channels 3 and 4 keep off the top, the top less two |
| `Timer1UpDownPolling.UpDownSimple` | s51.src/CC2530timer.cc:412-466 | so nothing is ever missed, and prediction is polling, if and only if the channels are like that |
| `Timer1UpDownPolling.UpwardMeasureMisleads` | s51.src/CC2530timer1.cc:360-375 | an input where channel 3, measured upwards, makes the timer run at 8, which is no value, and miss 3 |
| `Timer1Pins.PinWave` | s51.src/CC2530timer.cc:153-290 | the pin of every channel after n ticks in modulo mode, in all eight output modes, from the visits of the top and of the own value |
| `Timer1Pins.BottomRun` | s51.src/CC2530timer.cc:185-274 | at count 0, which only a pin event serves in modulo mode, modes 3 to 6 take their pins back |
| `Timer1Pins.SetAndStays` | s51.src/CC2530timer.cc:176-207 | in modulo mode a pin set by output mode 3 or 5 is never cleared again |
| `Timer1Pins.EdgesAreCaptured` | s51.src/CC2530timer1.cc:130-149 | the count goes into exactly the channels in capture mode whose pin had a wanted edge, and every edge is then seen |
| `Timer1Levels.OneRun` | s51.src/CC2530timer.cc:155-278 | what one run makes of the pin in free-running and up/down mode: in up/down mode output mode 3 is high exactly if the phase lies in [value, 2 * top - value) and mode 4 its opposite; in modes 5 and 6 the own value decides against the top |
| `Timer1Levels.PinHistory` | s51.src/CC2530timer.cc:155-278 | the pin after every number of ticks in all eight output modes and both counting modes: decided by the last run at a count that matters to the mode, or by the parity of these runs |
| `Timer1Levels.PeriodicRuns` | s51.src/CC2530timer.cc:412-466 | in every period the runs are at the compare values on the way up and at the list of the way down |
| `Timer1Levels.PwmWave` | s51.src/CC2530timer.cc:185-231 | modes 3 and 4 in up/down mode, for every tick from the first visit of the value: the pulse between the two visits of the value exactly if the way down serves it; otherwise to the bottom if that is served, and otherwise for ever |
| `Timer1Levels.SetClearWave` | s51.src/CC2530timer.cc:232-274 | modes 5 and 6 in up/down mode: from the value to the top, and on from the value on the way down exactly if that is served |
| `Timer1Levels.TopWave` | s51.src/CC2530timer.cc:167-183 | modes 0 to 2 in up/down mode: by the number of visits of the top, one a period |
| `Timer1Levels.FreeSetClear` | s51.src/CC2530timer.cc:232-274 | modes 5 and 6 in a free-running timer that misses nothing: whichever of own value and top was passed last decides, and the own value if they are equal |
| `Timer1Levels.FreePwm` | s51.src/CC2530timer.cc:207-231 | modes 3 and 4 in such a timer with some channel at 0: from the own value to 0 |
| `Timer1Levels.FreeTops` | s51.src/CC2530timer.cc:167-183 | modes 0 to 2 in such a timer: by the number of visits of the top |
| `Timer1Reports.ControlReadsBack` | s51.src/CC2530timer.cc:127-152 | a control register written field by field is read back: compare mode, output mode, interrupt, and which edges are wanted |
| `Timer1Reports.RunReports` | s51.src/CC2530timer1.cc:123-213 | a run reports the compare events of exactly those of channels 0 to 2 whose turn it is, in order, and sets exactly the flags of the edges caught |
| `Timer1Reports.FreeWave` | s51.src/CC2530timer.cc:338-366 | in free-running mode the count in closed form, and an overflow exactly whenever it reaches 0 |
| `Timer1Reports.PinEventIsServed` | s51.src/CC2530timer.cc:338-466 | in every mode the tick after a change of a pin runs `CaptureCompare` at the new count, and every wanted edge is captured there |
| `Timer1Reports.OverflowInterrupts` | s51.src/CC2530timer.cc:338-466 | over any number of ticks in any mode the overflow flag and its interrupt are raised exactly by an overflow with the mask set |
| `Timer1Waveforms.ModuloWave` | s51.src/CC2530timer.cc:368-410 | sawtooth: count (c0 + n) mod (CC0 + 1) and one overflow a turn |
| `Timer1Waveforms.UpDownWave` | s51.src/CC2530timer.cc:412-466 | triangle wave of period 2 CC0, its direction, and one overflow a period |
| `Timer1Device.Timer1.GetNextCcEvent` | s51.src/CC2530timer1.cc:333-382 | the loop over the channels computes the prediction |
| `Timer1Device.Timer1.RunCaptureCompare` | s51.src/CC2530timer1.cc:123-213 | pins, flags and events of all channels whose turn it is |
| `Timer1Device.Timer1.DoFreeRunningMode` | s51.src/CC2530timer.cc:338-366 | the loop makes that many ticks |
| `Timer1Device.Timer1.DoModuloMode` | s51.src/CC2530timer.cc:368-410 | the loop makes that many ticks |
| `Timer1Device.Timer1.DoUpDownMode` | s51.src/CC2530timer.cc:412-466 | the loop makes that many ticks |
| `Timer1Device.Timer1.TimerTick` | s51.src/CC2530timer1.cc:296-330 | dispatches on the mode |
| `Timer1Device.Timer1.Tick` | s51.src/CC2530timer.cc:52-77 | the prescaler passes on the multiples of the prescale value in the interval |
| `Timer1Device.TickBatches` | s51.src/CC2530timer.cc:52-77 | of two equal timers one given a and then b cycles, the other a + b, both end up equal, in every mode and for every prescale value |
| `MacTimerModel.OverflowCounts` | s51.src/CC2530timer2.cc:457-503 | the three bytes count modulo the overflow period, carries included |
| `MacTimerModel.UpTickCounts` | s51.src/CC2530timer2.cc:421-436 | one cycle in numbers, for every setting of the registers |
| `MacTimerModel.ClosedForm` | s51.src/CC2530timer2.cc:421-503 | after t cycles count is t mod p and the overflow counter (t div p) mod q |
| `MacTimerModel.OnlyPeriodInterrupts` | s51.src/CC2530timer2.cc:505-565 | an interrupt is requested exactly by a period event with bit 0 of the mask |
| `MacTimerModel.CycleFlags` | s51.src/CC2530timer2.cc:421-565 | the flags after a cycle from count, overflow count and registers, the two event outputs from T2EVTCFG, and CSPT, which counts overflows down and rests at 0xFF |
| `MacTimerDevice.MacTimer.RunOverflow` | s51.src/CC2530timer2.cc:457-503 | the in-place byte updates are the overflow function |
| `MacTimerDevice.MacTimer.RunCountCompare` | s51.src/CC2530timer2.cc:505-565 | the in-place flag and event updates are the compare function |
| `MacTimerDevice.MacTimer.DoUpMode` | s51.src/CC2530timer2.cc:421-436 | the loop makes that many cycles |
| `DmaIsolation.StepDependsOnReads` | s51.src/CC2530DMA.cc:216-396 | a channel step depends on nothing but the cells it reads |
| `DmaIsolation.StepStaysInStep` | s51.src/CC2530DMA.cc:158-178 | in the middle of a tick, too, every channel is as it would be alone |
| `DmaIsolation.TicksStayAsAlone` | s51.src/CC2530DMA.cc:158-178 | after every tick each channel and its destination are as alone |
| `DmaIsolation.NonInterference` | s51.src/CC2530DMA.cc:145-178 | with nobody else reading or writing a channel's destination, the interleaved run of five channels gives each the states and memory effect of running alone and touches nothing else |
| `DmaBlock.LoadedCount` | s51.src/CC2530DMA.cc:242-327 | 0 <= count <= LEN <= 0x1FFF in every length mode |
| `DmaBlock.BlockGoesOn` | s51.src/CC2530DMA.cc:346-390 | from the trigger on a block goes on, whatever triggers and register writes arrive |
| `DmaBlock.BlockEnds` | s51.src/CC2530DMA.cc:346-390 | exactly max(1, count) transfers after the trigger; the channel sets DMAIRQ then and not before, and interrupts if its mask is set at that tick |
| `DmaBlock.BytesArrive` | s51.src/CC2530DMA.cc:216-238 | every destination byte is the source byte of the moment of the trigger, the rest is untouched, for all non-zero destination strides and all inputs |
| `DmaBlock.WordsArrive` | s51.src/CC2530DMA.cc:216-238 | the same for words with strides of 2 |
| `DmaBlock.WordUnit` | s51.src/CC2530DMA.cc:216-238 | one word in either direction: the second byte lies above the first, or below it if the destination counts down |
| `DmaBlock.MaskOfBlock` | s51.src/CC2530DMA.cc:399-432 | the interrupt mask of a running block is the loaded one, or set by a write of 1 into its bit of DMAIRQ since |
| `DmaBlock.TriggerIsTaken` | s51.src/CC2530DMA.cc:346-353 | taking a trigger uses it up; the next one needs a request or the event of the channel |
| `DmaBlock.SingleMovesOne` | s51.src/CC2530DMA.cc:354-390 | in single mode one trigger moves one unit and the channel waits again, and the last unit interrupts |
| `DmaBlock.OverrunGoesOn` | s51.src/CC2530DMA.cc:354-390 | a second trigger before the unit has moved makes the rest of the block follow by itself |
| `DmaBlock.EngineMovesBytes` | s51.src/CC2530DMA.cc:158-178 | the same in the engine, with four other channels running on their own ground |
| `DmaBlock.EngineMovesWords` | s51.src/CC2530DMA.cc:158-178 | the same for words |
| `DmaConfig.LoadsWhatWasWritten` | s51.src/CC2530DMA.cc:242-327 | a channel loaded from a block written for a job has exactly the parameters of the job: source, destination, count by VLEN and LEN, width, mode, trigger, both strides and mask |
| `DmaConfig.ArmedMovesBytes` | s51.src/CC2530DMA.cc:330-396 | in the engine: an idle channel that is armed with a block in memory and later gets its event or a request leaves byte k of the block's source at byte k of the block's destination and interrupts |
| `DmaConfig.ArmedMovesWords` | s51.src/CC2530DMA.cc:330-396 | the same for words |
| `DmaConfig.RepeatReloads` | s51.src/CC2530DMA.cc:366-372 | a channel that repeats loads its block again after the last unit and waits for the next signal |
| `DmaConfig.RestsUntilArmed` | s51.src/CC2530DMA.cc:366-390 | one that does not is disarmed and stays idle until it is armed |
| `DmaDevice.DmaEngine.TransferUnit` | s51.src/CC2530DMA.cc:216-238 | one unit moved in place, addresses and count advanced |
| `DmaDevice.DmaEngine.LoadConfiguration` | s51.src/CC2530DMA.cc:242-327 | the channel becomes what its configuration block says |
| `DmaDevice.DmaEngine.StateTrans` | s51.src/CC2530DMA.cc:329-396 | one step of one channel, the other four unchanged |
| `DmaDevice.DmaEngine.RunTick` | s51.src/CC2530DMA.cc:158-178 | the loop over the channels is the tick function |
| `TwoLocks.StepKeepsInv` | ptt.cc:22-66 | every step of every thread keeps: a lock's owner is the thread whose place in the code holds it |
| `TwoLocks.RunsKeepInv` | ptt.cc:22-143 | the same in every state of every run, with any number of threads |
| `TwoLocks.PcIsProtected` | ptt.cc:42-63 | PC is counted up only by a simulator holding both locks, and set only under the application lock |
| `TwoLocks.PcIsSetPlusCounts` | ptt.cc:42-63 | after every run PC is the last number that a console set, or the first one, plus the simulation steps since |
| `TwoLocks.FlagIsLastCommand` | ptt.cc:98-143 | the flag is up exactly if the last command to touch it was a run that got the simulation lock |
| `TwoLocks.CommandFollowsScript` | ptt.cc:82-143 | each command makes its actions on locks, PC and flag one by one in the order of its code, and nothing else |
| `TwoLocks.StepsToGo` | ptt.cc:41-51 | the steps to go are counted down by the finished steps if positive |
| `TwoLocks.OneSimulatorRuns` | ptt.cc:34-66 | at most one simulator is between acquiring and releasing the simulation lock |
| `TwoLocks.StopMeansStopped` | ptt.cc:129-143 | a stop command that got the simulation lock sees no simulator running |
| `TwoLocks.AppHolderIsEnabled` | ptt.cc:22-32 | the holder of the application lock never waits for a lock |
| `TwoLocks.NoDeadlock` | ptt.cc:22-143 | in every reachable state, if a thread is busy then a busy thread can go on |
| `TwoLocks.StoppedStep` | ptt.cc:42-66 | under a cleared flag every step of a simulator brings it nearer its end, and no one else moves it |
| `TwoLocks.StopIsBounded` | ptt.cc:42-63 | once the flag is cleared and stays so each live simulator counts at most once more and exits within six of its steps, whatever steps2go is |
| `TwoLocks.SystemIsBounded` | ptt.cc:82-143 | once the flag is cleared and stays so and no console takes a new command, the whole system makes at most a number of steps fixed by where its threads are |
| `TwoLocks.StopReturns` | ptt.cc:127-143 | where no busy thread can go on nobody is busy: every stop command has returned and every simulator exited |
| `TwoLocks.LeavesIffCleared` | ptt.cc:46-61 | a simulator leaves its loop after a step if and only if the flag was clear when it tested it, whatever its number of steps to go and whatever others do |
| `TwoLocks.RestMeansExited` | ptt.cc:34-66 | in a system at rest every simulator has exited and both locks are free |
| `Hc08Model.FlagsRoundTrip` | hc08.src/regshc08.h:63-69 | P survives being packed into a byte |
| `Hc08Stack.PushIsCons` | hc08.src/hc08mac.h:28 | push1 puts one byte on top of the abstract stack |
| `Hc08Stack.Push2IsCons` | hc08.src/hc08mac.h:27 | push2 puts two bytes on top, high byte uppermost |
| `Hc08Stack.DropIsTail` | hc08.src/hc08mac.h:29-30 | pop removes the top |
| `Hc08Stack.TopIsHead` | hc08.src/hc08mac.h:29-30 | pop1 and pop2 read the top of the abstract stack |
| `Hc08Stack.PushPopIffInRange` | hc08.src/hc08mac.h:27-30 | every value comes back if and only if SP does not wrap |
| `Hc08Stack.StepKeeps60` | hc08.src/hc08.cc:406-591 | no opcode clears bits 5 and 6 of P |
| `Hc08Stack.ReachableHas60` | hc08.src/hc08.cc:90-102 | bits 5 and 6 of P are set in every state reachable from reset |
| `Hc08Stack.PlainKeepsSp` | hc08.src/hc08.cc:406-591 | all instructions but the stack ones, TXS, RSP and AIS leave SP alone |
| `Hc08Stack.CloseRestores` | hc08.src/inst.cc:994-1013 | a pull, RTS or RTI that fits the innermost frame restores what the frame kept |
| `Hc08Stack.StepTracks` | hc08.src/inst.cc:757-783 | a properly nested instruction keeps the stack equal to the open frames |
| `Hc08Stack.RunTracks` | hc08.src/hc08.cc:406-591 | so does every properly nested run |
| `Hc08Stack.BracketRestores` | hc08.src/inst.cc:310-329 | from an opening instruction to its matching close, however deep the nesting: SP and the live stack as before, and the saved registers, return address or interrupted state restored |
| `Hc08Stack.InterruptIsTransparent` | hc08.src/inst.cc:1126-1138 | from reset, SWI and its RTI leave A, X, P and SP as they were and go on behind the SWI |
| `Hc08Stack.SwiGoes` | hc08.src/inst.cc:1126-1138 | SWI goes to the word at 0xfffc, if its five bytes do not overwrite it, and changes no other cell |
| `Hc08Stack.EmptyHandlerIsNested` | hc08.src/inst.cc:1126-1138 | an SWI whose vector points to an RTI in memory is such a bracket, whatever the machine's other state |
| `Hc08Stack.RtiNeeds60` | hc08.src/inst.cc:994-1004 | SWI then RTI restores P if and only if bits 5 and 6 were set |
| `Hc08Arithmetic.ColumnsExact` | hc08.src/inst.cc:204-270 | column arithmetic through the carry is exact for numbers of any length |
| `Hc08Arithmetic.BorrowIsLess` | hc08.src/inst.cc:239-270 | the last borrow is unsigned less-than |
| `Hc08Arithmetic.SignedLess` | hc08.src/inst.cc:900-910 | N xor V of the last column is signed less-than |
| `Hc08Programs.ProgramRuns` | hc08.src/inst.cc:162-270 | the program in memory, executed by the dispatch, does column arithmetic and nothing else |
| `Hc08Programs.SumProgram` | hc08.src/inst.cc:204-237 | LDA/ADD-then-ADC/STA over n bytes stores the exact sum, C its top digit, nothing else changed |
| `Hc08Programs.DifferenceProgram` | hc08.src/inst.cc:239-270 | LDA/SUB-then-SBC/STA stores the difference modulo 256^n and C says if it was negative |
| `Hc08Programs.ComparisonDecides` | hc08.src/inst.cc:865-924 | after an n-byte subtraction BCC/BCS branch on the unsigned and 0x90/0x91 on the signed order |
| `Hc08Programs.LeftShiftIsAddition` | hc08.src/inst.cc:448-509 | LSL and ROL are the addition of the operand to itself, flags included |
| `Hc08Programs.RotatesAreInverse` | hc08.src/inst.cc:479-541 | ROL and ROR undo each other, carry included |
| `Hc08Meaning.ResetStarts` | hc08.src/hc08.cc:90-102 | the first instruction after reset loads PC from the reset vector, with P 0x60 and SP 0xff |
| `Bits.BitwiseSums` | hc08.src/inst.cc:349-382 | AND, ORA and EOR together are an addition, and EOR undoes itself |
| `Hc08Meaning.LogicBits` | hc08.src/inst.cc:349-382 | every bit of the new A, in every mode, and the flags of a load of it |
| `Hc08Meaning.OneBitChanges` | hc08.src/inst.cc:926-938 | BSET and BCLR change one bit of one cell and nothing else |
| `Hc08Meaning.BitBranchIsInverted` | hc08.src/inst.cc:941-960 | opcodes 0x00 to 0x0f put the bit into C and branch exactly when BRSET and BRCLR should not |
| `Hc08Meaning.MulIsExact` | hc08.src/inst.cc:831-840 | X:A is the exact product |
| `Hc08Meaning.DivIsExact` | hc08.src/inst.cc:842-862 | dividend = quotient * X + remainder if H < X, and otherwise C set and nothing changed |
| `Hc08Meaning.CompareDecides` | hc08.src/inst.cc:272-300 | CMP and CPX: C, Z and N xor V are the unsigned and signed order, nothing else changes |
| `Hc08Meaning.CphxDecides` | hc08.src/inst.cc:1097-1124 | the same for CPHX on 16 bits |
| `Hc08Meaning.BranchMeansMnemonic` | hc08.src/inst.cc:865-924 | after a comparison BHI and BLS do what they say if and only if the first operand is not less, BGT and BLE if and only if the operands differ, the other six always |
| `Hc08Meaning.CompareThenBranch` | hc08.src/inst.cc:272-285 | the same for CMP and then a branch, as the machine executes them |
| `Hc08Meaning.TstIsLoad` | hc08.src/inst.cc:638-657 | TST is LDA with A kept |
| `Hc08Meaning.ClrIsStore` | hc08.src/inst.cc:660-680 | CLR is STA of 0 with A kept |
| `Hc08Meaning.SthxKeeps` | hc08.src/inst.cc:1059-1071 | STHX sets the flags of H:X as a number and changes nothing but its two cells |
| `Hc08Meaning.SthxThenLdhx` | hc08.src/inst.cc:1059-1094 | STHX stores H:X as a word, and LDHX gives it back with its sign and zero flags |
| `Hc08Meaning.CbeqIsCompareBranch` | hc08.src/inst.cc:963-991 | CBEQ on memory is CMP and BEQ with the flags kept |
| `Hc08Meaning.CbeqImmediate` | hc08.src/inst.cc:963-991 | CBEQA and CBEQX are CMP or CPX and BEQ with the flags kept |
| `Hc08Meaning.DbnzIsDecBranch` | hc08.src/inst.cc:602-635 | DBNZ is DEC and BNE |
| `Hc08Meaning.LoopRuns` | hc08.src/inst.cc:602-635 | a DBNZA loop stays for exactly A turns, or 256 from 0, and goes on with A at 0 |
| `Hc08Meaning.NegIsComInc` | hc08.src/inst.cc:694-754 | NEG is COM and INC; INC and DEC undo each other |
| `Hc08Meaning.DaaAfterAdd` | hc08.src/inst.cc:804-829 | after ADD or ADC of packed decimals C is the true decimal carry, and A the decimal sum if and only if neither the low digits with the carry nor the high digits sum to more than 9 |
| `Hc08Meaning.CarryCleared` | hc08.src/inst.cc:122-142 | CLC makes ADC and SBC into ADD and SUB |
| `Hc08Meaning.CarrySet` | hc08.src/inst.cc:122-142 | SEC makes ADC and SBC count one more |
| `Hc08Isa.IncKeepsSign` | sim.src/mem.cc:151-161 | PC goes on modulo 2^16, and below 0 keeps its sign |
| `Hc08Isa.FetchedPlace` | hc08.src/inst.cc:50-78 | every addressing mode, prefixed or not, finds its operand where the bytes in memory and H:X or SP say, and PC goes behind it |
| `Hc08Isa.SumFlagsAgree` | hc08.src/inst.cc:204-237 | after ADD and ADC V is the signed overflow, C the unsigned one and H the one of the low digits |
| `Hc08Isa.DifferenceFlagsAgree` | hc08.src/inst.cc:239-300 | after SUB, SBC, CMP and CPX V is the signed overflow and C the borrow |
| `Hc08Isa.DataStep` | hc08.src/glob.cc:222-320 | rows A to F of the opcode map do what the disassembler prints, on the operand that the bytes in memory name |
| `Hc08Isa.PrefixedDataStep` | hc08.src/glob.cc:343-373 | the same for the prefixed instructions relative to SP |
| `Hc08Isa.ChangeStep` | hc08.src/inst.cc:385-754 | shifts, rotates, INC, DEC, NEG, COM and CLR satisfy their equations between numbers, with their flags, in A, X or the cell that the bytes in memory name, and change nothing else |
| `Hc08Isa.PrefixedChangeStep` | hc08.src/glob.cc:328-341 | the same relative to SP |
| `Hc08Isa.ChangedIsUnique` | hc08.src/inst.cc:385-754 | the equations leave no choice of result or flags |
| `Hc08Isa.TestStep` | hc08.src/inst.cc:638-657 | TST sets the flags of a load and nothing else |
| `Hc08Flow.JumpGoes` | hc08.src/inst.cc:302-308 | JMP goes to the address its bytes name, in all five modes |
| `Hc08Flow.CallGoes` | hc08.src/inst.cc:310-330 | JSR, in all five modes, and BSR push the address behind themselves and go to the target their bytes name |
| `Hc08Flow.CallReturns` | hc08.src/inst.cc:310-330 | a call whose target holds RTS: at the target after one instruction, behind the call after two, with nothing but the two cells below SP changed |
| `Hc08Flow.ExtendedCall` | hc08.src/inst.cc:310-319 | for JSR with an extended operand: the word after the opcode, then PC + 3 |
| `Hc08Flow.PullStep` | hc08.src/inst.cc:757-783 | a pull loads its register and nothing else changes |
| `Hc08Flow.ReturnsKeep` | hc08.src/inst.cc:994-1013 | RTS, RTI and SWI leave alone what they do not restore or save |
| `Hc08Flow.BranchGoes` | hc08.src/inst.cc:865-924 | each of the eighteen branches goes to PC + 2 plus its signed byte exactly under its condition |
| `Hc08Flow.FlagsLayout` | hc08.src/regshc08.h:63-69 | C, Z, N, I and H are bits 0 to 4 of P and V is bit 7 |
| `Hc08Flow.TransferFlags` | hc08.src/inst.cc:88-119 | TPA and TAP are inverse up to bits 5 and 6 |
| `Hc08Flow.RegistersMove` | hc08.src/inst.cc:82-160 | NSA, CLRH, TXS, TSX, TAX, TXA, RSP, AIS, AIX and NOP: what moves where, modulo 2^16, and that nothing else does |
| `Hc08Flow.LdhxStep` | hc08.src/inst.cc:1073-1095 | LDHX loads the word that follows or the one at its address, with its flags |
| `Hc08Flow.HaltsIff` | hc08.src/glob.cc:46-380 | exactly the opcodes that stop the processor, against the ones the disassembler lists |
| `Hc08Flow.UnlistedStep` | hc08.src/hc08.cc:406-591 | what the processor makes of 0x96 and of the prefixed 0xdd and 0xed |
| `Hc08Flow.HandledStep` | hc08.src/hc08.cc:406-591 | the remaining opcodes reach the handlers whose meaning is stated above |
| `Hc08Device.Hc08.EffectiveAddress` | hc08.src/inst.cc:50-78 | the addressing modes, fetching in place |
| `Hc08Device.Hc08.PushByte` | hc08.src/hc08mac.h:28 | in place; the abstract stack gains the byte |
| `Hc08Device.Hc08.PushWord` | hc08.src/hc08mac.h:27 | in place; the abstract stack gains both bytes |
| `Hc08Device.Hc08.PopByte` | hc08.src/hc08mac.h:30 | in place; the abstract stack loses the byte returned |
| `Hc08Device.Hc08.PopWord` | hc08.src/hc08mac.h:29 | in place; the abstract stack loses the two bytes of the word returned |
| `Hc08Device.Hc08.InstPushPull` | hc08.src/inst.cc:757-783 | refines the function of the six opcodes |
| `Hc08Device.Hc08.InstJsr` | hc08.src/inst.cc:310-319 | pushes the address behind the operand and jumps |
| `Hc08Device.Hc08.InstBsr` | hc08.src/inst.cc:321-330 | pushes the address behind the offset and branches |
| `Hc08Device.Hc08.InstRts` | hc08.src/inst.cc:1006-1013 | refines the return |
| `Hc08Device.Hc08.InstSwi` | hc08.src/inst.cc:1126-1138 | refines the software interrupt |
| `Hc08Device.Hc08.InstRti` | hc08.src/inst.cc:994-1004 | refines the return from interrupt |
| `Hc08Device.Hc08.InstTransfer` | hc08.src/inst.cc:88-119 | refines TAP, TPA, TAX, TXA, TXS and TSX |
| `Hc08Device.Hc08.InstLda` | hc08.src/inst.cc:162-169 | refines LDA in every mode |
| `Hc08Device.Hc08.InstSta` | hc08.src/inst.cc:180-191 | refines STA in every mode |
| `Hc08Device.Hc08.InstAdd` | hc08.src/inst.cc:204-237 | refines ADD and ADC |
| `Hc08Device.Hc08.InstSub` | hc08.src/inst.cc:239-270 | refines SUB and SBC |
| `Hc08Device.Hc08.InstReadModifyWrite` | hc08.src/inst.cc:385-754 | refines the shifts, rotates, INC, DEC, COM and NEG on A, X and memory |
| `Hc08Device.Hc08.InstCondBranch` | hc08.src/inst.cc:865-924 | refines the conditional branches |
| `Hc08Device.Hc08.CarryTens` | hc08.src/inst.cc:818-821 | the digit loop of DAA carries the tens |
| `Hc08Device.Hc08.InstDaa` | hc08.src/inst.cc:804-829 | only the carry changes |
| `Hc08Device.Hc08.ExecInst` | hc08.src/hc08.cc:406-591 | for every opcode and prefix the dispatch in place is the step function of the theorems, halting where it halts |
| `SortedListModel.CompareTransitive` | option.cc:227-239 | the name order is transitive, strict and non-strict |
| `SortedListModel.LessIsLexicographic` | option.cc:227-239 | one name is less than another exactly if it is a proper prefix, or has the smaller character after a common prefix |
| `SortedListModel.PresentAtPoint` | pobj.cc:748-773 | in a sorted list a name is present exactly when it stands at its leftmost insertion point |
| `SortedListModel.AddKeepsSorted` | pobj.cc:730-741 | adding keeps the list sorted, strictly if duplicates are refused |
| `SortedListModel.RemoveKeepsSorted` | pobj.cc:327-345 | removing keeps the list sorted |
| `SortedListModel.RunsKeepTheList` | pobj.cc:327-345 | every run of add and disconn_at keeps the list sorted and its multiset exact |
| `SortedListModel.LookupCanExit` | option.cc:286-296 | a list and a lookup that ends the program |
| `SortedListDevice.SortedList.SetLimit` | pobj.cc:640-666 | the new limit, clamped; contents kept |
| `SortedListDevice.SortedList.AddAt` | pobj.cc:404-426 | inserts in place, growing first when full; a negative index ends the program; the write is out of bounds if and only if the list is full and cannot grow, being at its maximum size or without a positive Delta, or the index is beyond it |
| `SortedListDevice.SortedList.DisconnAt` | pobj.cc:327-345 | removes in place, or ends the program on a bad index |
| `SortedListDevice.SortedList.Search` | pobj.cc:748-773 | leftmost insertion point, and presence exactly, with and without duplicates |
| `SortedListDevice.SortedList.Add` | pobj.cc:730-741 | the new contents, still sorted; fails only if the list is full and cannot grow |
| `SortedListDevice.SortedList.IndexOf` | pobj.cc:705-723 | with duplicates the first place of that very element, or not found |
| `SortedListDevice.SortedList.GetOption` | option.cc:265-301 | the leftmost option of that name and creator whenever one exists; ends the program if and only if none exists and the name stands at the end of the list |
| `SortedListModel.CountIffPresent` | option.cc:349-361 | the count of a name is positive exactly when the list has it |
| `SortedListModel.CountIsExact` | option.cc:349-361 | the count is the number of places that hold the name |
| `SortedListDevice.SortedList.NumberOfOptions` | option.cc:349-361 | the number of options of that name |

## Left out

- Console input and output, sockets, files, the other commands of the console, and the other processors: user interface or easy members.
- Addresses and values of the expression language are unbounded integers; the width of `long` and shifts by more than 31 are not modelled.
- The scanner's buffer refill, NUL bytes in the text and the symbol lookup in `check_id`; names already carry their memory place or bit.
- The register `write` of the timers (what a capture stores through it is modelled), the refresh of the SFR copies, down mode, and Timers 3 and 4, whose prediction depends on the signedness of `char`.
- The delta mode of the MAC timer and its register multiplexing.
- DMA priorities, guards and abort: the code loads a channel without looking at them again.
- HC08: breakpoints, cycle counts, interrupts from hardware, and the disassembler itself (its tables only name the operations). The two bytes of a 16-bit operand are fetched high byte first, an order C++ leaves open.
- The lookup of options by the creator's name, which repeats the one by creator.
- The CC2530 radio, USART, watchdog and sleep timer, and the AVR, Z80 and XA cores.

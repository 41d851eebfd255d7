# advent2019-rs in Dafny

A Dafny model of the core of `advent2019-rs`, a set of Rust solutions to the
2019 Advent of Code puzzles: the Intcode virtual machine (`src/intcode.rs`)
and the computational kernels of twelve of the puzzles. Each Rust source file
becomes one Dafny module in one file:

| file | module | models |
|---|---|---|
| `rust_int.dfy` | `RustInt` | Rust's truncating `/` and `%`, `abs`, `signum`, `pow`, `num::integer::gcd` |
| `text.dfy` | `Text` | `str::split`, `split_once`, `parse::<i64>()`, `parse::<usize>()`, decimal printing |
| `intcode.dfy` | `Intcode` | the Intcode machine: decoding, addressing modes, `step`, `run`, `run_with_cb`, the program loader |
| `intcode_vectors.dfy` | `IntcodeVectors` | the sample programs of days 2, 5 and 9 run on the machine |
| `day01.dfy` … `day24.dfy` | `Day01` … `Day24` | the puzzle kernels of days 1, 3, 4, 6, 8, 10, 12, 14, 16, 18, 22 and 24 |

Pure Rust code (expressions, iterator chains, recursion) is modelled as
functions with lemmas about them. Code that updates state is modelled as
imperative Dafny. The VM is a class whose `Step`, `RunWithCb` and `Run`
methods are proved to agree with a pure step function. The day 12 moons are
an array updated in place. The day 10 groups are popped in a `while` loop.
Each method's postcondition ties its result to a specification function,
and lemmas state the properties of that function.

Rust's `i64` arithmetic is modelled on unbounded integers, with the
truncating division and remainder written out (`RustInt.Div`, `RustInt.Rem`).
A panic in the source (`unwrap` on `None`, an index out of range) becomes a
`None` or failure result where the source reaches it from ordinary input.
I/O (`read_input`, `println!`) is left out. Inputs are parameters and
answers are results.

## Model

| member | source | states |
|---|---|---|
| RustInt.Rem | src/intcode.rs:71 | Rust's remainder: `a == Div(a, b) * b + r`, with `r` in `[0, b)` for a non-negative dividend and in `(-b, 0]` for a negative one |
| RustInt.RemCongruent | src/intcode.rs:71 | Rust's remainder is congruent to the dividend modulo the divisor |
| RustInt.Signum | src/bin/day10.rs:49 | `signum` is -1, 0 or 1 and times the magnitude gives the number back |
| RustInt.Gcd | src/bin/day10.rs:62 | `gcd` of two integers not both zero is a positive common divisor that every positive common divisor divides |
| RustInt.GcdNatIsGreatest | src/bin/day10.rs:62 | Euclid's algorithm on magnitudes yields the greatest common divisor in the divisibility order |
| Text.Split | src/intcode.rs:12 | `split` on a non-empty pattern yields at least one piece |
| Text.JoinSplit | src/intcode.rs:12 | joining the pieces of a split with the pattern restores the text |
| Text.SplitPiecesAvoidPattern | src/intcode.rs:12 | no piece of a split contains the pattern |
| Text.SplitJoin | src/intcode.rs:12 | splitting the join of pieces free of a one-character separator gives the pieces back |
| Text.SplitOnce | src/bin/day06.rs:14 | `split_once` succeeds exactly when the pattern occurs, and cuts the text at its first occurrence |
| Text.SplitOnceAtChar | src/bin/day06.rs:14 | splitting once at a separator absent from the prefix yields the prefix and the rest |
| Text.ParseI64 | src/intcode.rs:12 | a parsed `i64` lies within the `i64` range |
| Text.ParseUsize | src/bin/day14.rs:16 | a parsed `usize` lies within the 64-bit `usize` range |
| Text.ParseI64OfDecimal | src/intcode.rs:12 | parsing the decimal text of any `i64` gives the value back |
| Text.ParseUsizeOfDecimal | src/bin/day14.rs:16 | parsing the decimal text of any `usize` gives the value back |
| Intcode.Size | src/intcode.rs:44-56 | every instruction is 1 to 4 words long |
| Intcode.OpcodeFrom | src/intcode.rs:68-85 | decoding succeeds with the opcode whose number is the word's Rust remainder modulo 100, or fails with that remainder |
| Intcode.OpcodeFromNumber | src/intcode.rs:68-85 | any word ending in an opcode's number decodes to that opcode |
| Intcode.OpcodeFromTotal | src/intcode.rs:70-83 | exactly the remainders 1-8 and 99 decode |
| Intcode.Mode | src/intcode.rs:121 | the mode of a parameter of a non-negative word is one decimal digit |
| Intcode.ModeDigits | src/intcode.rs:121 | the three mode digits are the hundreds, thousands and ten-thousands digits |
| Intcode.Resolve | src/intcode.rs:119-140 | the parameter loop keeps the count of parameters and leaves every destination parameter as stored, inside memory |
| Intcode.ResolveMeaning | src/intcode.rs:119-140 | the parameter loop succeeds exactly when every parameter is legal for its mode and role, and then yields each operand |
| Intcode.JumpTo | src/intcode.rs:165-171 | a jump succeeds exactly onto an address inside memory and then moves only the program counter; otherwise it faults and changes nothing |
| Intcode.Exec | src/intcode.rs:102-163 | a step keeps the memory size, changes nothing when it does not return `Ok`, appends at most one output and consumes at most one callback value |
| Intcode.Execute | src/intcode.rs:142-162 | defines the effect of each opcode on resolved operands: the arithmetic and comparison writes, input from the queue then the callback (or `InputNeeded`), output, the jumps and the halt; `ExecDecoded`, `ExecWrites`, `ExecPc` and `InputNeededIff` state what it does |
| Intcode.ExecDecoded | src/intcode.rs:142-162 | a well-formed instruction executes its opcode on the resolved operands |
| Intcode.ExecFaultIff | src/intcode.rs:102-171 | a step faults exactly when the instruction is ill formed or is a taken jump out of memory |
| Intcode.IllFormedFaults | src/intcode.rs:105-139 | an ill-formed instruction faults |
| Intcode.ExecWrites | src/intcode.rs:142-160 | a step writes at most its destination cell, and `Lt`/`Eq` write 0 or 1 |
| Intcode.ExecPc | src/intcode.rs:155-162 | after a step the program counter is past the instruction, or at a taken jump's target; a jump into memory succeeds; the step halts exactly on `Hlt` |
| Intcode.HaltIsFixed | src/intcode.rs:159 | a halting step changes nothing, so stepping again halts again |
| Intcode.InputQueueFirst | src/intcode.rs:145-148 | `Inp` stores the front of the input queue without consulting the callback |
| Intcode.InputNeededIff | src/intcode.rs:145-153 | a step needs input exactly at a well-formed `Inp` with the queue empty and the callback exhausted, and then changes nothing |
| Intcode.ResumeAfterPush | src/intcode.rs:145-153 | after `InputNeeded`, a pushed value makes the same `Inp` store it and go on |
| Intcode.RunSpec | src/intcode.rs:186-197 | defines the run loop, stepping at most `fuel` times; `RunStopsOn`, `RunFuelMonotone` and `RunIoOrder` state how it ends, and `IntcodeVM.RunWithCb` computes it in place |
| Intcode.Continue | src/intcode.rs:190-195 | defines the loop's reaction to one step: go on after `Ok`, stop with `Ok(())` on a halt, report `InputNeeded` or the fault; `ContinueIoOrder` and `RunStopsOn` state it |
| Intcode.RunIoOrder | src/intcode.rs:186-197 | the run loop consumes callback values only from the front and only appends to the output |
| Intcode.ContinueIoOrder | src/intcode.rs:186-197 | the same for the loop's continuation after a step |
| Intcode.RunStopsOn | src/intcode.rs:186-197 | the run loop reports `Ok(())`, `InputNeeded` or the fault exactly for the step that halted, needed input or faulted |
| Intcode.RunFuelMonotone | src/intcode.rs:186-197 | once the run loop stops by itself, more steps change nothing |
| Intcode.OpAt | src/intcode.rs:105-117 | the decoded opcode is available only when the program counter is inside memory, the word decodes and the instruction fits |
| Intcode.RawArgs | src/intcode.rs:119 | the stored parameter words number one less than the instruction size |
| Intcode.ArgsOf | src/intcode.rs:119-140 | the operands number one less than the instruction size, and legal destination operands address memory |
| Intcode.DestArg | src/intcode.rs:57-66 | the destination parameter is exactly the one `stores_to` names, inside the instruction |
| Intcode.LoadProgram | src/intcode.rs:7-16 | loading yields one word per comma-separated field, each the parse of its field, or fails exactly when some field does not parse |
| Intcode.ParseWords | src/intcode.rs:12 | the parsed words agree one by one with the fields, or some field does not parse |
| Intcode.LoadProgramText | src/intcode.rs:7-16 | loading the comma-separated decimal text of any non-empty program of `i64` words gives the program back |
| Intcode.ParseWordsAll | src/intcode.rs:12 | fields that all parse give exactly their values |
| Intcode.IntcodeVM.WithMem | src/intcode.rs:94-100 | a new machine holds the program, with the program counter at 0 and no queued input |
| Intcode.IntcodeVM.DoJump | src/intcode.rs:165-171 | the in-place jump agrees with `JumpTo` |
| Intcode.IntcodeVM.ResolveArgs | src/intcode.rs:119-140 | the in-place parameter loop agrees with `Resolve` on the instruction's parameter words |
| Intcode.IntcodeVM.Apply | src/intcode.rs:142-162 | the in-place effect of an opcode agrees with the pure one |
| Intcode.IntcodeVM.Step | src/intcode.rs:102-163 | the in-place step agrees with `Exec`: same result, same new state, same inputs consumed and outputs produced |
| Intcode.IntcodeVM.RunWithCb | src/intcode.rs:186-197 | the in-place run loop agrees with the pure run loop |
| Intcode.IntcodeVM.Run | src/intcode.rs:173-184 | `run` is the run loop with no input and the outputs collected in order |
| IntcodeVectors.SampleAddMul | src/bin/day02.rs:43-47 | `1,9,10,3,2,3,11,0,99,30,40,50` halts with 3500 in cell 0 and 70 in cell 3 |
| IntcodeVectors.SelfModifying | src/bin/day02.rs:49-53 | `1,1,1,4,99,5,6,0,99` rewrites its halt into a multiplication and halts with 30 in cell 0 and 2 in cell 4 |
| IntcodeVectors.ImmediateMul | src/bin/day05.rs:39-43 | `1002,4,3,4,33` halts after rewriting its last word to 99 |
| IntcodeVectors.LargeProduct | src/bin/day09.rs:42 | `1102,34915192,34915192,7,4,7,99,0` outputs 1219070632396864 |
| IntcodeVectors.LargeImmediate | src/bin/day09.rs:48-52 | `104,1125899906842624,99` outputs 1125899906842624 |
| IntcodeVectors.EqualsEight | src/bin/day05.rs:45-51 | `3,9,8,9,10,9,4,9,99,-1,8` outputs 1 exactly when its input is 8, else 0 |
| IntcodeVectors.LessThanEight | src/bin/day05.rs:69-75 | `3,3,1107,-1,8,3,4,3,99` outputs 1 exactly when its input is below 8, else 0 |
| IntcodeVectors.JumpIfZero | src/bin/day05.rs:77-83 | `3,12,6,12,15,1,13,14,13,4,13,99,-1,0,1,9` outputs 0 for input 0 and 1 otherwise |
| Day01.FuelFor | src/bin/day01.rs:4-6 | the fuel for a mass is zero exactly below mass 9, at most a third of a non-negative mass, and below any positive mass |
| Day01.Part1 | src/bin/day01.rs:8-10 | defines part 1 as the sum of the fuel of every module; `PartsAppend` and `Part2AtLeastPart1` state its properties |
| Day01.TotalFuel | src/bin/day01.rs:12-21 | defines the total fuel as the chain of fuel increments until one is zero; `TotalFuelFor` computes it with the source's loop and `TotalFuelBounds` bounds it |
| Day01.Part2 | src/bin/day01.rs:23-25 | defines part 2 as the sum of the total fuel of every module; `PartsAppend` and `Part2AtLeastPart1` state its properties |
| Day01.TotalFuelFor | src/bin/day01.rs:12-21 | the loop's sum is the total of the fuel chain, each increment fuelling the previous one until it reaches zero |
| Day01.TotalFuelBounds | src/bin/day01.rs:12-21 | the total fuel is at least the first increment and at most half a non-negative mass |
| Day01.Part2AtLeastPart1 | src/bin/day01.rs:8-25 | part 2 is never below part 1 |
| Day01.PartsAppend | src/bin/day01.rs:8-25 | both parts add up module by module over concatenated inputs |
| Day01.FuelExamples | src/bin/day01.rs:39-45 | the fuel for 12, 14, 1969 and 100756 is 2, 2, 654 and 33583 |
| Day01.TotalFuelExamples | src/bin/day01.rs:40-44 | the total fuel for 12, 14 and 1969 is 2, 2 and 966 |
| Day01.TotalFuelLargeExample | src/bin/day01.rs:46 | the total fuel for 100756 is 50346 |
| Day04.Padded | src/bin/day04.rs:7 | `{pw:06}` is all digits and at least six long |
| Day04.PaddedMeaning | src/bin/day04.rs:7 | `{pw:06}` reads back as `pw`, is exactly six long below 1000000 and otherwise the plain digits, with no leading zero past six |
| Text.DecimalLength | src/bin/day04.rs:7 | a natural prints in at most `k` digits exactly when it is below `10^k` |
| Text.DecimalLeadingZero | src/bin/day04.rs:7 | a printed natural starts with a zero exactly when it is zero |
| Text.DigitsValueLeadingZeros | src/bin/day04.rs:7 | zeros padded on the left leave the decimal value unchanged |
| Day04.ValidPassword | src/bin/day04.rs:6-10 | defines the first rule: the padded digits never decrease and two adjacent ones are equal; `P2ImpliesP1` and the examples state it |
| Day04.ValidPasswordP2 | src/bin/day04.rs:12-16 | defines the second rule: the padded digits never decrease and some run of equal digits has length exactly two; `P2ImpliesP1`, `NoRunOfTwo` and the examples state it |
| Day04.RunsShape | src/bin/day04.rs:15 | `dedup_with_count` yields runs of length at least one, neighbours differing, starting with the first character |
| Day04.ExpandRuns | src/bin/day04.rs:15 | expanding the runs gives the text back |
| Day04.LongRunIsDouble | src/bin/day04.rs:9-15 | a run of two or more contains an equal adjacent pair |
| Day04.P2ImpliesP1 | src/bin/day04.rs:6-16 | a password valid under the second rule is valid under the first |
| Day04.Part1 | src/bin/day04.rs:18-21 | the count of the first part is at most the size of the range |
| Day04.Part2 | src/bin/day04.rs:23-26 | the count of the second part is at most the size of the range |
| Day04.Part2AtMostPart1 | src/bin/day04.rs:18-26 | part 2 never counts more than part 1 |
| Day04.Example111111 | src/bin/day04.rs:40-41 | 111111 passes the first rule only |
| Day04.Example223450 | src/bin/day04.rs:42-43 | 223450 fails both rules |
| Day04.Example123789 | src/bin/day04.rs:44-45 | 123789 fails both rules |
| Day04.Example112233 | src/bin/day04.rs:46-47 | 112233 passes both rules |
| Day04.Example123444 | src/bin/day04.rs:48-49 | 123444 passes the first rule only |
| Day04.Example111122 | src/bin/day04.rs:50-51 | 111122 passes both rules |
| Day22.ParseAction | src/bin/day22.rs:11-30 | a parsed "deal into new stack" has `into` as its second word; a parsed cut starts with `cut` |
| Day22.ParseActionText | src/bin/day22.rs:11-30 | every technique with an `i64` argument parses back from its wording |
| Day22.ParseReverseText | src/bin/day22.rs:19-20 | "deal into new stack" parses to the reversal |
| Day22.ParseRotateText | src/bin/day22.rs:15-17 | "cut n" parses to the cut by `n` |
| Day22.ParseMultiplyText | src/bin/day22.rs:22-24 | "deal with increment n" parses to the deal with increment `n` |
| Day22.Track | src/bin/day22.rs:34-42 | defines where one technique of part 1's fold moves a card, with Rust's `%`; `TrackAgrees` ties it to the modular map |
| Day22.TrackAgrees | src/bin/day22.rs:34-42 | on a card in the 10007-card deck, each technique with an in-range argument lands in the deck and agrees with the modular map |
| Day22.Shuffle | src/bin/day22.rs:32-43 | defines part 1's fold over the techniques; `ShuffleAgrees` ties it to the modular fold |
| Day22.Part1 | src/bin/day22.rs:32-43 | defines part 1 as the position of card 2019 after the fold; `Part1InDeck` states it lies in the deck |
| Day22.ReverseTwice | src/bin/day22.rs:35 | dealing into a new stack twice puts every card back |
| Day22.ShuffleAgrees | src/bin/day22.rs:32-43 | the fold over in-range techniques stays in the deck and agrees with the modular fold |
| Day22.Part1InDeck | src/bin/day22.rs:32-43 | part 1's answer is a position in the deck, the modular image of card 2019 |
| Day22.ShuffleReverseTwice | src/bin/day22.rs:32-43 | two deals into a new stack in a row cancel out anywhere in the shuffle |
| Day22.ModPowRound | src/bin/day22.rs:50-56 | one round of square-and-multiply keeps `result * base^exp` congruent to the target |
| Day22.ModPow | src/bin/day22.rs:45-58 | `mod_pow` is 0 modulo 1, 1 for a non-positive exponent, strictly inside `(-m, m)`, congruent to `b^e`, and exactly `b^e % m` for a non-negative base |
| Day22.Undo | src/bin/day22.rs:65-72 | defines the inverse of one technique on the big deck, with Fermat's inverse for a deal with increment; `UndoCongruent` and the step lemmas state it |
| Day22.UndoAll | src/bin/day22.rs:62-72 | defines the inverse of the whole shuffle, the last technique undone first; `ComposeUndo` and `Coefficients` state that the fold computes it |
| Day22.UndoCongruent | src/bin/day22.rs:65-72 | undoing a technique respects congruence modulo the big deck |
| Day22.ReverseStep | src/bin/day22.rs:66 | the reversal's new coefficients undo a deal into a new stack after the current map |
| Day22.RotateStep | src/bin/day22.rs:67 | the cut's new coefficients undo a cut after the current map |
| Day22.MultiplyStep | src/bin/day22.rs:68-71 | with `n`'s Fermat inverse, the new coefficients undo a deal with increment after the current map |
| Day22.FoldStep | src/bin/day22.rs:65-72 | one step of the fold keeps the coefficients inside `(-N, N)` and composes the undone technique |
| Day22.ComposeUndo | src/bin/day22.rs:65-72 | composing one more undone technique in front of coefficients for the rest undoes the longer shuffle |
| Day22.Coefficients | src/bin/day22.rs:65-72 | the reverse fold yields `(a, b)` with `a * x + b` congruent to the position card `x` came from, for every `x` |
| Day22.Repeated | src/bin/day22.rs:73-75 | the tail of part 2 is congruent to `2020 * a^k + b * (a^k - 1) * (a - 1)^(N-2)` for `k` repetitions |
| Day22.RepeatedCongruent | src/bin/day22.rs:73-75 | the remainders taken along the way do not change the result modulo the deck size |
| Day22.Part2 | src/bin/day22.rs:60-76 | part 2 is the closed form for coefficients that undo the whole shuffle, and it fits in an `i64` |
| Day16.Parse | src/bin/day16.rs:10-16 | parsing yields one value per character, `c - '0'`, and fails exactly where the `u8` subtraction would underflow |
| Day16.DigitText | src/bin/day16.rs:39 | printing digits yields one ASCII digit per value |
| Day16.ParseDigitText | src/bin/day16.rs:10-39 | printing digits and parsing them back gives the digits |
| Day16.DigitTextParse | src/bin/day16.rs:10-39 | parsing a string of ASCII digits and printing the values gives the string back |
| Day16.Pattern | src/bin/day16.rs:21-27 | the pattern takes only the values -1, 0 and 1 |
| Day16.PatternPeriodic | src/bin/day16.rs:21-27 | the pattern for output digit `n` repeats every `4n` positions |
| Day16.Fft | src/bin/day16.rs:18-32 | a phase keeps the length and yields digits |
| Day16.FftRounds | src/bin/day16.rs:36-38 | the phases keep the length, and after at least one phase every value is a digit |
| Day16.Take8 | src/bin/day16.rs:39 | `take(8)` is the first eight values, or all of them |
| Day16.Part1 | src/bin/day16.rs:34-40 | part 1 prints the first eight digits after a hundred phases |
| Day16.SuffixPhase | src/bin/day16.rs:58-60 | a backward pass keeps the length and yields digits |
| Day16.PatternLeadingZeros | src/bin/day16.rs:21-27 | the pattern is zero before position `n - 1` |
| Day16.PatternOnes | src/bin/day16.rs:21-27 | the pattern is one from position `n - 1` for `n` positions |
| Day16.WeightedIsSuffix | src/bin/day16.rs:29 | past the middle of the input, the weighted sum for digit `n` is the plain sum to the end |
| Day16.WeightedSkipsZeros | src/bin/day16.rs:29 | the leading zeros of the pattern add nothing |
| Day16.SuffixSumOfSuffix | src/bin/day16.rs:58-60 | the suffix sums of a window are the suffix sums of the whole |
| Day16.SuffixSumNonNegative | src/bin/day16.rs:29-30 | suffix sums of non-negative values are non-negative, so `abs` changes nothing |
| Day16.FftLateWindow | src/bin/day16.rs:18-61 | from a position where twice it reaches the length, one full phase, restricted to the window, equals one backward pass on the window |
| Day16.PhaseKeepsLast | src/bin/day16.rs:58 | the backward pass leaves the last digit as it was |
| Day16.Phase | src/bin/day16.rs:58-60 | the in-place backward pass leaves in each entry the last digit of the sum from it to the end |
| Day16.PhaseEntry | src/bin/day16.rs:59 | the in-place update at `i` yields the suffix digit at `i` from the one at `i + 1` |
| Day16.SuffixRounds | src/bin/day16.rs:57-61 | the repeated backward pass keeps the length and yields digits |
| Day16.Window | src/bin/day16.rs:51-56 | the window holds the repeated input from the offset to the end: `10000 * len - offset` values, or none |
| Day16.Offset | src/bin/day16.rs:43-50 | an offset exists only for a non-empty input |
| Day16.BuildWindow | src/bin/day16.rs:51-56 | the loop pushes exactly the window |
| Day16.Part2 | src/bin/day16.rs:42-63 | part 2 prints the first eight digits of the window after a hundred in-place backward passes, or nothing where the offset does not parse or the window is empty |
| Day16.Part2Spec | src/bin/day16.rs:42-63 | defines part 2's answer, which `Part2` computes and `Part2Meaning` ties to a hundred full phases: no answer without an offset, for an empty window, or for a value above 9 in the window; otherwise the first eight digits of the window after a hundred suffix passes |
| Day16.WindowIsSuffix | src/bin/day16.rs:51-56 | the pushed window is the signal repeated ten thousand times, from the offset on |
| Day16.FftRoundsLateWindow | src/bin/day16.rs:57-61 | any number of full phases, restricted to a window in the second half, equals as many backward passes on the window |
| Day16.Part2Meaning | src/bin/day16.rs:42-63 | when the offset lies in the second half of the repeated signal, part 2's answer is the eight digits at the offset after a hundred full FFT phases of that signal, which is why part 2 is correct |
| Day08.Parse | src/bin/day08.rs:9-20 | parsing keeps the size and one value per character, `c - '0'`; it succeeds for every digit string whose length is a multiple of `w * h`, and fails for any other length |
| Day08.Count | src/bin/day08.rs:24-29 | the count of a value in a layer is its multiplicity, at most the layer's length |
| Day08.FewestZeros | src/bin/day08.rs:24 | `min_by_key` picks a layer with the fewest zeros, the first of several |
| Day08.Part1 | src/bin/day08.rs:22-32 | part 1 is ones times twos in the first layer with the fewest zeros, and fails exactly for an image without pixels |
| Day08.FrontMeaning | src/bin/day08.rs:33-45 | a pixel shows the value of the frontmost layer that is not transparent there, or stays transparent when every layer is |
| Day08.Part2 | src/bin/day08.rs:33-45 | the in-place back-to-front fold leaves at every pixel the value of the frontmost layer that is not transparent there (2 when none is), one value per pixel of a layer |
| Day08.Overlay | src/bin/day08.rs:36-42 | one pass of the fold: every pixel of the layer that is not transparent replaces the value below, and every transparent one leaves it unchanged |
| Day08.SingleLayer | src/bin/day08.rs:33-45 | a single layer composites to itself |
| Day08.ParseExample1 | src/bin/day08.rs:76 | "123456789012" parses as a 3-by-2 image of its digits |
| Day08.FirstLayerCounts | src/bin/day08.rs:76-77 | the first sample layer has no zeros, one 1 and one 2 |
| Day08.Part1Example | src/bin/day08.rs:76-77 | part 1 of the 3-by-2 sample is 1 |
| Day08.ParseExample2 | src/bin/day08.rs:79 | "0222112222120000" parses as a 2-by-2 image of its digits |
| Day08.Part2Example | src/bin/day08.rs:79-80 | the 2-by-2 sample composites to `[0, 1, 1, 0]` |
| Day06.ParseOrbit | src/bin/day06.rs:11-17 | defines the parse of a line at its first `)`; `ParseOrbitMeaning` and `ParseOrbitText` state it |
| Day06.ParseOrbitMeaning | src/bin/day06.rs:11-17 | a line parses exactly when it holds a `)`, into the text before the first one and the rest |
| Day06.ParseOrbitText | src/bin/day06.rs:11-17 | a line printed from an orbit whose centre has no `)` parses back to that orbit |
| Day06.Setup | src/bin/day06.rs:19-21 | the map has a key for every satellite, and each maps to the centre of one of its lines |
| Day06.SetupLastWins | src/bin/day06.rs:19-21 | a satellite's centre comes from its last line |
| Day06.Steps | src/bin/day06.rs:28-31 | the walk counts zero steps exactly from "COM" |
| Day06.StepsMonotone | src/bin/day06.rs:28-31 | more fuel does not change a walk that reaches "COM" |
| Day06.StepsNext | src/bin/day06.rs:28-31 | one step up from an object other than "COM" is one step closer |
| Day06.WalkNext | src/bin/day06.rs:28-31 | a walk extends by one step through the map |
| Day06.StepsMeaning | src/bin/day06.rs:28-31 | the count is the number of steps after which the walk first reaches "COM" |
| Day06.TotalDepthRemove | src/bin/day06.rs:26 | the sum of depths does not depend on the order in which the keys are taken |
| Day06.Part1 | src/bin/day06.rs:23-34 | part 1 is the sum, over all satellites, of their distance to "COM" |
| Day06.RecordNext | src/bin/day06.rs:41-44 | the next object of SAN's walk is not yet on the path, and recording it keeps the path exactly the walk so far |
| Day06.SantaPath | src/bin/day06.rs:38-46 | the first loop records exactly the objects of the walk from SAN's centre up to "COM", each with its distance, and "COM" with the full length |
| Day06.WalkAdd | src/bin/day06.rs:41-44 | a walk of `a + b` steps is `b` steps on from where `a` steps lead |
| Day06.WalkEndsAtCom | src/bin/day06.rs:41-46 | when "COM" orbits nothing, no walk goes further than the steps to "COM" |
| Day06.WalkSteps | src/bin/day06.rs:41-46 | the object `i` steps up a walk is that many steps closer to "COM" |
| Day06.WalkDistinct | src/bin/day06.rs:41-46 | the objects a walk passes up to "COM" are all different, so no key of the path is overwritten |
| Day06.FirstOnPathFewest | src/bin/day06.rs:47-56 | the first object above YOU that is on SAN's whole path gives a count no other common object beats |
| Day06.Transfers | src/bin/day06.rs:47-56 | the second loop walks up from YOU's centre to the first object on the recorded path and adds the two distances |
| Day06.Part2 | src/bin/day06.rs:36-57 | part 2 fails exactly when YOU or SAN has no orbit; otherwise it is a number of transfers between their centres through a common object, and when "COM" orbits nothing it is the fewest such |
| Day14.ParseChem | src/bin/day14.rs:11-18 | defines the parse of "Q NAME", `None` where the source's `unwrap` panics; `ParseChemText` states that it reads back what it prints |
| Day14.ParseChemText | src/bin/day14.rs:11-18 | the text "Q NAME" of a chemical with a quantity that fits in `usize` parses back to that chemical |
| Day14.ParseAll | src/bin/day14.rs:31 | a successful parse of the ingredient list gives one chemical per piece |
| Day14.ParseAllTexts | src/bin/day14.rs:31 | parsing the printed texts of chemicals gives back those chemicals |
| Day14.IngredientTextClean | src/bin/day14.rs:29-31 | an ingredient whose name has neither a comma nor an equals sign prints without a comma or an equals sign |
| Day14.IngredientsText | src/bin/day14.rs:31 | splitting the joined ingredient texts on ", " gives back each text, and no text holds an equals sign |
| Day14.ArrowAfter | src/bin/day14.rs:30 | the first " => " of a reaction line is the one between the ingredients and the product |
| Day14.ParseReaction | src/bin/day14.rs:27-35 | defines the parse of "ingredients => product", `None` where the source panics; `ParseReactionText` states that it reads back what it prints |
| Day14.ParseReactionText | src/bin/day14.rs:27-35 | a reaction with at least one ingredient parses back from its line "Q A, Q B => Q P" |
| Day14.MkTable | src/bin/day14.rs:38-42 | the table has an entry for every product, and each entry is a reaction of the input producing that name |
| Day14.Withdraw | src/bin/day14.rs:52-63 | taking from the inventory never asks for more than requested, keeps the other entries, conserves stock plus request, and either the request or the stock ends at zero; a chemical with no entry gives nothing |
| Day14.WithdrawShortfall | src/bin/day14.rs:52-63 | what is still needed is `max(0, req - stock)` |
| Day14.Batches | src/bin/day14.rs:66-67 | the batch count is the ceiling of needed over batch size: enough batches, and one fewer would not be |
| Day14.Expand | src/bin/day14.rs:72-80 | ORE is never enqueued, and at most one request is enqueued per ingredient |
| Day14.Step | src/bin/day14.rs:51-80 | one iteration never lowers the ORE count, keeps ORE out of the queue, and stops only on a panic (a missing reaction or a product quantity of zero) |
| Day14.StepSurplus | src/bin/day14.rs:64-71 | after a production the product's leftover is less than one batch |
| Day14.StepKeepsOthers | src/bin/day14.rs:51-80 | the leftovers of chemicals other than the one served are unchanged |
| Day14.Run | src/bin/day14.rs:44-83 | defines `search`'s loop as at most `fuel` steps; `RunOreMonotone`, `RunNeverQueuesOre`, `Search` and the samples state it |
| Day14.Start | src/bin/day14.rs:45-49 | defines the start of `search`: one request for the FUEL, no leftovers, no ORE used |
| Day14.RunOreMonotone | src/bin/day14.rs:51-82 | a finished search reports at least the ORE already counted |
| Day14.RunNeverQueuesOre | src/bin/day14.rs:72-80 | no state reached by the search has ORE in its queue |
| Day14.Take | src/bin/day14.rs:53-63 | the in-place `and_modify` computes the withdrawal |
| Day14.Enqueue | src/bin/day14.rs:72-80 | the ingredient loop appends the expanded non-ORE requests in order and adds the ORE they take |
| Day14.Serve | src/bin/day14.rs:51-80 | the body of the loop, run on the front request, performs exactly one step: served from leftovers, produced in whole batches with the surplus kept, or a panic |
| Day14.Search | src/bin/day14.rs:44-83 | the queue-draining loop computes the iteration of one step at a time from a single FUEL request and an empty inventory |
| Day14.Part1 | src/bin/day14.rs:85-88 | part 1 searches the table of the input for one FUEL |
| Day14.MkTablePrefix | src/bin/day14.rs:38-42 | one more reaction of the list overrides the table entry for its product |
| Day14.ExpandSnoc | src/bin/day14.rs:72-80 | expanding one more ingredient adds its ORE to the count, or enqueues its batches after the others |
| Day14.ExpandOre | src/bin/day14.rs:72-80 | a lone ORE ingredient enqueues nothing and counts its quantity times the batches |
| Day14.ExpandTwo | src/bin/day14.rs:72-80 | two ingredients other than ORE are enqueued in their order, each scaled by the batches, with no ORE counted |
| Day14.ExpandThree | src/bin/day14.rs:72-80 | three ingredients other than ORE are enqueued in their order, each scaled by the batches, with no ORE counted |
| Day14.StepServes | src/bin/day14.rs:51-63 | a request the leftovers cover is taken from them, nothing is enqueued and no ORE is counted |
| Day14.StepProduces | src/bin/day14.rs:51-80 | a request the leftovers do not cover uses them up, runs the ceiling number of batches, keeps the surplus and enqueues the expanded ingredients |
| Day14.Sample1Ore | src/bin/day14.rs:155-164 | the search on the first sample finishes after 9 iterations with 31 ORE |
| Day14.Sample2Ore | src/bin/day14.rs:166-175 | the search on the second sample finishes after 10 iterations with 165 ORE |
| Day03.Unit | src/bin/day03.rs:27-30 | a direction moves one step along exactly one axis |
| Day03.ParseSeg | src/bin/day03.rs:13-26 | a move parses only from its direction letter followed by an `i64` step count |
| Day03.ParseSegText | src/bin/day03.rs:13-26 | a move prints as its letter and decimal step count and parses back from that text |
| Day03.ParseSegs | src/bin/day03.rs:35-41 | a parsed wire has one move per comma-separated piece, each the parse of its piece |
| Day03.ParsePath | src/bin/day03.rs:35-41 | defines a wire as the moves between commas, `None` where a piece makes the source panic; `ParsePathText` states that it reads back what it parses |
| Day03.ParsePathText | src/bin/day03.rs:35-41 | a wire of at least one move with `i64` step counts, printed with commas between its moves, parses back to that wire |
| Day03.Segments | src/bin/day03.rs:50-59 | the segments of a wire: one per move, the first starting at the origin, each displaced by its move and starting where the previous one ended, the last ending at the end of the path |
| Day03.FromWirePath | src/bin/day03.rs:50-59 | the loop pushing one segment per move builds exactly those segments |
| Day03.LenOfMove | src/bin/day03.rs:66-68 | a segment's Manhattan length is the absolute step count of its move |
| Day03.PIntersect | src/bin/day03.rs:69-80 | a reported crossing lies on both segments, one vertical and one horizontal |
| Day03.CrossingFound | src/bin/day03.rs:69-80 | a vertical and a horizontal segment sharing a point are reported to cross at it |
| Day03.ParallelNoCrossing | src/bin/day03.rs:69-80 | two parallel segments of non-zero length never cross, even when they overlap |
| Day03.MinOpt | src/bin/day03.rs:92 | the minimum of two optional candidates is one of them and at most each present one |
| Day03.RowMinBounds | src/bin/day03.rs:87-92 | the least candidate of a segment of wire B against wire A is one of the candidates and at most each of them |
| Day03.PairMinBounds | src/bin/day03.rs:83-94 | over every pair of segments, the answer is one of the crossings' values (for part 1 the distance from the origin of a crossing other than the origin) and at most every other; `None` exactly where the source's `unwrap` panics |
| Day03.Part1 | src/bin/day03.rs:83-94 | defines part 1 as the least candidate over every pair of segments; `Part1Meaning` states what it is |
| Day03.Part1Meaning | src/bin/day03.rs:83-94 | part 1 is the distance from the origin of some crossing other than the origin, no other such crossing is nearer, and it is `None` only when there is none |
| Day03.ScanRow | src/bin/day03.rs:101-114 | one pass of the closure over wire A restarts `a_len`, keeps the row's least candidate and advances `b_len` by the length of segment `j` |
| Day03.Part2 | src/bin/day03.rs:96-118 | the stateful closure yields the least positive number of combined steps both wires take to a crossing, over every pair of segments |
| Day24.GridMeaning | src/bin/day24.rs:13-27 | the initial bugs are exactly the `#` characters of the input, at their column and row on level 0 |
| Day24.BugMap.FromInput | src/bin/day24.rs:13-27 | a new map holds the bugs of the input and the level range `[0, 0]` |
| Day24.RatingFrom | src/bin/day24.rs:29-41 | a partial biodiversity rating from tile `i` on is below `2^(25 - i)` |
| Day24.Rating | src/bin/day24.rs:29-41 | the biodiversity rating fits in 25 bits |
| Day24.RatingFromInjective | src/bin/day24.rs:29-41 | equal partial ratings have the same bugs on the tiles they cover |
| Day24.RatingInjective | src/bin/day24.rs:29-41 | two layouts with the same rating have bugs on the same level-0 grid tiles, so a repeated rating is a repeated layout |
| Day24.Neighbors | src/bin/day24.rs:60-66 | at most four neighbours, and none exactly when the four adjacent level-0 tiles are empty |
| Day24.StepSet | src/bin/day24.rs:43-58 | defines the layout after one minute; `StepSetMeaning` states which tiles it holds |
| Day24.StepFromMeaning | src/bin/day24.rs:45-56 | the tiles decided from index `i` on are the level-0 grid tiles at or after `i` that the rule keeps alive |
| Day24.StepSetMeaning | src/bin/day24.rs:43-58 | after a minute a tile holds a bug exactly when it is a level-0 grid tile with one neighbour, or an empty one with two |
| Day24.BugMap.Step | src/bin/day24.rs:43-58 | the in-place step replaces the bugs by the next layout and nothing else |
| Day24.Neighbors2 | src/bin/day24.rs:109-197 | a tile of the recursive grid has at most eight neighbours: at most one side faces the five tiles of the inner grid |
| Day24.Step2SetMeaning | src/bin/day24.rs:82-107 | after a recursive minute a tile holds a bug exactly when it lies in the visited levels and grid (the centre excluded) and the rule keeps it alive |
| Day24.Step2Spec | src/bin/day24.rs:82-107 | defines one recursive minute with the level range widened on births; `Step2SetMeaning`, `Step2Bounds` and `BugMap.Step2` state it |
| Day24.Iterate2 | src/bin/day24.rs:214-220 | defines the layout after `k` recursive minutes, which `Part2` counts after 200 |
| Day24.Step2Bounds | src/bin/day24.rs:82-107 | a recursive minute never puts a bug on the centre tile or off the grid, widens the level range by at most one each way, and only onto a level that received a bug |
| Day24.Step2Done | src/bin/day24.rs:84-106 | the set built tile by tile, with the range widened on births, is the recursive minute's layout |
| Day24.BugMap.StepLevels | src/bin/day24.rs:88-105 | one tile on each visited level: the bug is added where the rule keeps it alive, and `min_z`/`max_z` move only to a level that received a bug |
| Day24.BugMap.StepColumn | src/bin/day24.rs:85-105 | one column of tiles on every visited level adds exactly the live tiles of that column and keeps the range tight |
| Day24.BugMap.Step2 | src/bin/day24.rs:82-107 | the in-place recursive step produces the next layout and level range and keeps the map valid |
| Day24.History | src/bin/day24.rs:200-212 | defines the ratings of every minute up to `n`; `HistoryMeaning` states entry `k` |
| Day24.HistoryMeaning | src/bin/day24.rs:200-212 | entry `k` of the history is the rating after `k` minutes |
| Day24.Advance | src/bin/day24.rs:204-211 | one more minute either finds the first repeated rating or extends a history of distinct ratings |
| Day24.Part1 | src/bin/day24.rs:200-212 | part 1 is the first rating that repeats an earlier one, and the loop ends because there are at most `2^25` ratings |
| Day24.Part2 | src/bin/day24.rs:214-220 | part 2 is the number of bugs after 200 recursive minutes |
| Day12.AtRest | src/bin/day12.rs:29-33 | a parsed moon starts at rest, its initial position being its position |
| Day12.EnergyZero | src/bin/day12.rs:41-44 | a moon's energy is zero exactly when it is at the origin or at rest, and a moving moon has at least its potential energy |
| Day12.TotalEnergy | src/bin/day12.rs:89 | the total energy is zero exactly when every moon's energy is zero |
| Day12.PullAntisymmetric | src/bin/day12.rs:53-76 | the pull of b on a is minus the pull of a on b on every axis, and a moon does not pull itself |
| Day12.DvBound | src/bin/day12.rs:49-77 | a step changes each velocity component by at most one per other moon |
| Day12.GravityBalanced | src/bin/day12.rs:49-77 | the velocity changes of one step sum to zero on every axis |
| Day12.VelocityConserved | src/bin/day12.rs:47-84 | a step keeps the total velocity on every axis |
| Day12.VelocityConservedForever | src/bin/day12.rs:47-84 | any number of steps keeps the total velocity on every axis |
| Day12.InitialKept | src/bin/day12.rs:78-82 | the simulation never changes a moon's initial position |
| Day12.SimulateAdd | src/bin/day12.rs:47-84 | `a + b` steps are `a` steps followed by `b` steps |
| Day12.SimulateSucc | src/bin/day12.rs:98-99 | one more step after `n` steps is `n + 1` steps, so the search's single steps follow the simulation |
| Day12.StepOfFour | src/bin/day12.rs:47-84 | a step of four moons is fixed by each moon's velocity change and move |
| Day12.SampleAt10 | src/bin/day12.rs:133-140 | ten steps take the first test sample to its listed state |
| Day12.TotalEnergyOfFour | src/bin/day12.rs:141 | the total energy of four moons is the sum of their four energies |
| Day12.SampleEnergy | src/bin/day12.rs:133-142 | the first test sample has total energy 179 after ten steps |
| Day12.FirstHomeUnique | src/bin/day12.rs:106-108 | an axis comes home for the first time after only one number of steps, so `find_repeat` records each period unambiguously |
| Day12.SampleFirstHomeX | src/bin/day12.rs:98-113 | axis x of the first test sample is home again after 18 steps and not before |
| Day12.SampleFirstHomeY | src/bin/day12.rs:98-113 | axis y of the first test sample is home again after 28 steps and not before |
| Day12.SampleFirstHomeZ | src/bin/day12.rs:98-113 | axis z of the first test sample is home again after 44 steps and not before |
| Day12.SamplePeriodsLcm | src/bin/day12.rs:113 | the lcm of 18, 28 and 44 is 2772 |
| Day12.SampleFindRepeat | src/bin/day12.rs:143 | `find_repeat` on the first test sample, with at least 44 steps of fuel, returns 2772 |
| Day12.PullPair | src/bin/day12.rs:52-76 | the closure for a pair adds each moon's pull from the other to its velocity change and touches nothing else |
| Day12.PullRow | src/bin/day12.rs:50-77 | the pairs of one first moon with every later moon are all accumulated |
| Day12.Velocities | src/bin/day12.rs:49-77 | every velocity change is the sum of the pulls of all other moons |
| Day12.Step | src/bin/day12.rs:48-83 | one pass in place turns the moons into the next step's moons |
| Day12.Simulate | src/bin/day12.rs:47-84 | simulating in place gives the moons after `steps` steps |
| Day12.Part1 | src/bin/day12.rs:86-90 | part 1 is the total energy after 1000 steps |
| Day12.ParsedAreHome | src/bin/day12.rs:29-33 | parsed moons are at their initial state on every axis |
| Day12.CountHome | src/bin/day12.rs:100-105 | the count of moons home on an axis equals the number of moons exactly when all of them are at their initial position with zero velocity on that axis |
| Day12.CountAll | src/bin/day12.rs:100-105 | the fold counts, per axis, the moons home on that axis |
| Day12.Lcm | src/bin/day12.rs:113 | the least common multiple of two positive numbers is a positive common multiple at most their product, and zero when either is zero |
| Day12.SearchNext | src/bin/day12.rs:98-112 | each iteration records an axis's period at the first step all moons are home on it, and once all three are recorded each is the first such step |
| Day12.SearchExhausted | src/bin/day12.rs:98-112 | if the search is still open after `fuel` steps, some axis never came home within them |
| Day12.FindRepeat | src/bin/day12.rs:92-114 | the result is the lcm of the three first return times, one per axis; without enough fuel some axis did not return |
| Day18.CellOf | src/bin/day18.rs:21-31 | `.` is open, `@` the start, a lower-case letter its key, an upper-case letter a door carrying the lower-case key letter, anything else a wall |
| Day18.Insert | src/bin/day18.rs:36 | inserting into a sorted string keeps it sorted and adds exactly that character |
| Day18.Sort | src/bin/day18.rs:36 | `sorted` gives a sorted permutation |
| Day18.Dedup | src/bin/day18.rs:37 | `dedup` keeps the same characters, makes a sorted string strictly increasing and keeps the first character |
| Day18.MergeDoors | src/bin/day18.rs:33-39 | merging gives a strictly increasing string of exactly the characters of either input |
| Day18.IncreasingUnique | src/bin/day18.rs:33-39 | two strictly increasing strings with the same characters are equal, so a merge is determined by its character set |
| Day18.MergeCommutes | src/bin/day18.rs:33-39 | merging is commutative |
| Day18.MergeAssociates | src/bin/day18.rs:33-39 | merging is associative |
| Day18.MergeEmpty | src/bin/day18.rs:33-39 | merging with the empty string on either side normalises, and leaves a strictly increasing string as it is |
| Day18.MergeIdempotent | src/bin/day18.rs:33-39 | merging in the same doors again changes nothing |
| Day18.CanTraverse | src/bin/day18.rs:48-53 | an edge can be crossed exactly when every door on it has its key among the held keys |
| Day18.AddCost | src/bin/day18.rs:65-73 | adding costs adds the steps and takes the union of the doors, as a strictly increasing string |
| Day18.ZeroCost | src/bin/day18.rs:74-81 | the zero cost is zero by `is_zero` |
| Day18.ZeroIdentity | src/bin/day18.rs:65-81 | zero is a two-sided identity for costs whose doors are normalised |
| Day18.AddCommutes | src/bin/day18.rs:65-73 | cost addition is commutative |
| Day18.AddAssociates | src/bin/day18.rs:65-73 | cost addition is associative |
| Day18.Across | src/bin/day18.rs:146-150 | an edge leads from a node exactly when it touches it, to its other end |
| Day18.Moves | src/bin/day18.rs:144-158 | every successor follows an edge at the current node to a node whose key is not held, through doors the held keys open, with the edge's steps and the current node added to the keys; every such edge's move is among them, no more moves than edges, and nothing else (order and the one-to-one match are not stated) |
| Day10.ReducedByGcd | src/bin/day10.rs:61-64 | dividing an off-axis offset by the gcd of its components is exact and leaves coprime components |
| Day10.SlopeWithD | src/bin/day10.rs:44-66 | as written: the origin gives `((0, 0), 0)`; any other offset is its reduced slope times `\|d\|`, with `d` the positive gcd off the axes and the signed offset `n` on an axis |
| Day10.DirectionIsRay | src/bin/day10.rs:15-19 | two non-zero offsets convert to the same slope exactly when they lie on the same ray from the origin |
| Day10.SameRaySharedSlope | src/bin/day10.rs:44-66 | positive multiples of two reduced slopes on the same ray come from the same slope |
| Day10.AxisKeyReversed | src/bin/day10.rs:44-60 | on a negative axis the farther asteroid gets the smaller `d`, so it sorts first in its slope group |
| Day10.SlopeWithDist | src/bin/day10.rs:44-66 | corrected: the offset is its slope times a non-negative distance multiple, zero only for the origin |
| Day10.NearerFirst | src/bin/day10.rs:96-104 | with the corrected key, on one slope a smaller key means a nearer asteroid |
| Day10.SlopeExamples | src/bin/day10.rs:149-154 | (5, 5), (-5, 0) and (12, -10) have the slopes (1, 1), (-1, 0) and (6, -5) |
| Day10.Seen | src/bin/day10.rs:84-88 | defines the slopes from `a` to every other asteroid, one per direction; `SeenBound` and `SeenIsRays` state what it counts |
| Day10.SeenBound | src/bin/day10.rs:84-88 | the set of slopes seen from `a` has at most one slope per other asteroid |
| Day10.Visible | src/bin/day10.rs:84-89 | defines the count of slopes seen from an asteroid; `VisibleBound` bounds it |
| Day10.VisibleBound | src/bin/day10.rs:84-89 | an asteroid of the set sees at most every other asteroid |
| Day10.SeenIsRays | src/bin/day10.rs:84-88 | two other asteroids count once exactly when they lie on one ray from `a`, one hiding the other |
| Day10.MaxByKeyMeaning | src/bin/day10.rs:80-93 | `max_by_key` finds nothing only in an empty range, and otherwise a point whose score no other point exceeds and every later point falls short of |
| Day10.FindBest | src/bin/day10.rs:80-93 | defines `find_best` over the set's iteration order, keeping the last maximum; `FindBestMeaning` states what it finds |
| Day10.FindBestMeaning | src/bin/day10.rs:80-93 | the best station sees at least as many slopes as every asteroid and more than every later one (`max_by_key` keeps the last maximum); none only for an empty set |
| Day10.SameKey | src/bin/day10.rs:98-104 | the slope and the distance key together identify an asteroid, so no entry of a group is replaced |
| Day10.Others | src/bin/day10.rs:97 | the asteroids other than the station are exactly the listed ones that differ from it |
| Day10.Place | src/bin/day10.rs:101-104 | inserting into a group keeps it in strictly ascending key order and adds exactly that asteroid |
| Day10.GroupedPlace | src/bin/day10.rs:99-104 | placing an asteroid of a group's slope into it keeps every group ordered and on its slope |
| Day10.NewSteps | src/bin/day10.rs:99-104 | an asteroid not yet grouped differs in key from every asteroid of its slope's group |
| Day10.Group | src/bin/day10.rs:96-105 | the grouping loop puts every asteroid but the station into the group of its slope, ordered by key, and nothing else |
| Day10.Sweep | src/bin/day10.rs:110-115 | one pass of `pop_first` over the groups in key order takes the first asteroid of every non-empty group and leaves the rest, losing nothing |
| Day10.PoppedNothing | src/bin/day10.rs:107-116 | a pass that vaporizes nothing found every group empty, so the loop stops only when all are gone |
| Day10.PoppedClockwise | src/bin/day10.rs:110-115 | a pass meets each slope at most once, in key order |
| Day10.PoppedNearest | src/bin/day10.rs:110-115 | a pass keeps the vaporized list nearest-first along every slope |
| Day10.TurnBearingsDiffer | src/bin/day10.rs:110-115 | no two asteroids of one pass share a slope |
| Day10.VaporizeStep | src/bin/day10.rs:108-116 | one pass keeps the vaporization invariant: what is vaporized plus what is left is every asteroid, nearest first on every slope |
| Day10.PassShrinks | src/bin/day10.rs:107-116 | a pass removes from the groups exactly as many asteroids as it vaporizes, and one that vaporizes nothing found them all gone |
| Day10.LayerEmptyIff | src/bin/day10.rs:107-116 | pass `k` takes nothing exactly when no group has more than `k` asteroids |
| Day10.LayerSkip | src/bin/day10.rs:110-115 | the first pass over the groups after `k` passes takes the `k`-th asteroid of every original group |
| Day10.HeadsLayer | src/bin/day10.rs:110-115 | the heads a pass collects, in key order, are the first asteroid of every non-empty group, in group order |
| Day10.LaserStep | src/bin/day10.rs:107-116 | pass `k` vaporizes exactly the `k`-th asteroid of every original group that has one, in key order, and the rest of the laser's order follows |
| Day10.LaserStart | src/bin/day10.rs:106-107 | before the first pass nothing is vaporized and the whole laser order is still to come |
| Day10.VaporizePass | src/bin/day10.rs:108-116 | one pass keeps the loop state of `vaporize`, pass order included, and shrinks what is left |
| Day10.LaserDone | src/bin/day10.rs:108-117 | once a pass vaporizes nothing, the output is the laser order `LaserFrom(groups, 0)` in full |
| Day10.FlattenHas | src/bin/day10.rs:96-105 | an asteroid is in the groups' concatenation exactly when it is in one group |
| Day10.KeySortedUnique | src/bin/day10.rs:96-104 | two sequences strictly ascending by the same key, with the same elements, are equal |
| Day10.AscendingUnique | src/bin/day10.rs:96-104 | a slope group's key order is the only order of its asteroids |
| Day10.GroupOf | src/bin/day10.rs:96-105 | an asteroid is in group `i` exactly when it is grouped at all and its slope is the `i`-th slope |
| Day10.GroupedUnique | src/bin/day10.rs:96-105 | the grouping of a set of asteroids by slope, nearest first, is unique, so the laser order and the 200th asteroid are fixed by the asteroids alone |
| Day10.Vaporize | src/bin/day10.rs:95-118 | the output is the laser order of the asteroids' grouping: pass after pass, the next asteroid of every slope that has one, in key order; so every asteroid but the station is vaporized exactly once, nearer before farther on every slope |
| Day10.OthersLength | src/bin/day10.rs:97 | with the station among distinct asteroids, one fewer remains to vaporize |
| Day10.BothParts | src/bin/day10.rs:120-125 | the answer is the best station's count and `100 * x + y` of the 200th asteroid in the laser order of the unique grouping, failing exactly when there are no more than 200 asteroids |

## Left out

- Integer widths: `i64`, `u64` and `usize` arithmetic is modelled on unbounded integers, so overflow (the VM's `Add` and `Mul`, fuel sums, energies, ORE counts, `v[199].x * 100`) is not modelled. Parsing does keep the `i64` and `usize` ranges.
- I/O: `read_input`, `main`, `println!` and the test-input files are left out. Inputs are parameters and answers are results.
- External library code: `Coord2D`, `Coord3D`, `CDir`, `Grid`, `InfiniteGrid`, `dijkstra`, itertools, `regex` and `num` are replaced by datatypes, sequences, sets and maps. Only the behaviour the core relies on is written out.
- The binaries that only drive the VM (days 2, 5, 7, 9, 11, 13, 15, 17, 19, 21, 23 and 25) are not part of this model. Their sample programs appear only as VM checks in `IntcodeVectors`.
- Intcode.IntcodeVM.RunWithCb: the run loop is bounded by a `fuel` step count and reports `OutOfFuel` when it is used up; the source loops without a bound.
- Intcode.IntcodeVM.Run: bounded by `fuel` in the same way; the printing of outputs is replaced by returning them in order.
- Intcode: the input and output callbacks are modelled as a list of values the input callback will hand out and an appended output list; the source calls arbitrary closures.
- Day03: the three sample wire pairs are not restated as lemmas, because evaluating their crossings is beyond the verifier's resource bound.
- Day03: `WirePath` parsing is modelled to fail where the source's `Seg::from_str` panics; `flat_map` never meets an `Err`, because the parse panics first.
- Day06: the sample inputs live in test-input files that are not part of this model.
- Day06.Part1: it requires every satellite's chain to reach "COM" within a ghost `fuel` bound; the source loops or panics otherwise.
- Day06.Part2: it requires the chains of YOU and SAN to reach "COM"; the source loops or panics otherwise.
- Day06.Part2: the fewest-transfers promise is stated only for maps in which "COM" orbits nothing, as in every puzzle map; if "COM" had a centre, a walk could pass "COM" and meet SAN's walk beyond the recorded path.
- Day08: the pixel values are integers; the source's `u8` is kept only through parsing, which fails on a character below '0'.
- Day10: the angle order of slopes (`Slope::angle` with `f64` `atan2`, and `Ord`) is replaced by an `order` parameter listing the slopes. `vaporize` visits the groups in that order.
- Day10: `mkset` is not modelled, because it relies on `InfiniteGrid` parsing. The asteroid set is given as a duplicate-free list in the set's iteration order.
- Day10.Vaporize: it uses the corrected distance key `SlopeWithDist` (see Findings) rather than the key as written. The `Coord2D` tie-break of the source's `(d, coord)` key is never reached, because the corrected key alone is distinct within a slope.
- Day10.Sweep: it returns the vaporized asteroids of one pass and leaves the appending to `Vaporize`; the source pushes them from inside the closure.
- Day10: the test `day10_test` needs `day10.testinput`, and the `angle` tests need floating point. Neither is part of this model.
- Day12: `Moon::from_str`'s regular expression is not modelled. `AtRest` builds the parsed moon from its three coordinates.
- Day12: of the test's sample values, the first sample's energy after ten steps (`SampleEnergy`) and its `find_repeat` result of 2772 (`SampleFindRepeat`, periods 18, 28 and 44, so 44 simulated steps) are restated. The second sample is not: its energy needs a hundred simulated steps, and `find_repeat` stops only after 5898 steps (periods 2028, 5898 and 4702), one lemma per step each.
- Day12.FindRepeat: it is bounded by a `fuel` step count and returns `None` when some axis has not come home within it; the source loops until all three have.
- Day12.Lcm: it states that the result is a positive common multiple at most the product, not that it is the least one.
- Day14: `part2`'s bracketing search over `est` is not modelled, because it is unbounded and depends on the FUEL estimate's convergence.
- Day14: of the samples of `day14_test`, only the first two (31 and 165 ORE) are restated; the larger ones take too many iterations to follow one step at a time.
- Day14.Search: it is bounded by a `fuel` iteration count and reports `OutOfFuel`; a missing reaction or a product quantity of zero is reported as `Panic`.
- Day16: the test signals are not restated. Each part-1 sample is 32 digits, but needs a hundred full phases, each of 32 pattern sums over 32 digits. Each part-2 sample is a 32-digit signal repeated 10000 times; its offset leaves a window of 11823 to 26490 digits, and the answer needs a hundred passes over it.
- Day16.Part2: it returns `None` where a value above 9 reaches the window; the source carries on with such a value.
- Day18: `mk_edges`, the grid parsing, `dijkstra` and `part2` are left out. `mk_edges` never pushes a neighbour onto its queue, so it yields no edges. `part2` returns 0 unconditionally. The model covers the door and key bookkeeping and the neighbour function that part 1 hands to `dijkstra`.
- Day18: the derived `Ord` of `Cost`, which orders `dijkstra`'s queue, is not modelled.
- Day18.Moves: states the successors by membership and bounds their number by the edges. It does not state that there is exactly one successor per qualifying edge, or that they come in edge order, because the search's answer depends on neither.
- Day22.Part2: the closed form is proved congruent to the coefficients that undo the shuffle. It is not proved that this equals undoing the shuffle the given number of times. That step needs Fermat's little theorem for the prime deck size, which is not part of this model.
- Day22: part 1's fold is proved in the deck only for cuts shorter than the deck and non-negative increments (`InRange`); other arguments follow Rust's `%` as written.
- Day24: the sample's first repeated rating and its bug count after ten recursive minutes are not restated, because evaluating them is beyond the verifier's resource bound.
- Day24: the `print` debugging helper is left out.

## Findings

| source | as written | input that shows it | evidently intended | confidence | as-written member | corrected member |
|---|---|---|---|---|---|---|
| src/bin/day10.rs:44-60 | on an axis, `slope_with_d` returns the signed offset `n` as the distance `d`, and `vaporize` orders each slope's asteroids by `d` | station (0, 0) with asteroids (-1, 0) and (-2, 0): both have slope (-1, 0), with `d` = -1 and -2, so `pop_first` vaporizes the farther (-2, 0) first | `d` = `\|n\|`, so the nearest asteroid on every slope goes first, as it does off the axes | not executed | Day10.AxisKeyReversed | Day10.SlopeWithDist |

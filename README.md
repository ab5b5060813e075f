# Rocket console, seven-segment displays, resistor puzzles and alarms, in Dafny

This project models the deterministic core of a hobby launch-console
project. The original code is in Python, plus one Arduino C++ library. The
model covers five parts:

- **Vehicle.** The reference vehicle (a four-stage launcher built from
  literal constants), the pre-launch fill loop of the first-stage tanks, and
  the throttle-to-thrust mapping.
- **Atmosphere.** The piecewise temperature and gravity of the atmospheric
  model.
- **Displays.** The seven-segment I2C displays in three forms:
  - the Python driver `SevenSegmentDisplay` and its `display_int`;
  - the two-display `PropellantDisplay` of the console;
  - the Arduino `S7SDisplay`/`DoubleDisplay` library.
- **Resistor puzzles.** Two puzzles with nine switched resistors in three
  groups:
  - a series version, in integers;
  - a parallel-in-series version, in exact reals.
- **Alarms.** The alarm state machine with its `activate` and `silence`
  flags.

## Modules

- **Wrappers** (`wrappers.dfy`): Option.
- **Decimal** (`decimal.dfy`): Python `str()` and `int()` on integers, and
  `int()` of a real as truncation toward zero (`Trunc`). It also holds the
  facts about the last four digits of a decimal text.
- **DisplayDevice** (`display_device.dfy`): the display itself.
  - It is an interpreter of the bytes a display receives: four digits, a
    cursor, a dot mask, a brightness, and the command bytes 0x76 (clear),
    0x77 (dots), 0x79 (cursor), 0x7A (brightness), 0x7B-0x7E (segments) and
    0x81 (factory reset).
  - It is the independent reference every driver is proved against: a byte
    sequence a driver sends is shown to make the display read a given text.
- **SevenSegment** (`seven_segment.dfy`): the Python driver.
  - Each display is a class whose `bus` field is the log of the bytes
    written to it.
  - Every method appends to that log.
  - `DisplayInt` models `display_int`.
- **Console** (`console.dfy`): `PropellantDisplay` with its two displays and
  its `display` dispatch.
- **S7S** (`s7s_display.dfy`): the Arduino library.
  - `Wire` is a class holding the log of completed transmissions; each
    transmission records an address and bytes.
  - `S7SDisplay` has its `_address` field.
  - `DoubleDisplay` owns two `S7SDisplay`s on one `Wire`.
- **Combinatorics** (`combinatorics.dfy`): `itertools.combinations` over
  positions, and the list of all non-empty combinations in ascending size.
  It proves these lists are complete, free of repeats, ordered, and 511
  entries long for nine resistors.
- **ResistorSimple** (`resistor_simple.dfy`): the series puzzle.
- **ResistorParallel** (`resistor_parallel.dfy`): the parallel puzzle.
- **Rocket** (`rocket.dfy`):
  - `Propellant`, `Stage` and `Vehicle` are datatypes;
  - `LoadRocket` is the pure builder;
  - `PreLaunch` is the fill loop;
  - `Translate` and `Thrust` are the throttle mapping.
- **Atmosphere** (`atmosphere.dfy`): `Temperature` and `Gravity`.
- **Alarms** (`alarms.dfy`): the `Alarm` class.
  - The mixer's "busy" state is an input to `Update`.
  - The sound is an appended log of `Play`/`Stop` actions.
  - `Step` and `Run` specify the same machine on values.

## Model

| member | source | states |
|---|---|---|
| Rocket.Mean | code/rocket.py:86 | numpy.mean of a pressure range lies inside the range |
| Rocket.PropellantSplit | code/rocket.py:81-91 | the truncated fuel and oxidizer limits are non-negative and add up to the propellant mass or one kilogram less |
| Rocket.LoadRocket | code/rocket.py:53-218 | the vehicle starts on the pad at 89.95 degrees with stage 1 active and the stages in order 1-4. Every stage has total = dead + propellant + payload. Stage 3 carries stage 4; stages 2 and 1 both carry stage 3. The stage 1 tanks are empty at pressure 0 and its SRB is full at 1250000. The stage 3 fuel limit is 0 (the MAS_MAX misspelling). The stage 1 and 2 limits are 127740 and 766441. The other tanks are full at mid-range pressure. |
| Rocket.TankLimitsSplitPropellant | code/rocket.py:81-165 | for stages 1, 2 and 4 the tank limits are the truncated mixture shares, losing at most 1 kg. For stage 3 they fall more than 1 kg short, because its fuel limit was never set. |
| Rocket.ReferenceMasses | code/rocket.py:98-211 | the total masses are 25848, 297966, 1277418 and 1419648 for stages 4, 3, 2 and 1 |
| Rocket.PreLaunch | code/rocket.py:221-245 | the loop terminates and changes only the masses of the stage 1 tanks. It ends with the oxidizer exactly full and the fuel within its limit. Every displayed oxidizer mass lies above the start, at most full, and is strictly rising. The fuel ends full when the oxidizer has far enough to go. |
| Rocket.ReferenceVehicleFillsBothTanks | code/rocket.py:191-203 | on the reference vehicle that condition holds, so pre-launch fills both first-stage tanks exactly |
| Rocket.Translate | code/rocket.py:314-327 | the low end of range1 maps to the low end of range2, and the high end to the high end |
| Rocket.TranslateAffine | code/rocket.py:322-327 | differences scale by span2/span1: the map is affine |
| Rocket.TranslateRoundTrip | code/rocket.py:314-327 | translating back from range2 onto range1 returns the value |
| Rocket.Thrust | code/rocket.py:295-311 | throttle 0 gives no thrust. Throttle 127 gives the active stage's vacuum thrust above 25 km and its sea-level thrust otherwise. Readings in between stay in that range. |
| Rocket.TranslateFromZero | code/rocket.py:310-327 | between ranges starting at zero, translating is scaling by the ratio of the upper ends |
| Rocket.ThrustMonotone | code/rocket.py:295-311 | more throttle never gives less thrust |
| Rocket.UpperStagesInAtmosphere | code/rocket.py:303-306 | stages 3 and 4 have no sea-level thrust, so at or below 25 km they give zero thrust; above it, full throttle gives their vacuum thrust |
| Atmosphere.Temperature | code/atmospheric_model.py:6-17 | the three guards cover every altitude; the temperature is never below -56.46 and always above absolute zero (-273.1) |
| Atmosphere.ColdestExactlyInLayer | code/atmospheric_model.py:12-17 | the temperature is -56.46 exactly on 11000 < h <= 25000 |
| Atmosphere.TemperatureSamples | code/atmospheric_model.py:12-17 | temperature(0) = 15.04 and temperature(11000) = -56.35, a jump of 0.11 to the layer. temperature(25000) is -56.46 from both sides, and temperature(30000) = -41.51. |
| Atmosphere.TemperatureAtBoundaries | code/atmospheric_model.py:12-17 | inside the layer the temperature is 0.11 below the value at 11000; above 25000 it rises 0.00299 per metre from -56.46 |
| Atmosphere.TemperatureShape | code/atmospheric_model.py:12-17 | the temperature falls strictly up to 11000, is constant in the layer, and rises strictly above 25000 |
| Atmosphere.Gravity | code/atmospheric_model.py:43-49 | gravity is positive, and at most 9.81 at or above sea level |
| Atmosphere.GravityAtSeaLevel | code/atmospheric_model.py:2-49 | gravity(0) = 9.81 |
| Atmosphere.GravityDecreasing | code/atmospheric_model.py:49 | gravity strictly decreases with altitude |
| SevenSegment.OrAll | code/seven_segment_i2c.py:128-130 | every mask in the list is contained in the combined mask |
| SevenSegment.OrAllLeast | code/seven_segment_i2c.py:128-130 | the combined mask is the least mask containing them all |
| SevenSegment.BrightnessLevel | code/seven_segment_i2c.py:99-104 | the level is in 0..255; 0 gives 0, 100 gives 255, and a percentage outside 0..100 gives the level of 50 (127) |
| SevenSegment.BrightnessMonotone | code/seven_segment_i2c.py:104 | a higher percentage never gives a dimmer level |
| SevenSegment.WriteIntBytes | code/seven_segment_i2c.py:186-200 | write_int sends nothing exactly when str(val) has more than four characters or the fill more than one |
| SevenSegment.PositionedStep | code/seven_segment_i2c.py:199-200 | each character adds one cursor placement at its index, then its digit |
| SevenSegment.SevenSegmentDisplay.constructor | code/seven_segment_i2c.py:37-47 | the display keeps its address and starts with an empty bus log |
| SevenSegment.SevenSegmentDisplay.ValidateDigit | code/seven_segment_i2c.py:49-58 | true exactly for the command bytes 0x76..0x81 |
| SevenSegment.SevenSegmentDisplay.WriteByte | code/seven_segment_i2c.py:60-80 | the byte is appended to the bus log |
| SevenSegment.SevenSegmentDisplay.RestoreFactoryDefaults | code/seven_segment_i2c.py:82-86 | appends 0x81 |
| SevenSegment.SevenSegmentDisplay.ClearDisplay | code/seven_segment_i2c.py:88-92 | appends 0x76 |
| SevenSegment.SevenSegmentDisplay.SetBrightnessLevel | code/seven_segment_i2c.py:94-108 | appends 0x7A and the brightness level |
| SevenSegment.SevenSegmentDisplay.SetCursorPosition | code/seven_segment_i2c.py:110-119 | appends 0x79 and the position for 0..3, nothing otherwise |
| SevenSegment.SevenSegmentDisplay.SetNondigits | code/seven_segment_i2c.py:121-138 | appends 0x77 and the or of the dot masks (0 for none) |
| SevenSegment.SevenSegmentDisplay.WriteDigit | code/seven_segment_i2c.py:140-148 | appends the code unless it is a command byte |
| SevenSegment.SevenSegmentDisplay.WriteDigitToPosition | code/seven_segment_i2c.py:150-156 | the cursor bytes, then the digit bytes |
| SevenSegment.SevenSegmentDisplay.WriteSegments | code/seven_segment_i2c.py:158-173 | appends the digit's segment register 0x7B+p and the or of the segments for p in 0..3, nothing otherwise |
| SevenSegment.SevenSegmentDisplay.WriteInt | code/seven_segment_i2c.py:175-200 | appends exactly the bytes of write_int: nothing when rejected, else each padded character placed at its index |
| SevenSegment.SevenSegmentDisplay.WriteCharacters | code/seven_segment_i2c.py:199-200 | the loop places every character of the text at its index |
| SevenSegment.PlaceDigit | code/seven_segment_i2c.py:150-156 | on the display, the digit at that position shows the code unless it is a command byte; no other digit changes |
| SevenSegment.PositionedShows | code/seven_segment_i2c.py:199-200 | after the loop each position shows its character, unless that character is a command byte |
| SevenSegment.WriteIntShows | code/seven_segment_i2c.py:175-200 | a value of at most four characters with a one-character fill is shown right-aligned after the fill |
| SevenSegment.NondigitsShow | code/seven_segment_i2c.py:121-138 | the display lights exactly the combined dot mask and leaves the digits alone |
| SevenSegment.SegmentsShow | code/seven_segment_i2c.py:158-173 | the digit at the position shows the combined segment pattern |
| SevenSegment.SliceBound | code/seven_segment_i2c.py:214-215 | Python slice bounds: negative counts from the end, both clamped to the list |
| SevenSegment.DisplayIntSplit | code/seven_segment_i2c.py:211-219 | display_int fails exactly for negative values and for values of 1, 2 or 4 digits (int('') raises). Five or more digits split into value div 10000 and value mod 10000, so left*10000+right = value. Three digits give (value div 10, value). |
| SevenSegment.DisplayInt | code/seven_segment_i2c.py:203-222 | writes to both displays exactly when the split succeeds, each part blank-filled; otherwise it writes nothing; when both arguments are the same display, it receives the left part's bytes and then the right part's |
| SevenSegment.PartsOfDigits | code/seven_segment_i2c.py:211-219 | for a non-negative value the parts are the two digit slices read as numbers |
| SevenSegment.DisplayIntDropsZeros | code/seven_segment_i2c.py:218-222 | when the last four digits start with 0, the right display shows blanks where str(value) has zeros |
| SevenSegment.DisplayIntExample | code/seven_segment_i2c.py:203-222 | 10000005 is split as (1000, 5) and the right display reads "   5" |
| Console.PropellantDisplay.constructor | code/console.py:5-8 | the two displays are distinct, at the given addresses, with empty logs |
| Console.PropellantDisplay.Display | code/console.py:10-26 | fails exactly where int() raises (a negative value of 5-8 characters) and then writes nothing. Otherwise it appends exactly the planned bytes to each display: a short value to the right display only, a split value to both, and nothing for more than 8 characters. |
| Console.PropellantDisplay.ShowSplit | code/console.py:14-26 | leading digits blank-filled on the left, last four zero-filled on the right |
| Console.DisplaySplit | code/console.py:11-26 | None exactly for negative values of 5-8 characters. A value of 5-8 digits goes out as value div 10000 and value mod 10000, so left*10000+right = value. |
| Console.DisplayShowsValue | code/console.py:13-26 | the two displays together read str(value) right-aligned over eight digits, leading zeros of the right half included. The left part has at most four digits, so its write_int never rejects it. |
| Console.HalvesOfText | code/console.py:17-22 | the zero-filled text of value mod 10000 is the last four characters of str(value); the two halves concatenate to str(value) |
| Console.DisplayShowsShortValue | code/console.py:11-12 | a value of at most four characters goes to the right display only, right-aligned after blanks |
| Console.LongValueNotShown | code/console.py:11-13 | a value of more than eight characters writes nothing to either display |
| S7S.BrightnessByte | code/S7SDisplay/S7SDisplay.cpp:59-64 | the level is in 0..255; percentages at or below 0 give 0 and at or above 100 give 255 (clamping) |
| S7S.BrightnessAgrees | code/S7SDisplay/S7SDisplay.cpp:59-64 | within 0..100 the C++ and Python levels agree; above 100 C++ gives 255 where Python gives 127 |
| S7S.BrightnessMonotone | code/S7SDisplay/S7SDisplay.cpp:59-64 | a higher percentage never gives a dimmer level |
| S7S.CharAt | code/S7SDisplay/S7SDisplay.cpp:121 | indexing a String gives a byte |
| S7S.IntBytes | code/S7SDisplay/S7SDisplay.cpp:109-122 | WriteInt sends exactly four bytes, whatever the length of the value |
| S7S.S7SDisplay.constructor | code/S7SDisplay/S7SDisplay.cpp:13-15 | the display is attached to the shared Wire |
| S7S.S7SDisplay.SetAddress | code/S7SDisplay/S7SDisplay.cpp:17-19 | the address is recorded |
| S7S.S7SDisplay.ValidateDigit | code/S7SDisplay/S7SDisplay.cpp:21-30 | true exactly for the command bytes 0x76..0x81 |
| S7S.S7SDisplay.WriteByte | code/S7SDisplay/S7SDisplay.cpp:32-39 | one transmission of the byte to the display's address |
| S7S.S7SDisplay.FactoryReset | code/S7SDisplay/S7SDisplay.cpp:41-46 | one transmission of 0x81 |
| S7S.S7SDisplay.ClearDisplay | code/S7SDisplay/S7SDisplay.cpp:48-53 | one transmission of 0x76 |
| S7S.S7SDisplay.SetBrightness | code/S7SDisplay/S7SDisplay.cpp:55-70 | one transmission of 0x7A and the clamped level |
| S7S.S7SDisplay.SetCursorPosition | code/S7SDisplay/S7SDisplay.cpp:72-84 | one transmission of 0x79 and the position for 0..3, none otherwise |
| S7S.S7SDisplay.WriteDigit | code/S7SDisplay/S7SDisplay.cpp:86-93 | one transmission of the byte unless it is a command byte |
| S7S.S7SDisplay.WriteDigitToPosition | code/S7SDisplay/S7SDisplay.cpp:95-101 | the cursor transmission, then the digit transmission |
| S7S.S7SDisplay.WriteInt | code/S7SDisplay/S7SDisplay.cpp:103-123 | one transmission: the first four characters of the fill copies followed by String(value) |
| S7S.SameBytesAsPython | code/S7SDisplay/S7SDisplay.cpp:95-101 | positioning and writing a digit sends the display the same bytes as the Python driver |
| S7S.IntBytesPadded | code/S7SDisplay/S7SDisplay.cpp:109-122 | for a value of at most four characters the four bytes are the value right-aligned after the fill |
| S7S.WriteIntShows | code/S7SDisplay/S7SDisplay.cpp:103-123 | from the leftmost digit such a value is shown right-aligned, and the cursor returns to the leftmost digit |
| S7S.LeadingDigitsPrefix | code/S7SDisplay/S7SDisplay.cpp:160-161 | toInt reads a prefix of the string, and all of an all-digit string |
| S7S.ToIntDigits | code/S7SDisplay/S7SDisplay.cpp:160-161 | toInt of an all-digit string is its value; a lone "-" reads as 0 |
| S7S.ChainedComparison | code/S7SDisplay/S7SDisplay.cpp:156 | `4 < n <= 8` holds for every length n |
| S7S.DoubleDisplay.constructor | code/S7SDisplay/S7SDisplay.cpp:125-135 | two distinct displays on the one Wire, at the given addresses |
| S7S.DoubleDisplay.WriteInt | code/S7SDisplay/S7SDisplay.cpp:137-163 | for any `long` value, the Wire log grows by exactly the transmissions of the code as written |
| S7S.DoubleDisplay.WriteShort | code/S7SDisplay/S7SDisplay.cpp:149-152 | clear the left display, then the value blank-filled on the right |
| S7S.DoubleDisplay.WriteHalves | code/S7SDisplay/S7SDisplay.cpp:156-162 | the parts before and after the last four characters are read back with toInt: left blank-filled, right zero-filled |
| S7S.DoubleDisplay.ClearDisplay | code/S7SDisplay/S7SDisplay.cpp:165-172 | one 0x76 transmission to each display |
| S7S.ClearBlanksBoth | code/S7SDisplay/S7SDisplay.cpp:165-172 | both displays end blank with their cursors on the leftmost digit |
| S7S.ShortValueShows | code/S7SDisplay/S7SDisplay.cpp:149-152 | a value of at most four characters blanks the left display and shows right-aligned on the right one |
| S7S.LongValueSplit | code/S7SDisplay/S7SDisplay.cpp:156-162 | a value of 5-8 digits goes out as value div 10000 and value mod 10000; the halves concatenate to str(value) |
| S7S.LongValueShows | code/S7SDisplay/S7SDisplay.cpp:156-162 | the two displays together read str(value) right-aligned over eight digits |
| S7S.MinusSignLost | code/S7SDisplay/S7SDisplay.cpp:157-160 | a negative value of five characters shows its left part as 0 instead of "-" |
| S7S.LongValueGarbled | code/S7SDisplay/S7SDisplay.cpp:156-161 | a value of more than eight digits is still split; the displays show its first four and last four digits, for every such value whose left part fits a 16-bit `int` |
| S7S.GarbledSplit | code/S7SDisplay/S7SDisplay.cpp:156-161 | the parts sent for such a value, and that the left one begins with the value's first four digits, under the same 16-bit bound |
| S7S.LeadingBytes | code/S7SDisplay/S7SDisplay.cpp:118-121 | a value of four or more digits sends its first four digits |
| S7S.IntendedFits | code/S7SDisplay/S7SDisplay.cpp:139-162 | with the intended condition, something is sent exactly when the text has at most eight characters, and the result agrees with the code as written there |
| Combinatorics.ChooseCount | code/resistor_puzzle.py:43-44 | combinations(range(lo,hi), k) has Binom(hi-lo, k) entries |
| Combinatorics.ChooseSound | code/resistor_puzzle.py:43-44 | each entry is a strictly increasing list of k positions in lo..hi-1 |
| Combinatorics.ChooseComplete | code/resistor_puzzle.py:43-44 | every strictly increasing list of k positions in lo..hi-1 is an entry |
| Combinatorics.ChooseOrdered | code/resistor_puzzle.py:43-44 | the entries are in strictly increasing lexicographic order |
| Combinatorics.BySizeOrdered | code/resistor_puzzle.py:43-44 | the extended list holds only non-empty combinations, in ascending size, lexicographic within a size |
| Combinatorics.BySizeDistinct | code/resistor_puzzle.py:43-44 | no combination is listed twice |
| Combinatorics.BySizeComplete | code/resistor_puzzle.py:43-44 | every non-empty combination of at most m positions is listed |
| Combinatorics.BySizeCount | code/resistor_puzzle.py:43-44 | the list has sum over k = 1..m of Binom(n, k) entries |
| Combinatorics.AllCombinationsCount | code/resistor_puzzle.py:43-44 | all sizes together give 2^n - 1 entries |
| Combinatorics.NineResistorCombinations | code/resistor_puzzle.py:43-44 | nine resistors give 511 entries |
| Combinatorics.ChooseAll | code/resistor_puzzle.py:43-44 | the only combination of every position is the whole range |
| Combinatorics.LastCombination | code/resistor_puzzle.py:43-44 | the last entry is all positions |
| ResistorSimple.Combinations | code/resistor_puzzle_simple.py:39 | combinations(values, k) has one entry per k-combination of positions |
| ResistorSimple.ValuesBySize | code/resistor_puzzle_simple.py:38-39 | the extended list has as many entries as the non-empty combinations of at most m positions |
| ResistorSimple.LoadCombinations | code/resistor_puzzle_simple.py:26-47 | entry i is the sum of combination i of the extended list |
| ResistorSimple.SetGoal | code/resistor_puzzle_simple.py:18-23 | the goal is an element of the list; for an empty list (where random.choice raises) there is none |
| ResistorSimple.GroupSums | code/resistor_puzzle_simple.py:84-99 | each group total is the sum of its switched-on resistors, and actual is the total of every switched-on resistor |
| ResistorSimple.GroupsAddUp | code/resistor_puzzle_simple.py:84-99 | the three group totals add up to the total of all switched-on resistors |
| ResistorSimple.AllOffReadsZero | code/resistor_puzzle_simple.py:84-99 | with every switch off, every display reads 0 |
| ResistorSimple.CombinationSum | code/resistor_puzzle_simple.py:38-44 | the sum of a combination is the switched total when exactly its switches are on |
| ResistorSimple.ValuesBySizePick | code/resistor_puzzle_simple.py:38-44 | entry i of the value lists is the values at the positions of combination i |
| ResistorSimple.EveryGoalReachable | code/resistor_puzzle_simple.py:68-99 | every goal load_combinations can return is what the displays add up to for some switch setting |
| ResistorSimple.CombinationInRange | code/resistor_puzzle_simple.py:38-44 | a non-empty combination sums to between 10 and 9990 |
| ResistorSimple.TotalsInRange | code/resistor_puzzle_simple.py:38-44 | every entry of load_combinations lies in 10..9990 |
| ResistorSimple.LastTotalIsFullSum | code/resistor_puzzle_simple.py:38-44 | the last entry is the sum of all resistors |
| ResistorSimple.LastTotal | code/resistor_puzzle_simple.py:9-44 | for the puzzle's resistors that is 9990 |
| ResistorSimple.FullSum | code/resistor_puzzle_simple.py:9-11 | the nine resistors add up to 9990 |
| ResistorSimple.AllOnTotal | code/resistor_puzzle_simple.py:84-99 | with every switch on, the actual display reads 9990 |
| ResistorSimple.TotalsCount | code/resistor_puzzle_simple.py:38-44 | load_combinations returns 511 entries |
| ResistorParallel.ResistorsPositive | code/resistor_puzzle.py:9-11 | every resistor is at least 1000 ohms |
| ResistorParallel.Reciprocal | code/resistor_puzzle.py:38 | every reciprocal is positive |
| ResistorParallel.ConductanceBound | code/resistor_puzzle.py:55-58 | a group's sum of 1/R is non-negative and at least 1/R of each of its switched-on resistors |
| ResistorParallel.GroupImpedanceBound | code/resistor_puzzle.py:72-75 | a group's parallel resistance is positive and at most each of its switched-on resistors |
| ResistorParallel.KeepCompleteMembers | code/resistor_puzzle.py:65-76 | a combination is kept exactly when it is listed and makes a complete circuit |
| ResistorParallel.LoadCombinations | code/resistor_puzzle.py:26-83 | one entry per kept complete circuit, in list order, each the sum of the three groups' parallel resistances |
| ResistorParallel.ImpedancesOf | code/resistor_puzzle.py:38-83 | the same, for any list of combinations |
| ResistorParallel.CompleteCircuits | code/resistor_puzzle.py:63-76 | keeps exactly the complete circuits, in order, with their three group resistances; no group's sum of 1/R is 0 at the inversion |
| ResistorParallel.CompleteByIndexes | code/resistor_puzzle.py:66-71 | the index test of the filter is completeness of the combination's switches |
| ResistorParallel.InvertGroups | code/resistor_puzzle.py:72-75 | each group's resistance is the reciprocal of its sum of 1/R |
| ResistorParallel.GroupConductance | code/resistor_puzzle.py:72-75 | the accumulated entry of group g is its sum of 1/R, which is positive for a group with a switch on and whose reciprocal is the group resistance |
| ResistorParallel.ReciprocalImpedances | code/resistor_puzzle.py:52-58 | for every combination, each group's entry is the sum of 1/R of its resistors in the combination |
| ResistorParallel.CombinationConductances | code/resistor_puzzle.py:56-58 | the same, for one combination; resistor j goes to group j div 3 |
| ResistorParallel.KeptExactly | code/resistor_puzzle.py:43-76 | the kept list holds exactly the non-empty combinations with a switch on in every group |
| ResistorParallel.Evaluate | code/resistor_puzzle.py:117-144 | for a complete circuit the group displays show int() of each group's resistance and the actual display shows their sum; otherwise all four show "0000" |
| ResistorParallel.TruncatedGroups | code/resistor_puzzle.py:131-132 | each group value is int() of the reciprocal of its sum of 1/R |
| ResistorParallel.GroupConductances | code/resistor_puzzle.py:121-129 | the three loops give each group's sum of 1/R |
| ResistorParallel.GoalAgainstDisplay | code/resistor_puzzle.py:105-138 | for the same switches, the goal (int of the exact sum) is the displayed total or up to 2 more |
| ResistorParallel.ExampleGroups | code/resistor_puzzle.py:121-132 | switches 0, 1, 3, 4 and 6 give groups of 11000/21, 42000/41 and 3000 ohms |
| ResistorParallel.GoalNotShown | code/resistor_puzzle.py:105-138 | for those switches the goal is 4548 but the actual display shows 4547 |
| Alarms.Alarm.constructor | code/alarms.py:5-14 | the alarm keeps its parameters and flags, and has played nothing |
| Alarms.Alarm.Trigger | code/alarms.py:16-24 | the flags and sound log move as one Trigger step of the machine |
| Alarms.Alarm.Mute | code/alarms.py:26-28 | the flags and sound log move as one Mute step |
| Alarms.Alarm.Update | code/alarms.py:30-37 | the flags and sound log move as one Update step for the mixer's busy state |
| Alarms.TriggerActivates | code/alarms.py:16-24 | trigger always activates, keeps silence, and plays exactly when not silenced |
| Alarms.MuteIdempotent | code/alarms.py:26-28 | mute sets silence only, plays nothing, and muting twice is muting once |
| Alarms.UpdateCases | code/alarms.py:30-37 | update never changes the flags. It does nothing when inactive. When active it stops if busy and silenced, plays if idle and not silenced, and does nothing otherwise. |
| Alarms.FlagsOnlyRise | code/alarms.py:16-37 | no sequence of calls ever clears activate or silence |
| Alarms.MutedNeverPlays | code/alarms.py:16-37 | once muted, no sequence of calls plays the sound |
| Alarms.InactiveStaysQuiet | code/alarms.py:30-37 | an untriggered alarm stays inactive and silent through any mutes and updates |
| Alarms.MuteThenTrigger | code/alarms.py:16-28 | mute then trigger leaves the alarm active and silenced, having played nothing |

## Left out

- **Bus I/O.**
  - The I2C transfer and the retry and exception path of `write_byte` (code/seven_segment_i2c.py:60-80) are out: a write always succeeds and is appended to the display's log.
  - The Arduino `Wire` library is modelled only as a log of transmissions.
- **Printed messages.** `print` messages (invalid position, value too large and so on) are not modelled; only the bytes sent are.
- **Hardware loops.** GPIO switch reading, the `time.sleep` polling loops of both puzzles' `main`, pygame initialisation and sound loading are out.
  - Switch states are an input to `GroupSums` and `Evaluate`.
  - The mixer's busy state is an input to `Alarm.Update`.
  - The sound is a log of Play/Stop actions.
  - `soundFileName` is kept as a plain field.
- **Randomness.** `randint` and `random.choice` are modelled as a nondeterministic choice within their bounds.
- **Floating point.** Floats are exact reals, and Python `int()` and the C++ conversion to `int` are truncation toward zero. Results that rounding of binary floats could change are not claimed for floats, such as the goal 4548 against 4547.
- **Number parsing.**
  - `atol` in String::toInt is modelled without leading white space, which String(value) never produces.
  - C++ `long` is the 32-bit range `LongMin..LongMax`, which `S7S.DoubleDisplay.WriteInt` requires of its value.
- S7S.DoubleDisplay.WriteInt: the `int` parameter of `S7SDisplay::WriteInt` is modelled without wrap-around, which matches a board with a 32-bit `int`. On a board with a 16-bit `int` (AVR), a left part above 32767 wraps, so a value above 327679999 or below -327679999 shows something other than what the model gives (400000000 has left part 40000, which wraps to -25536). `S7S.LongValueGarbled` and `S7S.GarbledSplit` are therefore stated only for values whose left part is at most `ShortIntMax` (32767), where both widths agree.
- **Display objects in rocket.py and console.py.**
  - `pre_launch` builds a `PropellantDisplay(0x70, 0x71)` to show the oxidizer mass. `Rocket.PreLaunch` returns the list of displayed values instead.
  - `PropellantDisplay.__init__` passes two arguments to the one-argument `SevenSegmentDisplay` constructor, so it would raise in Python. `Console.PropellantDisplay.constructor` builds the two displays at the given addresses instead.
- **Rocket flight model.** `update`, `functions`, `getattr_nest` and `setattr_nest` in code/rocket.py are out:
  - the integrator is unimplemented and transcendental;
  - the attribute paths built from strings become the `StageId` datatype and typed fields;
  - the `dir()`-based stage list is the fixed sequence `[Stage1, Stage2, Stage3, Stage4]`.
- **Throttle reading.** The touch potentiometer's reading is a parameter of `Rocket.Thrust`, bounded by its MIN_VALUE 0 and MAX_VALUE 127.
- **Atmosphere.** `pressure` and `density` in code/atmospheric_model.py are out, because they need `exp` and non-integer powers.
- **Flow rates.** The FLOW_RATE_MAX values in `load_rocket` are carried as reals, but no property is stated about them.
- **Dead code.** The no-op loop `resistance[i] = resistance[i]` (code/resistor_puzzle_simple.py:96-97) has no effect and is not modelled. The commented-out error-propagation block at the end of code/resistor_puzzle.py is out.
- **Address bookkeeping.** The `_leftAddress`/`_rightAddress` fields of `DoubleDisplay` are modelled as constants. The address of an `S7SDisplay` starts at 0 until `SetAddress`.
- ResistorParallel.KeptExactly: characterises the kept combinations but does not count them. The 343 (7 x 7 x 7) complete circuits are not proved.
- Atmosphere.Gravity: Python raises ZeroDivisionError at altitude exactly -EARTH_RADIUS; the model excludes that altitude by its precondition.

## Findings

| source | as written | input that shows it | evidently intended | confidence | as-written member | corrected member |
|---|---|---|---|---|---|---|
| code/seven_segment_i2c.py:222 | `display_int` writes the last four digits with the default blank fill | 10000005: left "1000", right "   5" instead of "0005" | the right half zero-filled, as `PropellantDisplay.display` does at code/console.py:26 | high (not executed) | SevenSegment.DisplayIntExample | Console.DisplayShowsValue |
| code/S7SDisplay/S7SDisplay.cpp:156 | `4 < strValue.length() <= 8` parses as `(4 < n) <= 8`, which always holds | 123456789: the displays show "1234" and "6789", dropping the 5 | `4 < n && n <= 8`, so that a value of more than eight characters is not shown | high (not executed) | S7S.LongValueGarbled | S7S.IntendedFits |

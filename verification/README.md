# Command-line parameters and search orientations of a 3x3 cube solver

This project models the front end of a speed-cubing solver: the routine
that reads the command line into the global parameter record
(`ProcessParameters`), and the three `ProcessOrientations` overloads that
turn the orientation chosen on the command line into the cross layers, the
search spins and the first layer that a solving method starts from.

The model is organised as the program is:

- `cube.dfy` (`Cube`): the six faces and the `Orientations` enumeration in
  declaration order, with its two-letter enumerator names and the 24 named
  spins.
- `settings.dfy` (`Settings`): the `Methods`, `Collections` and metric
  enumerations, the parameter record with its defaults, and the ranges its
  numeric fields are kept in.
- `keywords.dfy` (`Keywords`): keyword recognition. An argument selects a
  keyword when one of its spellings occurs anywhere in the argument. The
  keywords are tried in the program's order and the first one found wins.
  `Contains` is the substring search `std::string::find`, proved equal to
  "some slice equals the keyword".
- `keyword_laws.dfy` (`KeywordLaws`): the priority that order gives. The
  selected keyword is the highest-priority one the argument contains, so a
  longer keyword tested first shadows a shorter one inside it (QSTM/STM,
  1.5HTM/HTM, COLL/OLL, EPLL/PLL).
- `parser.dfy` (`Parser`): one argument at a time.
  - A keyword sets one field.
  - Otherwise an argument longer than two characters that starts with `-`
    is an option. `-n -l -i -d -s` store their number in a 32-bit unsigned
    field and clamp it. `-t` clamps a signed thread count. `-o` parses an
    orientation.
  - Anything else is ignored.
  - The whole command line is a left fold over `argv[1..]` from the defaults.
- `option_laws.dfy` (`OptionLaws`): what each numeric option stores, for
  every payload.
- `parser_laws.dfy` (`ParserLaws`):
  - One field per argument: each argument changes at most one field, to a
    value independent of the record.
  - Last one wins: the last argument that targets a field decides it.
  - A field no argument targets keeps its default.
  - Reading an argument twice changes nothing.
  - The program name is ignored.
- `orientation_map.dfy` (`OrientationMap`): the three `ProcessOrientations`
  overloads.
  - The cross layers appended for each orientation.
  - The spins listed for each orientation: all 24; the four spins of one
    layer up; the eight of a pair of opposite layers.
  - The first layer, which is the first cross layer the layer overload
    appends.

Inputs the program reads from its surroundings are explicit here:

- Each argument carries, next to its text, the 32-bit integer that
  `std::stoi` would decode from the characters after the option letter
  (`Parser.Arg`).
- Two overloads read the global parameter record's orientation. The model
  passes that orientation in as the `global` parameter.
- An argument's text is its bytes, one `char` per byte. The program's
  lengths and indices count bytes, so a UTF-8 `-oé` is four characters
  here (`-`, `o`, 0xC3, 0xA9). Its orientation text then has two letters,
  and since 0xC3 is not a face it selects every orientation.
- Spins are integers. The spin enumeration is declared in a header that is
  not part of this model. The model assumes, as the cast in the spin
  overload's default branch does, that spin `XY` has index
  `ordinal(XY) - ordinal(UF)`, which lies in 0..23 for a named spin. That
  branch reads the global orientation, not its argument. When the two
  differ the pushed value can fall outside 0..23 (`SearchSpins(UF, ALL)` is
  `[-10]`). No call site passes anything but the global itself
  (src/main.cpp:741, 796, 859).

Negative counts: `std::stoi`'s signed result is stored into a `uint`, so a
negative count wraps to a huge number and is clamped to the TOP of its
range, not the bottom (`OptionLaws.NumSolvesOption` and its siblings state
this).

### Unreachable `-o` case

`-o` with nothing after it cannot be reached, because arguments of at most
two characters are dropped first. The empty case is still modelled as
leaving the orientation unchanged.

## Model

| member | source | states |
|---|---|---|
| Cube.LayerOfLetter | src/main.cpp:431-439 | only the six upper-case letters U D F B R L name a face, and the face read spells back to the same letter |
| Cube.OrdinalGroups | src/main.cpp:21-32 | the enumeration lists ALL first, then the six whole layers, the three opposite pairs and the 24 named spins, in that order |
| Cube.EnumerationAtOrdinal | src/main.cpp:21-32 | the enumeration has 34 values and each orientation sits at its ordinal |
| Cube.Name | src/main.cpp:21-32 | every enumerator name other than ALL has two letters: the leading face, then `x` exactly for a whole layer, the opposite face for a pair |
| Cube.NameInjective | src/main.cpp:21-32 | no two orientations share a two-letter name |
| Cube.SpinIndex | src/main.cpp:615 | a named spin's index, `ordinal - ordinal(UF)`, lies in 0..23 (its type); `SpinIndexInjective` and `OrientationMap.SpinGroupedByLeadingFace` carry its contract: distinct names get distinct indices, and the index divided by four is the up face's block |
| Cube.SpinIndexInjective | src/main.cpp:615 | distinct named spins have distinct spin indices |
| Settings.DefaultsValid | src/main.cpp:49-64 | the record's initial values lie inside every range the options clamp into |
| Keywords.Contains | src/main.cpp:173 | the `find != npos` test: an empty keyword is always found and one longer than the argument never is; `Keywords.ContainsIffOccurs` characterises it in both directions |
| Keywords.ContainsIffOccurs | src/main.cpp:173 | the substring search finds a keyword exactly when some slice of the argument equals it |
| Keywords.FirstHit | src/main.cpp:173-367 | the keyword chosen is hit by the argument and no keyword tried before it is; nothing is chosen exactly when no keyword is hit |
| Keywords.MatchKeyword | src/main.cpp:173-367 | the keyword the if-chain selects; `KeywordLaws.MatchIsHighestPriority` and `KeywordLaws.SelectedIff` carry its contract: a keyword is selected exactly when the argument contains it and no keyword of higher priority, and nothing is selected exactly when no keyword occurs |
| KeywordLaws.KeywordAtRank | src/main.cpp:173-367 | every keyword has a place in the order in which the if-chain tries them |
| KeywordLaws.RankOfPosition | src/main.cpp:173-367 | the keyword at each place of the order has that place as its priority |
| KeywordLaws.MatchIsHighestPriority | src/main.cpp:173-367 | the selected keyword occurs in the argument and no keyword of higher priority does; none is selected if and only if the argument contains no keyword |
| KeywordLaws.SelectedIff | src/main.cpp:173-367 | a keyword is selected if and only if the argument contains it and contains no keyword of higher priority |
| KeywordLaws.MethodsTriedFirst | src/main.cpp:173-206 | an argument naming a method always selects a method, whatever other keywords it contains |
| KeywordLaws.CollAndOcllShadowOll | src/main.cpp:229-255 | an argument containing COLL or OCLL never selects OLL |
| KeywordLaws.EpllShadowsPll | src/main.cpp:243-262 | an argument containing EPLL never selects PLL |
| KeywordLaws.QstmShadowsStm | src/main.cpp:292-304 | an argument containing QSTM never selects STM, and a metric selected from it is QSTM |
| KeywordLaws.Htm15ShadowsHtm | src/main.cpp:306-318 | an argument containing 1.5HTM never selects HTM |
| Parser.ToUint32 | src/main.cpp:379 | storing a signed 32-bit value into an unsigned field gives a value below 2^32 congruent to it modulo 2^32, unchanged when non-negative |
| Parser.ClampUnsigned | src/main.cpp:377-425 | an unsigned count lands in [lo, hi]; in-range values are kept, small non-negative values are raised to lo, and negative or too-large values become hi |
| Parser.ClampThreads | src/main.cpp:401-409 | the thread count lands in [-1, 128], in-range values are kept and the rest saturate at the nearer bound |
| Parser.ParseOrientation | src/main.cpp:427-520 | nothing after `-o` keeps the orientation; one face letter selects that layer up, any other single letter keeps it; two or more letters starting with a non-face letter select ALL |
| Parser.ParseOrientationByName | src/main.cpp:444-517 | two letters spelling a listed orientation's name select it, whatever follows |
| Parser.ParseOrientationNamedOrLayer | src/main.cpp:444-517 | two or more letters starting with a face select either the orientation they name or that face's layer up |
| Parser.ParseOrientationUnlisted | src/main.cpp:444-517 | two letters spelling no listed name fall back to the first letter's layer up, or to ALL when it is not a face |
| Parser.Perform | src/main.cpp:173-367 | a keyword never moves a numeric field out of its range |
| Parser.ParseOption | src/main.cpp:375-525 | an option never moves a numeric field out of its range |
| Parser.ParseArg | src/main.cpp:171-525 | reading one argument keeps every numeric field in range |
| Parser.ParseAll | src/main.cpp:169-525 | reading any sequence of arguments keeps every numeric field in range |
| Parser.ProcessParameters | src/main.cpp:167-528 | whatever the command line, every numeric field ends in range; with no arguments after the program name the record is the defaults |
| OptionLaws.NumSolvesOption | src/main.cpp:377-383 | `-n`/`-N` changes only the solve count, to a value in [1, 10000]: in-range numbers kept, 0 raised to 1, negative or too-large numbers become 10000 |
| OptionLaws.LengthOption | src/main.cpp:385-391 | `-l`/`-L` changes only the scramble length, to a value in [4, 100]: in-range kept, 0..3 raised to 4, negative or too-large become 100 |
| OptionLaws.InspectionsOption | src/main.cpp:393-399 | `-i`/`-I` changes only the inspection count, to a value in [1, 100]: in-range kept, 0 raised to 1, negative or too-large become 100 |
| OptionLaws.ThreadsOption | src/main.cpp:401-409 | `-t`/`-T` changes only the thread count, to a value in [-1, 128]: in-range kept, the rest saturate at the nearer bound |
| OptionLaws.Depth1Option | src/main.cpp:411-417 | `-d`/`-D` changes only the primary depth, to a value in [4, 10]: in-range kept, 0..3 raised to 4, negative or too-large become 10 |
| OptionLaws.Depth2Option | src/main.cpp:419-425 | `-s`/`-S` changes only the secondary depth, to a value in [4, 15]: in-range kept, 0..3 raised to 4, negative or too-large become 15 |
| ParserLaws.PerformOneField | src/main.cpp:173-367 | a keyword sets exactly its own field, to a value that does not depend on the record |
| ParserLaws.OptionOneField | src/main.cpp:375-525 | an option sets exactly the field its letter names, to a value independent of the record; an unknown letter or a single non-face letter after `-o` changes nothing |
| ParserLaws.OrientationIgnoresCurrent | src/main.cpp:444-519 | with two or more letters after `-o` the result does not depend on the orientation held before |
| ParserLaws.OneFieldPerArgument | src/main.cpp:169-525 | every argument either changes nothing or changes exactly the one field it targets, to the value it would give that field in any record |
| ParserLaws.ParseArgIdempotent | src/main.cpp:169-525 | reading the same argument twice in a row has the effect of reading it once |
| ParserLaws.ParseAllAppend | src/main.cpp:169 | reading `xs + ys` is reading `xs`, then `ys` from where `xs` left the record |
| ParserLaws.UntargetedFieldKept | src/main.cpp:169-525 | arguments none of which targets a field leave that field as it was |
| ParserLaws.LastOneWins | src/main.cpp:169-525 | after an argument targeting a field, followed only by arguments that do not target it, the field holds what that argument alone sets it to |
| ParserLaws.OrientationOption | src/main.cpp:427-520 | a non-keyword `-o` argument changes only the orientation, to what the orientation parser reads from the rest; one face letter selects that layer up, one other letter changes nothing, a listed name selects that orientation |
| ParserLaws.CommandLineLastOneWins | src/main.cpp:167-528 | on the whole command line, the last argument that targets a field decides it |
| ParserLaws.CommandLineDefaultKept | src/main.cpp:167-528 | a field that no argument after the program name targets keeps its default |
| ParserLaws.ProgramNameIgnored | src/main.cpp:169 | the first element of `argv` has no effect on the result |
| OrientationMap.CrossLayers | src/main.cpp:530-579 | the layer overload only appends: the layers already in the list stay, in order |
| OrientationMap.CrossLayersAppended | src/main.cpp:530-579 | ALL appends D, U, B, F, L, R; a pair appends the layer opposite its leading face, then the leading face; any other orientation appends only the layer opposite its leading face |
| OrientationMap.CrossLayersAdded | src/main.cpp:530-579 | the appended layers are distinct, there are 1, 2 or 6 of them, ALL appends every layer, and every other orientation appends the face opposite its leading face |
| OrientationMap.SearchSpins | src/main.cpp:581-617 | the spin overload; its contract is carried by `AllOrientationsSpins` (24 spins), `WholeLayerSpins` (4), `PairSpins` (8) and `NamedSpin` (1, read from the global orientation) |
| OrientationMap.AllOrientationsSpins | src/main.cpp:587 | ALL lists each of the 24 spins exactly once |
| OrientationMap.SpinGroupedByLeadingFace | src/main.cpp:589-600 | the named spins come in blocks of four sharing their up face, in the order U, D, F, B, R, L |
| OrientationMap.WholeLayerSpinIndices | src/main.cpp:589-600 | one layer up lists the four spins of that face's block, in the order front F, B, R, L (offsets 0, 2, 1, 3) |
| OrientationMap.WholeLayerSpins | src/main.cpp:589-600 | one layer up lists four distinct spins, and a named spin is listed if and only if its up face is that layer |
| OrientationMap.PairIsTwoWholes | src/main.cpp:602-613 | a pair of opposite layers lists the leading layer's four spins, then the opposite layer's four |
| OrientationMap.PairSpins | src/main.cpp:602-613 | a pair lists eight distinct spins, and a named spin is listed if and only if its up face is one of the pair |
| OrientationMap.NamedSpin | src/main.cpp:615 | a named spin lists one spin, computed from the global orientation; when the argument is the global, it is the argument's own spin, in 0..23 |
| OrientationMap.FirstLayer | src/main.cpp:619-643 | the first layer is D when the global orientation is ALL, and otherwise the face opposite its leading face; the argument is ignored |
| OrientationMap.FirstLayerIsFirstCrossLayer | src/main.cpp:619-643 | the first layer is the first layer the cross-layer overload appends for the global orientation |

## Left out

- `main` (src/main.cpp:85-161): file and console I/O, timing, and the dispatch to the solving methods.
- `sLBL`, `sCFOP`, `sRoux`, `sPetrus`, `sZZ` (src/main.cpp:645-908): the method pipelines that consume the parameters. They are the search engine, outside the command-line front end.
- `GetParametersSummary` and `GetExternalFilesCheck` (src/main.cpp:910-1023): report text and file checks.
- `o_strings` (src/main.cpp:34-45): display names used only in printed reports.
- Console messages printed while parsing: output only, with no effect on the record.
- `std::stoi`'s decoding of the digits, and the exceptions it throws on text that is not a number. Each argument carries the decoded 32-bit value instead.
- The `Metrics`, `Spn` and `Lyr` enumerations are declared in headers that are not part of this model. Metrics are modelled with the nine names the parser uses, layers as the six faces, and spins as indices 0..23 under the order assumption stated above.
- Parser.ParseOrientation: its contract covers the empty, single-letter and non-face cases. The two-letter names are covered by the three lemmas that follow it rather than by its own ensures, to keep the proof small.

# chemmylemmy formula pipeline, modelled in Dafny

chemmylemmy is a desktop tool that reads a chemical formula such as `Ca(OH)2`
or `co` and reports the element counts and the molar mass. This project
models its formula pipeline and proves what that pipeline promises.

**FormulaParser pipeline.** It has three stages:
- `FormulaTokenizer.Tokenize` has one letter policy for all-lower-case input and another for mixed case.
- `FormulaValidator.Validate` checks parenthesis balance and catalog membership.
- `FormulaParser.ParseAndCalculateMolarMass` is an evaluator over a stack of per-group counts.

**SmartFormulaParser pipeline.** It tries three tokenizers in order (exact case, section by section, Titlecase
fallback). Each one must pass `ValidateTokens`, and the first that succeeds
is evaluated with the same group stack.

**ElementLookup.** It looks elements up by symbol and by name, and searches names by substring.

**ColorPreset and Settings.** `ColorPreset` copies twelve colour fields from and to `Settings`.
`Settings.GetHotkeyDisplayString` renders the hotkey.

## Shape of the model

- **The element catalog.** `ChemicalElementData.Elements` is not part of this model. It is a parameter
  `Catalog`: a map from symbol to element, together with the dictionary's
  enumeration order. Atomic masses are carried but never summed.
- **One scanner specifies every tokenizer.** `Scanning.Scan` is a recursive function, parameterised by a letter
  policy. There are five policies: the three SmartFormulaParser strategies
  and the two FormulaTokenizer modes. Each source tokenizer is a `method`
  with the source's `while` loop over the index. It is proved to return
  exactly what `Scan` returns (through `Attempt` or `Tokenization`).
  Properties of the tokens (letters conserved up to case, digit runs,
  whitespace, foreign characters) are lemmas about `Scan`.
- **A stack machine specifies the evaluator.** `GroupEvaluation.Run` is a stack machine over a sequence of counts maps,
  with the innermost group last. `Eval` is its single remaining group. The
  source's loop, which pushes, pops and increments dictionaries in place, is
  `CountElements`. It is proved equal to `Eval`. Its `foreach` merge of a popped group is
  `MergeGroup`, proved equal to `Plus(parent, Scale(group, n))`. The
  algebra of formulas (concatenation adds counts; a group's multiplier
  scales its contents and distributes over its parts) is proved about `Eval`.
- **The validator.** It is the recursive `Check`, whose result is `None` exactly when the
  tokens are balanced and name catalog keys only. The `foreach` with its
  running depth is the method `Validate`.
- **ColorPreset and Settings are classes** whose methods assign fields. Their
  contracts state the whole new state, and preset round trips are methods
  that compose them.
- **No letter-conservation check in the source.** `SmartFormulaParser` has no
  letter-conservation check. Conservation of letters is proved for every
  tokenizer as `ScanConservesLetters` instead.

## Model

| member | source | states |
|---|---|---|
| FormulaTokenization.IsAllLower | chemmylemmy/FormulaTokenizer.cs:18-26 | the flag is true exactly when no letter of the formula is upper-case (non-lower) |
| FormulaTokenization.Tokenization | chemmylemmy/FormulaTokenizer.cs:13-104 | tokenizing fails exactly when the formula holds a character that is not a letter, digit, parenthesis or whitespace, with "Invalid character 'c' in formula." for the first such c; on success the element symbols spell the formula's letters in order up to case, and every token has the shape its mode allows |
| FormulaTokenization.ReadSymbol | chemmylemmy/FormulaTokenizer.cs:40-82 | the symbol read at a letter and the width consumed are exactly the letter step of the formula's mode (all-lower or mixed case) |
| FormulaTokenization.Tokenize | chemmylemmy/FormulaTokenizer.cs:13-104 | the loop returns the tokens, or the exception message, that `Tokenization` specifies |
| Scanning.AllLowerStep | chemmylemmy/FormulaTokenizer.cs:44-62 | in all-lower-case mode the step emits exactly one token: the pair (upper-cased first letter, second letter verbatim) exactly when the next character is a letter, the pair is a catalog key and one of the two upper-cased single letters is not; otherwise the upper-cased letter alone, unchecked; the step consumes exactly the letters it spells up to case |
| Scanning.MixedCaseStep | chemmylemmy/FormulaTokenizer.cs:66-80 | in mixed-case mode the step emits exactly one token: the pair (upper-cased first letter, second letter verbatim) exactly when the next character is a lower-case letter and the pair is a catalog key; otherwise the upper-cased letter alone; the step consumes exactly the letters it spells up to case |
| Scanning.ExactStep | chemmylemmy/SmartFormulaParser.cs:83-107 | when the exact-case strategy resolves a letter it consumes one or two letters and emits exactly those letters, verbatim, as one catalog key |
| Scanning.TitleStep | chemmylemmy/SmartFormulaParser.cs:363-386 | when the fallback resolves a letter it consumes one or two letters and emits exactly one token: a catalog key, an upper-case letter or a Titlecase pair, that spells them up to case |
| Scanning.SectionStep | chemmylemmy/SmartFormulaParser.cs:153-161 | the section strategy consumes exactly the maximal letter run and emits the chosen candidate, which names catalog keys and spells the run up to case; it fails exactly when the run has no candidate |
| Scanning.Scan | chemmylemmy/SmartFormulaParser.cs:58-117 | the tokenizer loops' shared specification: parentheses, maximal digit runs, letter steps of the policy, skipped whitespace; its properties are the `ScanProperties` lemmas |
| Scanning.ScanErrorAt | chemmylemmy/FormulaTokenizer.cs:27-103 | a scan fails only at a character of the input: a character that is not a letter, digit, parenthesis or whitespace, or a letter the policy cannot resolve |
| Scanning.LetterStep | chemmylemmy/FormulaTokenizer.cs:40-82 | every policy's letter step consumes a non-empty run of letters and emits tokens spelling exactly those letters up to case; the two FormulaTokenizer modes never fail on a letter |
| Scanning.DigitRunLength | chemmylemmy/SmartFormulaParser.cs:72-82 | the digit run read is maximal: all digits, followed by the end or a non-digit |
| Scanning.LetterRunLength | chemmylemmy/SmartFormulaParser.cs:182-185 | the section end is the end of the maximal letter run |
| Scanning.SectionExact | chemmylemmy/SmartFormulaParser.cs:233-242 | succeeds exactly when the section is itself a catalog key, with that one token |
| Scanning.TwoLetterFirst | chemmylemmy/SmartFormulaParser.cs:245-285 | any result names catalog keys only and spells the whole section up to case; when the first two letters form a key verbatim or as a Titlecase pair, the result starts with a two-letter symbol |
| Scanning.SingleLetterFirst | chemmylemmy/SmartFormulaParser.cs:288-328 | any result names catalog keys only and spells the whole section up to case; when the upper-cased first letter is a key, the result starts with that one-letter symbol |
| Scanning.Candidates | chemmylemmy/SmartFormulaParser.cs:190-205 | every collected strategy covers the section; the list is empty exactly when all three strategies fail |
| Scanning.Choose | chemmylemmy/SmartFormulaParser.cs:207-226 | the choice is a candidate; the first whole-section single token wins; failing that the first candidate with several tokens one of which is a single letter; failing both the first candidate |
| Scanning.FirstWhole | chemmylemmy/SmartFormulaParser.cs:212-214 | the index of the first candidate that is the section as a single token, or the count when none is |
| Scanning.FirstWithSingle | chemmylemmy/SmartFormulaParser.cs:220 | the index of the first candidate with several tokens one of which has a one-letter value, or the count when none has |
| ScanProperties.ScanConservesLetters | chemmylemmy/SmartFormulaParser.cs:83-104 | under every policy a successful scan's element symbols, case-folded, equal the input's letters case-folded: each letter is covered once and only its case changes |
| ScanProperties.ScanDigitRun | chemmylemmy/FormulaTokenizer.cs:83-93 | a maximal run of digits becomes exactly one Number token holding those digits |
| ScanProperties.ScanSkipsWhitespace | chemmylemmy/FormulaTokenizer.cs:94-97 | whitespace yields no token |
| ScanProperties.ScanFailsOnForeign | chemmylemmy/SmartFormulaParser.cs:113-116 | any character that is not a parenthesis, digit, letter or whitespace makes the scan fail, wherever it stands |
| ScanProperties.FirstForeign | chemmylemmy/FormulaTokenizer.cs:98-101 | the position of the first foreign character, or the length when there is none |
| ScanProperties.FormulaScanFailsOnlyOnForeign | chemmylemmy/FormulaTokenizer.cs:27-103 | the FormulaTokenizer modes fail exactly when a foreign character occurs, and the error names the first one |
| ScanProperties.ScanTokensWellFormed | chemmylemmy/SmartFormulaParser.cs:58-117 | every token a successful scan emits has its policy's shape: "(" and ")" for parentheses, a non-empty digit string for a Number, a policy symbol for an Element |
| ScanProperties.SmartScanTokensKnown | chemmylemmy/SmartFormulaParser.cs:99-101 | the three SmartFormulaParser strategies only ever emit catalog keys |
| Tokens.DigitsValue | chemmylemmy/FormulaParser.cs:53 | `int.Parse` of a digit run, most significant digit first, as an unbounded natural |
| ScanSteps.ReadNumber | chemmylemmy/FormulaTokenizer.cs:83-93 | the inner digit loop stops at the end of the maximal digit run and returns exactly those digits |
| ScanSteps.ScanPiece | chemmylemmy/SmartFormulaParser.cs:58-117 | one iteration of a tokenizer loop emits the scan's next piece and resumes the scan where it left off |
| FormulaValidation.Check | chemmylemmy/FormulaValidator.cs:11-40 | no error exactly when the running depth never goes negative, ends at zero and every element is a catalog key |
| FormulaValidation.ValidationError | chemmylemmy/FormulaValidator.cs:7-41 | no error exactly when the tokens are balanced and name only catalog keys |
| FormulaValidation.Validate | chemmylemmy/FormulaValidator.cs:7-41 | returns true with no error exactly when the tokens are balanced and known; otherwise false with the message `ValidationError` gives |
| FormulaValidation.FirstViolationDecides | chemmylemmy/FormulaValidator.cs:17-33 | after a clean prefix, the first `)` that would make the depth negative gives "Unmatched closing parenthesis." and the first unknown element gives "Unknown element symbol: v", whatever follows |
| FormulaValidation.OnlyOpeningRemains | chemmylemmy/FormulaValidator.cs:35-40 | when no prefix violation occurs the only possible error is "Unmatched opening parenthesis.", given exactly when the final depth is not zero |
| FormulaValidation.NumbersIgnored | chemmylemmy/FormulaValidator.cs:11-34 | inserting or removing a Number token never changes the validator's outcome |
| FormulaValidation.CheckCleanPrefix | chemmylemmy/FormulaValidator.cs:11-34 | a prefix with no violation only moves the depth: checking continues after it from the depth it leaves |
| GroupEvaluation.Plus | chemmylemmy/FormulaParser.cs:73-78 | the sum of two count maps has the keys of both and adds counts key-wise |
| GroupEvaluation.Scale | chemmylemmy/FormulaParser.cs:77 | multiplying by the group's number keeps the keys, including keys multiplied by zero, and multiplies every count |
| GroupEvaluation.Add | chemmylemmy/FormulaParser.cs:56-58 | adding a count for a symbol creates its key and adds to it, leaving other counts alone |
| GroupEvaluation.AddToTop | chemmylemmy/FormulaParser.cs:56-58 | an element's count keeps the number of open groups |
| GroupEvaluation.AddToTopCounts | chemmylemmy/FormulaParser.cs:56-58 | only the innermost group changes, and only in the element's count, which grows by the multiplier |
| GroupEvaluation.CloseGroup | chemmylemmy/FormulaParser.cs:64-79 | `)` leaves one open group fewer |
| GroupEvaluation.CloseGroupCounts | chemmylemmy/FormulaParser.cs:64-79 | closing a group leaves the outer groups untouched and adds the closed group's counts, times the multiplier, into its parent |
| GroupEvaluation.NextStack | chemmylemmy/FormulaParser.cs:46-81 | one evaluator step changes the stack depth by the token's delta: one more for `(`, one fewer for `)`, unchanged otherwise |
| GroupEvaluation.Eval | chemmylemmy/FormulaParser.cs:40-85 | the counts of a balanced token list: the one group left after running the stack from a single empty group; its properties are the `Eval` lemmas below |
| GroupEvaluation.IncrementIsAdd | chemmylemmy/FormulaParser.cs:56-58 | the source's create-with-zero-then-add update is `Add` |
| GroupEvaluation.MergeGroup | chemmylemmy/FormulaParser.cs:73-78 | the `foreach` over a popped group leaves the parent plus the group scaled by the multiplier |
| GroupEvaluation.ReadMultiplier | chemmylemmy/FormulaParser.cs:50-55 | the look-ahead reads the following Number as the count (1 when absent) and consumes exactly that token |
| GroupEvaluation.AddToInnermost | chemmylemmy/FormulaParser.cs:56-58 | the element's count goes into the innermost group and nowhere else |
| GroupEvaluation.PopGroup | chemmylemmy/FormulaParser.cs:64-79 | `)` pops the innermost group and adds it, times the multiplier, into the new innermost group |
| GroupEvaluation.StepAt | chemmylemmy/FormulaParser.cs:46-81 | one loop iteration performs the evaluator's step for the token at the index and advances past any Number it consumed |
| GroupEvaluation.CountElements | chemmylemmy/FormulaParser.cs:40-85 | for balanced tokens the loop never pops the last group, and the one group left at the end holds exactly `Eval` of the tokens |
| GroupEvaluation.Run | chemmylemmy/FormulaParser.cs:44-82 | evaluation from a stack whose depth the tokens never undercut ends with the stack deeper by the tokens' net depth |
| GroupEvaluation.EvalElement | chemmylemmy/FormulaParser.cs:47-59 | an element with an optional Number counts that many atoms of it, 1 when absent |
| GroupEvaluation.EvalStrayNumber | chemmylemmy/FormulaParser.cs:80-81 | a Number that follows neither an element nor `)` contributes nothing |
| GroupEvaluation.EvalGroup | chemmylemmy/FormulaParser.cs:60-79 | a parenthesised group with an optional Number counts its contents times that number, 1 when absent |
| GroupEvaluation.EvalConcat | chemmylemmy/FormulaParser.cs:44-82 | writing two balanced formulas one after the other adds their counts |
| GroupEvaluation.EvalGroupParts | chemmylemmy/FormulaParser.cs:60-79 | a group's multiplier distributes over the parts of the group |
| GroupEvaluation.EvalPairGroup | chemmylemmy/FormulaParser.cs:60-79 | `(AB)n` and `AnBn` give equal counts |
| GroupEvaluation.EvalKeys | chemmylemmy/FormulaParser.cs:85-99 | the final group has a key for every element symbol written, and no other |
| GroupEvaluation.RunAppend | chemmylemmy/FormulaParser.cs:44-82 | evaluation is sequential: a suffix not starting with a Number continues from the stack the prefix leaves |
| GroupEvaluation.RunLift | chemmylemmy/FormulaParser.cs:60-79 | groups below those a token list touches are left alone |
| GroupEvaluation.RunBottom | chemmylemmy/FormulaParser.cs:44-82 | evaluation is additive: counts added to the outermost group before evaluating are the same counts added to it afterwards |
| FormulaParsing.Parse | chemmylemmy/FormulaParser.cs:18-103 | succeeds exactly when the formula has no foreign character and its tokens are balanced and known; a tokenizer failure gives its message, a validator failure gives the validator's message; on success the counts are `Eval` of the formula's tokens and name exactly its symbols, each of which FindBySymbol finds, so the "Unknown element" branch cannot be taken |
| FormulaParsing.ParseAndCalculateMolarMass | chemmylemmy/FormulaParser.cs:18-103 | the method's try, validate and evaluate steps return what `Parse` specifies |
| SmartFormulaParsing.Attempt | chemmylemmy/SmartFormulaParser.cs:53-120 | a strategy succeeds exactly when its scan succeeds and the tokens validate; accepted tokens are balanced, known and spell the input's letters up to case; a foreign character rules every strategy out; the accepted tokens are the strategy's scan |
| SmartFormulaParsing.SmartParse | chemmylemmy/SmartFormulaParser.cs:19-50 | the strategies are tried in the order exact, section-based, fallback; the first that succeeds decides the label, and the counts are `Eval` of that strategy's tokens; when all fail the result is "Could not parse formula using any method" |
| SmartFormulaParsing.Counted | chemmylemmy/SmartFormulaParser.cs:426-476 | the counts of validated tokens name exactly their symbols, all catalog keys |
| SmartFormulaParsing.ValidateTokens | chemmylemmy/SmartFormulaParser.cs:402-423 | true exactly when the depth never goes negative, ends at zero and every element is a catalog key |
| SmartFormulaParsing.CalculateMolarMass | chemmylemmy/SmartFormulaParser.cs:426-476 | the stack loop yields the `Eval` counts, whose keys are catalog keys, so the mass lookup cannot miss |
| SmartFormulaParsing.ReadExactSymbol | chemmylemmy/SmartFormulaParser.cs:83-107 | the letter branch of the exact-case loop finds a symbol exactly when the exact-case step does, with the same symbol and width |
| SmartFormulaParsing.ReadTitleSymbol | chemmylemmy/SmartFormulaParser.cs:363-386 | the letter branch of the fallback loop finds a symbol exactly when the Titlecase step does, with the same symbol and width |
| SmartFormulaParsing.TryParseSectionExact | chemmylemmy/SmartFormulaParser.cs:233-242 | succeeds exactly when `SectionExact` does, with its tokens |
| SmartFormulaParsing.TryParseSectionTwoLetterFirst | chemmylemmy/SmartFormulaParser.cs:245-285 | the loop succeeds exactly when `TwoLetterFirst` does, with its tokens |
| SmartFormulaParsing.TryParseSectionSingleLetterFirst | chemmylemmy/SmartFormulaParser.cs:288-328 | the loop succeeds exactly when `SingleLetterFirst` does, with its tokens |
| SmartFormulaParsing.SectionEnd | chemmylemmy/SmartFormulaParser.cs:179-187 | the end loop stops at the end of the maximal letter run |
| SmartFormulaParsing.CollectStrategies | chemmylemmy/SmartFormulaParser.cs:190-202 | the list of successful strategies is `Candidates` of the section |
| SmartFormulaParsing.ParseSection | chemmylemmy/SmartFormulaParser.cs:176-230 | returns null (index unchanged) exactly when all three strategies fail; otherwise the chosen tokens, with the index moved to the end of the maximal letter run |
| SmartFormulaParsing.TryExactMatch | chemmylemmy/SmartFormulaParser.cs:53-120 | the loop succeeds exactly when the exact-case strategy is accepted, with its tokens |
| SmartFormulaParsing.TrySectionBasedParsing | chemmylemmy/SmartFormulaParser.cs:123-173 | the loop succeeds exactly when the section strategy is accepted, with its tokens |
| SmartFormulaParsing.TryAllCombinations | chemmylemmy/SmartFormulaParser.cs:333-399 | the loop succeeds exactly when the fallback strategy is accepted, with its tokens |
| SmartFormulaParsing.ParseFormula | chemmylemmy/SmartFormulaParser.cs:19-50 | the method returns what `SmartParse` specifies |
| ElementLookup.FindBySymbol | chemmylemmy/ElementLookup.cs:9-16 | null for null; the exact entry when the symbol is a catalog key; otherwise the first element in catalog order whose symbol equals the query ignoring case, null exactly when none does |
| ElementLookup.FindByName | chemmylemmy/ElementLookup.cs:18-22 | null for null; otherwise the first element in catalog order whose name equals the query ignoring case, null exactly when none does |
| ElementLookup.SearchByName | chemmylemmy/ElementLookup.cs:24-28 | empty for null or empty input; otherwise exactly the elements whose name contains the query ignoring case |
| ElementLookup.SearchByNameInOrder | chemmylemmy/ElementLookup.cs:27 | the search is an order-preserving filter: the matches of any prefix of the catalog come before those of the rest |
| ElementLookup.FirstOrNone | chemmylemmy/ElementLookup.cs:15 | `FirstOrDefault`: none exactly when nothing matches, otherwise the first match |
| ElementLookup.Filter | chemmylemmy/ElementLookup.cs:27 | `Where`: keeps exactly the matching elements |
| ElementLookup.FilterAppend | chemmylemmy/ElementLookup.cs:27 | filtering a concatenation filters each part in order |
| ColorPresets.ColorPreset.constructor | chemmylemmy/ColorPreset.cs:5-17 | a new preset has the empty name, is empty, and has the default palette |
| ColorPresets.ColorPreset.IsEmpty | chemmylemmy/ColorPreset.cs:19 | `string.IsNullOrEmpty(Name)`: the name is null or empty |
| ColorPresets.ColorPreset.CopyFrom | chemmylemmy/ColorPreset.cs:21-35 | the twelve colours become the settings' colours; the name is unchanged |
| ColorPresets.ColorPreset.ApplyTo | chemmylemmy/ColorPreset.cs:37-51 | the settings' twelve colours become the preset's; no other setting changes |
| ColorPresets.Transfer | chemmylemmy/ColorPreset.cs:21-51 | copying from one settings object and applying to another leaves the preset holding the first's colours under its old name, and gives the second those colours while keeping its other settings |
| ColorPresets.RoundTrip | chemmylemmy/ColorPreset.cs:21-51 | copying from a settings object and applying back leaves the settings unchanged, and the preset holds their colours under its old name |
| ColorPresets.FreshPresetMatchesDefaults | chemmylemmy/ColorPreset.cs:5-19 | a fresh preset is empty and carries the same colours as fresh settings |
| AppSettings.Settings.constructor | chemmylemmy/Settings.cs:17-38 | three decimals, key Z with Control and Shift, both flags on, scale 1.0, and the default palette |
| AppSettings.SetModifiers | chemmylemmy/Settings.cs:171-180 | a modifier is listed exactly when its flag bit is set, in the order Ctrl, Shift, Alt, Win |
| AppSettings.ModifierNames | chemmylemmy/Settings.cs:171-180 | the names of the set modifiers, in that order |
| AppSettings.ModifierNamesInOrder | chemmylemmy/Settings.cs:171-180 | a modifier's label is displayed exactly when its flag is set, and labels appear in the order Ctrl, Shift, Alt, Win |
| AppSettings.KeyName | chemmylemmy/Settings.cs:183-201 | a key without a fixed name displays as its enum name; a fixed name is non-empty and holds no "+" |
| AppSettings.Join | chemmylemmy/Settings.cs:205 | `string.Join("+", parts)`; `SplitJoin` proves it undone by splitting when no part holds "+" |
| AppSettings.HotkeyDisplay | chemmylemmy/Settings.cs:169-206 | the modifier names followed by the key name, joined with "+"; `DisplayComponents` proves the parts recoverable |
| AppSettings.Settings.GetHotkeyDisplayString | chemmylemmy/Settings.cs:169-206 | the string built by the method is the modifier names followed by the key name, joined with "+" |
| AppSettings.SplitJoin | chemmylemmy/Settings.cs:205 | joining with "+" is undone by splitting at "+" when no component contains "+" |
| AppSettings.DisplayComponents | chemmylemmy/Settings.cs:171-205 | the display splits back into the modifier names followed by the key name, so the key name is always the last component |
| AppSettings.DefaultHotkeyDisplay | chemmylemmy/Settings.cs:17-19 | new settings display "Ctrl+Shift+Z" and have three decimal places |
| WorkedExamples.Water | chemmylemmy/FormulaParser.cs:47-59 | the tokens of H2O count two hydrogen and one oxygen |
| WorkedExamples.Hydroxide2 | chemmylemmy/FormulaParser.cs:60-79 | the tokens of (OH)2 count two oxygen and two hydrogen, as O2H2 does |
| WorkedExamples.CalciumHydroxide | chemmylemmy/FormulaParser.cs:44-82 | the tokens of Ca(OH)2 count one calcium, two oxygen and two hydrogen |
| WorkedExamples.CoAsPair | chemmylemmy/SmartFormulaParser.cs:245-285 | with the catalog {C, O, Co}, the two-letter-first strategy reads "co" as Co |
| WorkedExamples.CoAsLetters | chemmylemmy/SmartFormulaParser.cs:288-328 | with the same catalog, the single-letter-first strategy reads "co" as C, O |
| WorkedExamples.CoChoice | chemmylemmy/SmartFormulaParser.cs:207-226 | of those two candidates, neither being "co" verbatim, the one with a single-letter symbol is chosen |
| WorkedExamples.CarbonMonoxideSection | chemmylemmy/SmartFormulaParser.cs:176-230 | so the section strategy reads "co" as carbon and oxygen, consuming both letters |
| WorkedExamples.UnmatchedParentheses | chemmylemmy/FormulaValidator.cs:17-38 | ")" alone is an unmatched closing parenthesis and "(" alone an unmatched opening one |

## Left out

- Molar mass and the breakdown strings: `double` arithmetic and formatting. The model computes the counts exactly as natural numbers. Atomic masses are carried in the catalog but never summed.
- `ChemicalElementData` is not part of this model. The catalog is a parameter.
- Character classes, case mapping and `OrdinalIgnoreCase` are ASCII only. Unicode letters, digits and case folding are not modelled.
- `char.ToUpper` and `char.ToLower` follow the current culture in the source. The model assumes an invariant culture, so culture-specific mappings are not modelled (under Turkish, for example, `i` upper-cases to `İ`).
- GroupEvaluation.Add, GroupEvaluation.Scale, GroupEvaluation.Plus: counts are unbounded naturals. The source accumulates in 32-bit `int`, where `+=` and `*` wrap silently (FormulaParser.cs:58 and :77, SmartFormulaParser.cs:450 and :471). For the tokens of `(H1000000000)3` the source counts -1294967296 hydrogen atoms; the model counts 3000000000.
- `int.Parse` overflow on long digit runs: Number values are unbounded naturals, so a count that would throw in the source is a large count here.
- `Key.ToString()` for keys without a fixed name: such a key is `Named(name)` and displays as that name.
- AppSettings.KeyName: `Named(name)` is not restricted to keys without a fixed label, so `Named("Back")` displays as "Back" where the source would show `Key.Back` as "Backspace". The model trusts the caller to use the fixed constructors for the fifteen labelled keys.
- `Settings.Load` and `Settings.Save` (file system and JSON), `Preset1`-`Preset3` and the static theme tables (plain data) are left out.
- `WindowScale` is kept as a `real` field that nothing reads.
- The PubChem client, the WPF windows, the clipboard and the global hotkey are left out.
- A `null` preset `Name` is `None`, and a `null` lookup argument is `None`.
- The two parsers share one group-stack loop, `CountElements`. The source repeats the same loop in `FormulaParser` and `SmartFormulaParser.CalculateMolarMass`.
- Some branches of the source's loops are separate methods, each proved against the step function they perform:
  - in the tokenizers: `ReadSymbol`, `ReadNumber`, `ReadExactSymbol`, `ReadTitleSymbol`;
  - in `ParseSection`: `SectionEnd`, `CollectStrategies`;
  - in the evaluator: `ReadMultiplier`, `AddToInnermost`, `PopGroup`, `StepAt`.
- The group stack is a sequence of immutable maps reassigned at each step. Aliasing of the source's dictionaries is not modelled. None of them is shared.
- The worked examples of the evaluator are stated on token lists, not on formula strings.

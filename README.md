# Legal clause analyzer — a Dafny model of its analysis engine

The repository analyses one contract clause at a time and returns a
structured report: ambiguous wording, risky clauses, recommendations, a
contract type, an overall severity and plain-English explanations. The
engine exists in two families, each in two near-identical copies:

* **Catalog-driven analyzer** `analyze_legal_clause_enhanced`, in
  `api/analyze.py` (returns a JSON string) and `api/index.py` (returns a
  dict). It lower-cases the clause and scans a table of five ambiguous
  terms by substring containment and a list of six high-risk regular
  expressions. Each hit becomes one finding whose level is
  `['LOW','MEDIUM','HIGH','CRITICAL'][min(weight, 3)]`, and its weight goes
  into the `risk_scores` dictionary. The analyzer classifies the contract
  type first-match-wins and turns the weights into a severity with a
  max/average ladder. It then assembles the summary, the key findings and
  the recommendations split by level. The two copies are modelled once,
  with an `Edition` parameter (`Api` for `api/analyze.py`, `Vercel` for
  `api/index.py`). The parameter selects the explanation texts, the
  version string and the service keyword list; only `api/analyze.py` has
  `'statement of work'`.
* **Rule-based analyzer** `analyze_legal_clause`, in `app.py` and
  `simple_gradio_app.py`. It runs a fixed sequence of guarded blocks, each
  appending messages to some of five lists. Then come the missing-clause
  checks, default items for lists left empty, and the references policy.
  Last, each list is truncated. `simple_gradio_app.py` runs the first 15
  of the 17 blocks and the first 3 of the 5 checks. It always appends the
  two general references, and its report has no `analysisType` or
  `version`. The copies are modelled once, with a `Variant` parameter.

Files:

* `text.dfy` (module `Text`) holds the string primitives. Python's `in` is
  a left-to-right scan proved equal to "occurs at some index". The module
  also has `any(...)`, ASCII `lower` and `strip`, and the catalog's
  regular expressions. Each of those is an alternation of `a.*b` chains,
  where `.` never crosses a line break. Last comes the decimal rendering
  of a count.
* `comprehension.dfy` (`Comprehension`) holds Python's filtered list
  comprehension `[f(x) for x in xs if p(x)]` and what holds of it for any
  items: it distributes over concatenation, it keeps exactly the images of
  the items that pass, and two complementary filters split the mapped list.
* `enhanced_catalog.dfy` (`EnhancedCatalog`) holds the term table, the
  pattern list, their weights and names, and the explanation texts of
  both editions.
* `enhanced_analyzer.dfy` (`EnhancedAnalyzer`) holds the reference
  functions (`AmbiguityFindings`, `RiskFindings`, `ScoreTable`, `Classify`,
  `Severity`, `Immediate`, `General`). It also holds the methods that
  follow the source's loops: `ScanAmbiguities`, `ScanRisks`, `KeyFindings`
  and `AnalyzeClause`. Each method is proved to compute those functions.
* `enhanced_properties.dfy` (`EnhancedProperties`) proves what the
  catalog-driven analyzer promises.
* `rule_catalog.dfy` (`RuleCatalog`) holds the 17 blocks' conditions,
  which lists each block writes, the 5 missing-clause checks and every
  message text.
* `rule_analyzer.dfy` (`RuleAnalyzer`) holds the reference definition
  `ReportFor`. It also holds the methods `RunRule`, `RunRules`,
  `CheckGap`, `GapChecks` and `AnalyzeClause`, proved to compute it.
* `rule_properties.dfy` (`RuleProperties`) proves what the rule-based
  analyzer promises.

Findings and list items are kept as references to table rows (`Finding`,
`Message`). `Finding.Issue()`, `Finding.Recommendation()` and
`RuleCatalog.MessageText` render them to the source's exact strings.

A finding's level is `['LOW','MEDIUM','HIGH','CRITICAL'][min(weight, 3)]`.
So weight 1 reads MEDIUM, weight 2 reads HIGH, and weights 3 and 4 read
CRITICAL; no finding is ever LOW (`NoFindingIsLow`). "Best efforts" (weight 3) is a CRITICAL
finding. "Reasonable" (weight 2) is a HIGH finding whose recommendation
goes to `immediate` even when the overall severity is MEDIUM.
`BestEffortsUrgent` and `ReasonableAndTimelyMedium` state this.

Notes on the code:

* The count line of `keyFindings` uses the same wording for every count,
  one included ("Found 1 legal concerns ...").
* The contract types are Employment, Service, Non-Disclosure and General.
* The catalog-driven analyzer does no missing-clause detection:
  `missingProtections` is always empty, and `legalReferences` is always
  the same two entries.
* In the rule-based analyzer, notes added by content blocks come before
  the check notes and the list is cut to four, so a check note can be
  pushed out even when its clause is missing.

## Model

| member | source | states |
|---|---|---|
| Text.ContainsIff | api/analyze.py:60 | the scan behind `term in clause_lower` is true exactly when the term occurs at some index of the text |
| Text.Contains | api/analyze.py:60 | Python's `term in clause_lower`: a left-to-right scan, characterised by `Text.ContainsIff` (true exactly when the term occurs at some index) |
| Text.MatchesLiteral | api/analyze.py:74 | a regex alternative made of one literal matches exactly when the literal is a substring |
| Text.ChainAt | api/analyze.py:124 | one `a.*b.*c` alternative of a catalog expression matched from a given index, each gap free of line breaks; `Text.MatchesLiteral` characterises the one-literal case |
| Text.Search | api/analyze.py:124 | `re.search(pattern, clause_lower)` for the catalog's expressions: some alternative matches from some index; `Text.MatchesLiteral` and `EnhancedProperties.UnlimitedLiabilityMatches` characterise it |
| Text.Lower | api/analyze.py:18 | `lower()` keeps the length, lower-cases every ASCII capital and leaves every other character alone |
| Text.TrimStart | api/analyze.py:12 | stripping on the left removes only whitespace, and what is left is empty or starts with a non-space |
| Text.TrimEnd | api/index.py:8 | stripping on the right removes only whitespace, and what is left is empty or ends with a non-space |
| Text.BlankIff | app.py:10 | the guard `not s or not s.strip()` holds exactly when every character is whitespace |
| Text.NatToString | app.py:139 | the count in the message is rendered as decimal digits without a leading zero, and those digits read back as the count |
| EnhancedCatalog.LevelOf | api/analyze.py:61 | a weight's level is the table entry at `min(weight, 3)`: its rank is the weight capped at 3 |
| EnhancedAnalyzer.MatchedTerms | api/analyze.py:59-60 | every matched term comes from the scanned table and occurs in the text; there are no more matches than rows |
| EnhancedAnalyzer.MatchedPatterns | api/analyze.py:123-124 | every matched pattern comes from the scanned list and `re.search` finds it; there are no more matches than patterns |
| EnhancedAnalyzer.Put | api/analyze.py:69 | `risk_scores[key] = w` appends a new key at the end; when the key is already present the key list is unchanged, that key now holds `w` and every other entry keeps its weight |
| EnhancedAnalyzer.Max | api/analyze.py:146 | `max(risk_scores.values())` is one of the values and bounds all of them |
| EnhancedAnalyzer.Sum | api/analyze.py:147 | `sum(risk_scores.values())`; `EnhancedProperties.SumMonotone` states it never drops when weights rise |
| EnhancedAnalyzer.Severity | api/analyze.py:144-158 | the max/average ladder, LOW when there are no scores; `EnhancedProperties.SeverityMonotone`, `SeverityAtLeastWeight`, `AverageThresholds` and `NothingMatchesLow` characterise it |
| EnhancedAnalyzer.Classify | api/analyze.py:135-142 | first-match-wins contract type; `EnhancedProperties.EmploymentWins`, `GeneralIffNoKeyword`, `EditionsClassifyAlike` and `StatementOfWorkOnly` characterise it |
| EnhancedAnalyzer.FoundLine | api/analyze.py:167 | the count line; `EnhancedAnalyzer.FoundLineDiffers` proves it never reads as the no-issues sentence, and `Text.NatToString` renders the count |
| EnhancedAnalyzer.WarningLine | api/analyze.py:169-170 | the warning line, present exactly when the severity is HIGH or CRITICAL, as `EnhancedAnalyzer.KeyFindings` states |
| EnhancedAnalyzer.DetectedLine | api/analyze.py:172-173 | the detection line, closing the list exactly when a type was recognised, as `EnhancedAnalyzer.KeyFindings` states |
| EnhancedAnalyzer.KeyFindings | api/analyze.py:163-173 | one to three lines; the first is the no-issues sentence exactly when there are no issues and the count line otherwise; a warning line is present exactly when the severity is HIGH or CRITICAL; a detection line closes the list exactly when a contract type was recognised |
| EnhancedAnalyzer.ScanAmbiguities | api/analyze.py:59-69 | the loop produces one finding per occurring term, in table order, and one `risk_scores` entry (term, weight) per finding |
| EnhancedAnalyzer.ScanRisks | api/index.py:115-125 | the loop produces one finding per matching pattern, in list order, and extends `risk_scores` with one (name, weight) entry per finding |
| EnhancedAnalyzer.AnalyzeClause | api/analyze.py:7-205 | blank input gives only the error; otherwise the report has the term and pattern findings, no missing protections, the classified type, the severity of the `risk_scores` values, the total, the key findings, the level split of recommendations, one plain-English line per finding, and the fixed references, version, date and disclaimer |
| EnhancedAnalyzer.KeysInjective | api/analyze.py:69 | different terms are different keys, different pattern names are different keys, and no term equals a pattern name |
| EnhancedAnalyzer.TablesDistinct | api/analyze.py:26-121 | each term and each pattern is listed once |
| EnhancedAnalyzer.FreshTermKey | api/index.py:61 | the term about to be written is not yet a key of `risk_scores` |
| EnhancedAnalyzer.FreshPatternKey | api/index.py:125 | the pattern name about to be written is neither a term key nor an earlier name |
| EnhancedProperties.MatchedTermsIff | api/index.py:51-52 | a term is matched exactly when it is in the scanned table and occurs in the text |
| EnhancedProperties.MatchedPatternsIff | api/index.py:115-116 | a pattern is matched exactly when it is in the scanned list and its expression matches |
| EnhancedProperties.MatchedTermsOrdered | api/analyze.py:59 | matched terms come from the scanned rows, in strictly increasing table position |
| EnhancedProperties.MatchedPatternsOrdered | api/analyze.py:123 | matched patterns come from the scanned rows, in strictly increasing list position |
| EnhancedProperties.AmbiguityFindingIff | api/analyze.py:59-68 | a term's finding is reported exactly when the term is a substring of the lower-cased clause |
| EnhancedProperties.AmbiguitiesInTableOrder | api/index.py:51-60 | the ambiguities are term findings of this edition in strictly increasing table order, so a term yields at most one finding however often it occurs |
| EnhancedProperties.RiskFindingIff | api/index.py:115-124 | a pattern's finding is reported exactly when its regular expression matches the lower-cased clause |
| EnhancedProperties.RisksInTableOrder | api/analyze.py:123-132 | the risks are pattern findings in strictly increasing list order, so each pattern fires at most once |
| EnhancedProperties.ScoreTableFollowsFindings | api/index.py:152 | `risk_scores` has one entry per finding, entry `i` holds finding `i`'s key and weight, and the keys are pairwise distinct, so its size is `totalIssues` |
| EnhancedProperties.AverageThresholds | api/analyze.py:147-153 | the float average compared with 3, 2.5 and 1.5 agrees with integer cross-multiplication |
| EnhancedProperties.MaxMonotone | api/analyze.py:146 | raising weights never lowers their maximum |
| EnhancedProperties.SumMonotone | api/analyze.py:147 | raising weights never lowers their sum |
| EnhancedProperties.SeverityMonotone | api/analyze.py:145-158 | raising any weights never lowers the overall severity |
| EnhancedProperties.SeverityAtLeastWeight | api/index.py:141-146 | any weight of 4 or more makes the severity CRITICAL; any weight of 3 makes it at least HIGH; any weight of 2 makes it at least MEDIUM |
| EnhancedProperties.TermWeighs | api/analyze.py:60-69 | an occurring term's finding sits at some position of the ambiguities, and its weight sits at the same position of the severity's inputs |
| EnhancedProperties.PatternWeighs | api/analyze.py:124-133 | a matching pattern's weight is among the severity's inputs |
| EnhancedProperties.UnlimitedLiabilityMatches | api/analyze.py:74 | "unlimited liability" or "any and all damages" in the text makes the unlimited-liability expression match |
| EnhancedProperties.UnlimitedLiabilityCritical | api/analyze.py:123-150 | either phrase yields the unlimited-liability risk finding at level CRITICAL, and the overall severity is CRITICAL |
| EnhancedProperties.BestEffortsUrgent | api/index.py:31-33 | "best efforts" yields its ambiguity finding, whose level (weight 3) is CRITICAL, and the overall severity is at least HIGH |
| EnhancedProperties.ReasonableAndTimelyMedium | api/index.py:137-150 | when "reasonable" and "timely" are the only hits, the findings are exactly those two, each at level HIGH; there are no risks and the severity is MEDIUM |
| EnhancedProperties.TwoMediumWeights | api/index.py:141-146 | the weights {2, 2} climb the ladder to MEDIUM |
| EnhancedProperties.ReasonableAndTimelyMatched | api/index.py:51-52 | with only those two terms present, the scan matches exactly `reasonable` then `timely` |
| EnhancedProperties.ReasonableFirst | api/index.py:51-52 | with "reasonable" present and neither "material" nor "best efforts", the first three rows match exactly `reasonable` |
| EnhancedProperties.NoTermHits | api/analyze.py:59-60 | when no term occurs, no row of the table matches |
| EnhancedProperties.NoPatternHits | api/analyze.py:123-124 | when no pattern matches, no row of the list matches |
| EnhancedProperties.NothingMatchesLow | api/index.py:149-150 | a clause nothing matches has no findings and severity LOW |
| EnhancedProperties.NoFindingIsLow | api/analyze.py:61 | every weight in the tables is at least 1, so no finding is LOW, and exactly the weight-1 findings are MEDIUM |
| EnhancedProperties.EditionsClassifyAlike | api/index.py:128-134 | the two copies classify alike unless the text says "statement of work" |
| EnhancedProperties.StatementOfWorkOnly | api/analyze.py:139 | text whose only classifier keyword is "statement of work" is a Service Agreement in `api/analyze.py` and a General Contract in `api/index.py` |
| EnhancedProperties.EmploymentWins | api/analyze.py:136-138 | any employment keyword gives Employment Agreement, whatever else occurs |
| EnhancedProperties.GeneralIffNoKeyword | api/analyze.py:136-142 | the type stays General Contract exactly when no keyword of any group occurs |
| EnhancedProperties.RecommendationsPartition | api/analyze.py:189-190 | `immediate` and `general` together have one entry per finding, and as multisets they split the findings' recommendations |
| EnhancedAnalyzer.Immediate | api/analyze.py:189 | recommendations of HIGH and CRITICAL findings in finding order; `EnhancedProperties.ImmediateIff`, `ImmediateConcat` and `RecommendationsPartition` characterise it |
| EnhancedAnalyzer.General | api/analyze.py:190 | recommendations of LOW and MEDIUM findings in finding order; `EnhancedProperties.GeneralConcat` and `RecommendationsPartition` characterise it |
| EnhancedAnalyzer.PlainEnglish | api/analyze.py:193 | one plain-English line per finding, in finding order; `EnhancedAnalyzer.AnalyzeClause` puts it in `whatThisMeans` |
| EnhancedProperties.ImmediateConcat | api/index.py:180 | filtering ambiguities followed by risks equals filtering each in turn: order kept, ambiguities first |
| EnhancedProperties.GeneralConcat | api/index.py:181 | the same for `general` |
| EnhancedProperties.ImmediateIff | api/index.py:180 | a recommendation is in `immediate` exactly when some HIGH or CRITICAL finding carries it |
| RuleCatalog.RuleCount | simple_gradio_app.py:26-90 | `app.py` runs every block of the table; `simple_gradio_app.py` runs fewer |
| RuleCatalog.GapCount | simple_gradio_app.py:93-100 | `app.py` runs every missing-clause check; `simple_gradio_app.py` runs fewer |
| RuleAnalyzer.Collected | app.py:26-100 | the first `n` blocks add at most one item each to a list |
| RuleCatalog.Guard | app.py:26-100 | each block's condition on the lower-cased clause; `RuleProperties.CollectedIff`, `MaterialNeedsContext`, `IrrevocableNeedsBoth` and `DisputeNotesExclusive` use it |
| RuleCatalog.Writes | app.py:26-100 | which lists each block appends to; `RuleProperties.CollectedIff` and `CollectedValid` characterise the lists through it |
| RuleAnalyzer.GapsMissing | app.py:103-116 | the first `n` checks add at most one note each |
| RuleAnalyzer.OrDefault | app.py:119-126 | a list with a default is never empty and is unchanged when something was detected |
| RuleAnalyzer.Take | app.py:133-137 | `xs[:n]` is the prefix of length `min(len(xs), n)` |
| RuleAnalyzer.RunRule | app.py:26-100 | one guarded block, run on the lists the earlier blocks left, leaves each list as the messages of the fired blocks so far, in block order |
| RuleAnalyzer.MissingList | app.py:103-116 | content notes followed by the check notes; `RuleProperties.GapNoteIff` and `MissingContentFirst` characterise it |
| RuleAnalyzer.ReferenceList | app.py:129-130 | `app.py` uses the general references only when nothing was cited, `simple_gradio_app.py` always appends them; `RuleProperties.AppReferences` and `SimpleReferences` characterise it |
| RuleAnalyzer.Assemble | app.py:132-142 | each list truncated to 5, 5, 5, 4 and 3 items, and the count line built from the untruncated ambiguities and risks |
| RuleAnalyzer.ReportFor | app.py:119-142 | the report for a non-blank clause; `RuleProperties.ReportBounds`, `KeyFindingCount`, `DefaultIff` and `ReportItemsValid` characterise it |
| RuleAnalyzer.RunRules | simple_gradio_app.py:26-90 | after the copy's blocks, each of the five lists holds exactly the messages of the fired blocks that write it, in block order |
| RuleAnalyzer.CheckGap | app.py:103-104 | one check, run on the notes the earlier checks left, appends its note exactly when none of its keywords occurs, so the notes stay those of the failed checks so far, in check order |
| RuleAnalyzer.GapChecks | simple_gradio_app.py:93-100 | the checks append, after the content notes, exactly the notes of the checks whose keywords are all absent, in check order |
| RuleAnalyzer.AnalyzeClause | app.py:6-143 | blank input gives only the error; otherwise the report is the truncated lists after defaults and the references policy, with the count taken before truncation |
| RuleProperties.CollectedInOrder | app.py:26-100 | every item of a list is the message of an earlier block that writes that list and whose condition held, and items are in block order |
| RuleProperties.CollectedIff | app.py:26-100 | a block's message is in a list exactly when the block runs in this copy, writes that list, and its condition holds |
| RuleProperties.CollectedPrefix | simple_gradio_app.py:26-90 | running fewer blocks gives a prefix of every list |
| RuleProperties.CollectedEmptyIff | app.py:119-126 | a list is left empty by the blocks exactly when no block writing to it fired |
| RuleProperties.GapsInOrder | app.py:103-116 | every missing-clause note is the note of a check whose keywords are all absent, in check order |
| RuleProperties.GapsIff | app.py:103-116 | a check's note is added exactly when the check runs and none of its keywords occurs |
| RuleProperties.CollectedValid | app.py:26-100 | every item a block adds to a list is a message of that list |
| RuleProperties.ReportItemsValid | app.py:132-137 | every item of every list of the report is a message of that list, so it has a text |
| RuleProperties.ReportBounds | app.py:119-137 | ambiguities, risks and recommendations have 1 to 5 items, missing elements at most 4, references 1 to 3 |
| RuleProperties.KeyFindingCount | app.py:139 | the count is the untruncated ambiguities plus risks after defaults: at least 2, and at least what the report shows |
| RuleProperties.DefaultIff | app.py:119-126 | a defaulted list is exactly its default item when, and only when, no block writing to it fired |
| RuleProperties.DefaultAmbiguity | simple_gradio_app.py:103-104 | a clause matching no ambiguity block gets exactly the default ambiguity, and only such a clause does |
| RuleProperties.DefaultRisk | simple_gradio_app.py:106-107 | a clause matching no risk block gets exactly the default risk, and only such a clause does |
| RuleProperties.DefaultRecommendation | app.py:125-126 | a clause matching no recommending block gets exactly the default recommendation, and only such a clause does |
| RuleProperties.AppReferences | app.py:129-130 | with no cited reference the references are exactly the two general ones, and that happens exactly when no citing block fired; otherwise they are the first three cited ones and no general reference |
| RuleProperties.SimpleReferences | simple_gradio_app.py:113-120 | the references are the first three of the cited ones followed by the general ones, never empty, and include the Restatement whenever fewer than three were cited |
| RuleProperties.MissingContentFirst | app.py:136 | in `missingElements` every content note comes before every check note, so four content notes push out all check notes |
| RuleProperties.GapNoteIff | app.py:103-116 | the untruncated missing list holds a check's note exactly when the check runs in this copy and none of its keywords occurs |
| RuleProperties.SimpleThreeChecks | simple_gradio_app.py:93-100 | the simple copy never reports a missing integration or severability clause |
| RuleProperties.DisputeNotesExclusive | simple_gradio_app.py:67-97 | "dispute" or "arbitration" adds the choice-of-law note; the dispute-resolution note appears exactly when none of "dispute", "arbitration" and "litigation" occurs; the two never appear together |
| RuleProperties.MaterialNeedsContext | app.py:35-37 | the "material" ambiguity appears exactly when "material" occurs together with "breach" or "change" |
| RuleProperties.IrrevocableNeedsBoth | app.py:76-78 | the irrevocable-assignment risk appears exactly when both "irrevocably" and "assign" occur |
| RuleProperties.SimpleIsPrefix | simple_gradio_app.py:26-90 | before defaults, each list of the simple copy is a prefix of `app.py`'s, and never holds a message of the two blocks only `app.py` has |

## Left out

- The HTTP handler classes of `api/analyze.py` and `api/index.py`, `api/health.py`, the Gradio interfaces and `launch`, and `huggingface_gradio_app.py`. They do request and response I/O, UI plumbing and model inference, not clause analysis.
- `json.dumps`: the report is a Dafny datatype. The JSON-string and dict return forms of the two catalog-driven copies are the same model.
- `time.strftime`: `EnhancedAnalyzer.AnalyzeClause` takes the timestamp as a parameter and copies it into `analysisDate`.
- The `except` fallbacks (`api/analyze.py:207-213`, `api/index.py:196-202`, `app.py:146-155`). The data is constant and the operations cannot raise on a string, so these are not modelled.
- A `None` argument: the model takes a string. An empty string takes the same error path.
- Unicode: `lower` and `strip` are modelled on ASCII only, with Python's ASCII whitespace set.
- Python's regex engine: only the six fixed expressions are modelled, each as an alternation of ordered literal chains with no line break in the gaps.
- Float division: the average is compared through integer cross-multiplication. `EnhancedProperties.AverageThresholds` proves the two agree.
- Text: findings and list items are references to table rows, rendered to the source's strings by `Finding.Issue`, `Finding.Description`, `Finding.PlainEnglish`, `Finding.Recommendation` and `RuleCatalog.MessageText`. The lemmas speak about the references.
- RuleAnalyzer.RunRules: the source writes the 17 guarded blocks out one after another. The model runs them in the same order as a loop over the rule table, one `RunRule` step per block, each block's condition and messages taken from the table.
- RuleAnalyzer.GapChecks: the source writes the five checks out one after another. The model keeps them as five `CheckGap` steps in the same order, each check's keywords and note taken from the check table.
- RuleAnalyzer.Collected: its own contract only bounds the length. What the list holds is stated by `RuleProperties.CollectedIff` and `RuleProperties.CollectedInOrder`.

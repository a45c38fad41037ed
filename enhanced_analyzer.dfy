/** The catalog-driven analyzer `analyze_legal_clause_enhanced` of
    `api/analyze.py` and `api/index.py`: lower-case the clause, scan the
    ambiguous-term table by substring and the high-risk pattern table by
    regex search, turn every hit into one finding, classify the contract,
    aggregate the hit weights into an overall severity and assemble the
    report. */
module EnhancedAnalyzer {
  import opened Text
  import opened EnhancedCatalog
  import opened Comprehension

  /** One detected issue: the table row that hit, read in one edition's
      texts. Its fields are those of the report's item. */
  datatype Finding = Finding(edition: Edition, entry: Entry)
  {
    function Issue(): string { entry.Issue() }
    function Description(): string { entry.Explanation(edition).description }
    function PlainEnglish(): string { entry.Explanation(edition).plainEnglish }
    function Recommendation(): string { entry.Explanation(edition).recommendation }

    /** `['LOW', 'MEDIUM', 'HIGH', 'CRITICAL'][min(weight, 3)]` */
    function RiskLevel(): Level { LevelOf(entry.Weight()) }
  }

  /** The inferred kind of agreement. */
  datatype ContractType = Employment | Service | NonDisclosure | GeneralContract
  {
    function Label(): string
    {
      match this
      case Employment => "Employment Agreement"
      case Service => "Service Agreement"
      case NonDisclosure => "Non-Disclosure Agreement"
      case GeneralContract => "General Contract"
    }
  }

  datatype Summary = Summary(
    contractType: ContractType, overallSeverity: Level, totalIssues: nat, keyFindings: seq<string>)

  /** The report; `analysisDate` is the wall-clock timestamp, passed in. */
  datatype Report = Report(
    summary: Summary,
    ambiguities: seq<Finding>, risks: seq<Finding>, missingProtections: seq<Finding>,
    immediate: seq<string>, general: seq<string>,
    whatThisMeans: seq<string>, whyItMatters: string, nextSteps: string,
    legalReferences: seq<string>,
    analysisVersion: string, analysisDate: string, disclaimer: string)

  /** Either the validation error for a blank clause or a report. */
  datatype Outcome = Rejected(error: string) | Analysed(report: Report)

  const WhyItMatters :=
    "Legal language can hide important risks and obligations. This analysis helps you understand what you're agreeing to in simple terms."
  const NextSteps :=
    "Consider consulting with a qualified attorney for complex agreements, high-value transactions, or when critical risks are identified."
  const Disclaimer := "This analysis is for informational purposes only and does not constitute legal advice."
  const LegalReferences := ["Restatement (Second) of Contracts", "Uniform Commercial Code (UCC)"]

  function AnalysisVersion(e: Edition): string
  {
    match e
    case Api => "2.0-enhanced-api"
    case Vercel => "2.0-enhanced-vercel"
  }

  // ---------------------------------------------------------------------
  // Matcher

  function TermFinding(e: Edition, id: TermId): Finding
  {
    Finding(e, TermEntry(id))
  }

  function PatternFinding(e: Edition, id: PatternId): Finding
  {
    Finding(e, PatternEntry(id))
  }

  /** The entries of `c` whose term occurs in `t`, in table order. */
  function MatchedTerms(t: string, c: seq<TermId>): (m: seq<TermId>)
    ensures |m| <= |c|
    ensures forall x :: x in m ==> x in c && Contains(t, Term(x))
  {
    if c == [] then []
    else
      var last := c[|c| - 1];
      MatchedTerms(t, c[..|c| - 1]) + (if Contains(t, Term(last)) then [last] else [])
  }

  /** The entries of `p` whose pattern `re.search` finds in `t`, in table order. */
  function MatchedPatterns(t: string, p: seq<PatternId>): (m: seq<PatternId>)
    ensures |m| <= |p|
    ensures forall x :: x in m ==> x in p && Search(t, PatternOf(x))
  {
    if p == [] then []
    else
      var last := p[|p| - 1];
      MatchedPatterns(t, p[..|p| - 1]) + (if Search(t, PatternOf(last)) then [last] else [])
  }

  function TermFindings(e: Edition, m: seq<TermId>): seq<Finding>
  {
    seq(|m|, i requires 0 <= i < |m| => TermFinding(e, m[i]))
  }

  function PatternFindings(e: Edition, m: seq<PatternId>): seq<Finding>
  {
    seq(|m|, i requires 0 <= i < |m| => PatternFinding(e, m[i]))
  }

  /** The report's `ambiguities`. */
  function AmbiguityFindings(e: Edition, t: string): seq<Finding>
  {
    TermFindings(e, MatchedTerms(t, TermTable))
  }

  /** The report's `risks`. */
  function RiskFindings(e: Edition, t: string): seq<Finding>
  {
    PatternFindings(e, MatchedPatterns(t, PatternTable))
  }

  // ---------------------------------------------------------------------
  // The score dictionary `risk_scores` (insertion-ordered, as Python's dict)

  datatype Score = Score(key: string, weight: nat)

  function Keys(table: seq<Score>): seq<string>
  {
    seq(|table|, i requires 0 <= i < |table| => table[i].key)
  }

  /** `risk_scores.values()` */
  function Values(table: seq<Score>): seq<nat>
  {
    seq(|table|, i requires 0 <= i < |table| => table[i].weight)
  }

  /** `table[key] = weight`: overwrite in place when the key is present,
      append otherwise. */
  function Put(table: seq<Score>, key: string, weight: nat): (r: seq<Score>)
    ensures key !in Keys(table) ==> r == table + [Score(key, weight)]
    ensures key in Keys(table) ==> Keys(r) == Keys(table)
    ensures key in Keys(table) ==> forall i :: 0 <= i < |r| ==>
      r[i].weight == if table[i].key == key then weight else table[i].weight
  {
    if key in Keys(table) then
      seq(|table|, i requires 0 <= i < |table| =>
        if table[i].key == key then Score(key, weight) else table[i])
    else
      table + [Score(key, weight)]
  }

  function TermScores(m: seq<TermId>): seq<Score>
  {
    seq(|m|, i requires 0 <= i < |m| => Score(Term(m[i]), TermRisk(m[i])))
  }

  function PatternScores(m: seq<PatternId>): seq<Score>
  {
    seq(|m|, i requires 0 <= i < |m| => Score(PatternName(m[i]), PatternRisk(m[i])))
  }

  /** The dictionary after both scans: one entry per hit, terms first. */
  function ScoreTable(t: string): seq<Score>
  {
    TermScores(MatchedTerms(t, TermTable)) + PatternScores(MatchedPatterns(t, PatternTable))
  }

  /** The weights the severity is computed from. */
  function Weights(t: string): seq<nat>
  {
    Values(ScoreTable(t))
  }

  // ---------------------------------------------------------------------
  // Classifier

  /** The `if/elif` chain: Employment, then Service, then Non-Disclosure. */
  function Classify(e: Edition, t: string): ContractType
  {
    if ContainsAny(t, EmploymentKeywords) then Employment
    else if ContainsAny(t, ServiceKeywords(e)) then Service
    else if ContainsAny(t, NdaKeywords) then NonDisclosure
    else GeneralContract
  }

  // ---------------------------------------------------------------------
  // Severity aggregator

  /** `max(values)` */
  function Max(ws: seq<nat>): (r: nat)
    requires |ws| > 0
    ensures forall i :: 0 <= i < |ws| ==> ws[i] <= r
    ensures r in ws
  {
    if |ws| == 1 then ws[0]
    else
      var m := Max(ws[..|ws| - 1]);
      if ws[|ws| - 1] > m then ws[|ws| - 1] else m
  }

  /** `sum(values)` */
  function Sum(ws: seq<nat>): nat
  {
    if ws == [] then 0 else Sum(ws[..|ws| - 1]) + ws[|ws| - 1]
  }

  /** The threshold ladder. With n weights of sum s the average is s / n,
      so `avg >= 3`, `avg >= 2.5` and `avg >= 1.5` are `s >= 3n`,
      `2s >= 5n` and `2s >= 3n`. */
  function Severity(ws: seq<nat>): Level
  {
    if |ws| == 0 then Low
    else
      var top, total, n := Max(ws), Sum(ws), |ws|;
      if top >= 4 || total >= 3 * n then Critical
      else if top >= 3 || 2 * total >= 5 * n then High
      else if top >= 2 || 2 * total >= 3 * n then Medium
      else Low
  }

  // ---------------------------------------------------------------------
  // Report assembly

  const NoIssuesLine := "No major legal issues detected in this clause"

  function FoundLine(n: nat): string
  {
    "Found " + NatToString(n) + " legal concerns requiring attention"
  }

  function WarningLine(severity: Level): string
  {
    "\U{26A0}\U{FE0F} " + severity.Name() + " RISK: Immediate legal review strongly recommended"
  }

  function DetectedLine(c: ContractType): string
  {
    "Detected as " + c.Label() + " - specialized analysis applied"
  }

  /** The count line never reads as the no-issues sentence. */
  lemma FoundLineDiffers(n: nat)
    ensures FoundLine(n) != NoIssuesLine
  {
    assert FoundLine(n)[2] == 'u' && NoIssuesLine[2] == ' ';
  }

  /** What the key-findings list says: a count line (the no-issues sentence
      exactly when there is nothing), a warning line exactly when the
      severity is HIGH or CRITICAL, a detection line exactly when a contract
      type was recognised. */
  predicate KeyFindingsSay(lines: seq<string>, total: nat, severity: Level, c: ContractType)
  {
    && |lines| == 1 + (if severity.Urgent() then 1 else 0) + (if c != GeneralContract then 1 else 0)
    && (lines[0] == NoIssuesLine <==> total == 0)
    && (total > 0 ==> lines[0] == FoundLine(total))
    && (severity.Urgent() ==> lines[1] == WarningLine(severity))
    && (c != GeneralContract ==> lines[|lines| - 1] == DetectedLine(c))
  }

  method KeyFindings(total: nat, severity: Level, c: ContractType) returns (lines: seq<string>)
    ensures 1 <= |lines| <= 3
    ensures KeyFindingsSay(lines, total, severity, c)
  {
    lines := [];
    if total == 0 {
      lines := lines + [NoIssuesLine];
    } else {
      FoundLineDiffers(total);
      lines := lines + [FoundLine(total)];
    }
    if severity.Urgent() {
      lines := lines + [WarningLine(severity)];
    }
    if c != GeneralContract {
      lines := lines + [DetectedLine(c)];
    }
  }

  /** `item['riskLevel'] in ['HIGH', 'CRITICAL']` */
  function IsUrgent(f: Finding): bool { f.RiskLevel().Urgent() }

  /** `item['riskLevel'] in ['LOW', 'MEDIUM']` */
  function IsRoutine(f: Finding): bool { !f.RiskLevel().Urgent() }

  /** `item['recommendation']` */
  function RecommendationOf(f: Finding): string { f.Recommendation() }

  /** `[item['recommendation'] for item in fs if item['riskLevel'] in ['HIGH', 'CRITICAL']]` */
  function Immediate(fs: seq<Finding>): seq<string>
  {
    Filtered(fs, IsUrgent, RecommendationOf)
  }

  /** `[item['recommendation'] for item in fs if item['riskLevel'] in ['LOW', 'MEDIUM']]` */
  function General(fs: seq<Finding>): seq<string>
  {
    Filtered(fs, IsRoutine, RecommendationOf)
  }

  /** `[item['plainEnglish'] for item in fs]` */
  function PlainEnglish(fs: seq<Finding>): seq<string>
  {
    seq(|fs|, i requires 0 <= i < |fs| => fs[i].PlainEnglish())
  }

  /** The loop over the ambiguous-term dictionary: one finding and one
      score entry per term that occurs in `t`. */
  method ScanAmbiguities(e: Edition, t: string) returns (ambiguities: seq<Finding>, scores: seq<Score>)
    ensures ambiguities == AmbiguityFindings(e, t)
    ensures scores == TermScores(MatchedTerms(t, TermTable))
  {
    ambiguities, scores := [], [];
    for i := 0 to |TermTable|
      invariant ambiguities == TermFindings(e, MatchedTerms(t, TermTable[..i]))
      invariant scores == TermScores(MatchedTerms(t, TermTable[..i]))
    {
      var id := TermTable[i];
      TermScanStep(e, t, TermTable, i);
      if Contains(t, Term(id)) {
        ambiguities := ambiguities + [TermFinding(e, id)];
        FreshTermKey(t, i);
        scores := Put(scores, Term(id), TermRisk(id));
      }
    }
    assert TermTable[..|TermTable|] == TermTable;
  }

  /** The loop over the high-risk pattern list, continuing the score
      dictionary the term loop left. */
  method ScanRisks(e: Edition, t: string, termScores: seq<Score>) returns (risks: seq<Finding>, scores: seq<Score>)
    requires termScores == TermScores(MatchedTerms(t, TermTable))
    ensures risks == RiskFindings(e, t)
    ensures scores == ScoreTable(t)
  {
    risks, scores := [], termScores;
    for i := 0 to |PatternTable|
      invariant risks == PatternFindings(e, MatchedPatterns(t, PatternTable[..i]))
      invariant scores == termScores + PatternScores(MatchedPatterns(t, PatternTable[..i]))
    {
      var id := PatternTable[i];
      PatternScanStep(e, t, termScores, PatternTable, i);
      if Search(t, PatternOf(id)) {
        risks := risks + [PatternFinding(e, id)];
        FreshPatternKey(t, i);
        scores := Put(scores, PatternName(id), PatternRisk(id));
      }
    }
    assert PatternTable[..|PatternTable|] == PatternTable;
  }

  /** `analyze_legal_clause_enhanced` */
  method AnalyzeClause(e: Edition, clauseText: string, analysisDate: string) returns (out: Outcome)
    ensures out.Rejected? <==> IsBlank(clauseText)
    ensures out.Rejected? ==> out.error == EmptyClauseError
    ensures out.Analysed? ==>
      var t, r := Lower(clauseText), out.report;
      var all := r.ambiguities + r.risks;
      && r.ambiguities == AmbiguityFindings(e, t)
      && r.risks == RiskFindings(e, t)
      && r.missingProtections == []
      && r.summary.contractType == Classify(e, t)
      && r.summary.overallSeverity == Severity(Weights(t))
      && r.summary.totalIssues == |all|
      && 1 <= |r.summary.keyFindings| <= 3
      && KeyFindingsSay(r.summary.keyFindings, |all|, r.summary.overallSeverity, r.summary.contractType)
      && r.immediate == Immediate(all)
      && r.general == General(all)
      && r.whatThisMeans == PlainEnglish(all)
      && r.whyItMatters == WhyItMatters && r.nextSteps == NextSteps
      && r.legalReferences == LegalReferences
      && r.analysisVersion == AnalysisVersion(e) && r.analysisDate == analysisDate
      && r.disclaimer == Disclaimer
  {
    if IsBlank(clauseText) {
      return Rejected(EmptyClauseError);
    }
    var t := Lower(clauseText);
    var ambiguities, scores := ScanAmbiguities(e, t);
    var risks;
    risks, scores := ScanRisks(e, t, scores);

    var contractType := Classify(e, t);
    var severity := Severity(Values(scores));
    var total := |ambiguities| + |risks|;
    var keyFindings := KeyFindings(total, severity, contractType);
    var all := ambiguities + risks;
    out := Analysed(Report(
      Summary(contractType, severity, total, keyFindings),
      ambiguities, risks, [],
      Immediate(all), General(all),
      PlainEnglish(all), WhyItMatters, NextSteps,
      LegalReferences,
      AnalysisVersion(e), analysisDate, Disclaimer));
  }

  // ---------------------------------------------------------------------
  // One more table entry scanned

  lemma MatchedTermsStep(t: string, c: seq<TermId>, i: int)
    requires 0 <= i < |c|
    ensures MatchedTerms(t, c[..i + 1]) ==
      MatchedTerms(t, c[..i]) + (if Contains(t, Term(c[i])) then [c[i]] else [])
  {
    assert c[..i + 1][..i] == c[..i];
  }

  lemma MatchedPatternsStep(t: string, p: seq<PatternId>, i: int)
    requires 0 <= i < |p|
    ensures MatchedPatterns(t, p[..i + 1]) ==
      MatchedPatterns(t, p[..i]) + (if Search(t, PatternOf(p[i])) then [p[i]] else [])
  {
    assert p[..i + 1][..i] == p[..i];
  }

  lemma TermScanStep(e: Edition, t: string, c: seq<TermId>, i: int)
    requires 0 <= i < |c|
    ensures TermFindings(e, MatchedTerms(t, c[..i + 1])) ==
      TermFindings(e, MatchedTerms(t, c[..i])) + (if Contains(t, Term(c[i])) then [TermFinding(e, c[i])] else [])
    ensures TermScores(MatchedTerms(t, c[..i + 1])) ==
      TermScores(MatchedTerms(t, c[..i])) + (if Contains(t, Term(c[i])) then [Score(Term(c[i]), TermRisk(c[i]))] else [])
  {
    MatchedTermsStep(t, c, i);
    if Contains(t, Term(c[i])) {
      TermViewsStep(e, MatchedTerms(t, c[..i]), c[i]);
    } else {
      assert MatchedTerms(t, c[..i + 1]) == MatchedTerms(t, c[..i]);
    }
  }

  lemma TermViewsStep(e: Edition, m: seq<TermId>, id: TermId)
    ensures TermFindings(e, m + [id]) == TermFindings(e, m) + [TermFinding(e, id)]
    ensures TermScores(m + [id]) == TermScores(m) + [Score(Term(id), TermRisk(id))]
  {
  }

  lemma PatternScanStep(e: Edition, t: string, pre: seq<Score>, p: seq<PatternId>, i: int)
    requires 0 <= i < |p|
    ensures PatternFindings(e, MatchedPatterns(t, p[..i + 1])) ==
      PatternFindings(e, MatchedPatterns(t, p[..i])) + (if Search(t, PatternOf(p[i])) then [PatternFinding(e, p[i])] else [])
    ensures pre + PatternScores(MatchedPatterns(t, p[..i + 1])) ==
      pre + PatternScores(MatchedPatterns(t, p[..i])) + (if Search(t, PatternOf(p[i])) then [Score(PatternName(p[i]), PatternRisk(p[i]))] else [])
  {
    MatchedPatternsStep(t, p, i);
    if Search(t, PatternOf(p[i])) {
      PatternViewsStep(e, MatchedPatterns(t, p[..i]), p[i]);
    } else {
      assert MatchedPatterns(t, p[..i + 1]) == MatchedPatterns(t, p[..i]);
    }
  }

  lemma PatternViewsStep(e: Edition, m: seq<PatternId>, id: PatternId)
    ensures PatternFindings(e, m + [id]) == PatternFindings(e, m) + [PatternFinding(e, id)]
    ensures PatternScores(m + [id]) == PatternScores(m) + [Score(PatternName(id), PatternRisk(id))]
  {
  }

  // ---------------------------------------------------------------------
  // The keys of the score dictionary never collide

  /** Different terms, and different pattern names, are different strings,
      and no pattern name is a term. */
  lemma KeysInjective()
    ensures forall a: TermId, b: TermId :: Term(a) == Term(b) ==> a == b
    ensures forall a: PatternId, b: PatternId :: PatternName(a) == PatternName(b) ==> a == b
    ensures forall a: TermId, b: PatternId :: Term(a) != PatternName(b)
  {
    forall a: TermId, b: TermId | Term(a) == Term(b) ensures a == b {
      assert |Term(a)| == |Term(b)|;
    }
    forall a: PatternId, b: PatternId | PatternName(a) == PatternName(b) ensures a == b {
      assert |PatternName(a)| == |PatternName(b)|;
      assert PatternName(a)[0] == PatternName(b)[0];
    }
    forall a: TermId, b: PatternId ensures Term(a) != PatternName(b) {
      assert 'a' <= Term(a)[0] <= 'z';
      assert 'A' <= PatternName(b)[0] <= 'Z';
    }
  }

  /** Every entry of each table is listed once. */
  lemma TablesDistinct()
    ensures forall i, j :: 0 <= i < j < |TermTable| ==> TermTable[i] != TermTable[j]
    ensures forall i, j :: 0 <= i < j < |PatternTable| ==> PatternTable[i] != PatternTable[j]
  {
    forall i, j | 0 <= i < j < |TermTable| ensures TermTable[i] != TermTable[j] {
      assert i == 0 || i == 1 || i == 2 || i == 3;
    }
    forall i, j | 0 <= i < j < |PatternTable| ensures PatternTable[i] != PatternTable[j] {
      assert i == 0 || i == 1 || i == 2 || i == 3 || i == 4;
    }
  }

  /** The term about to be written is not yet a key. */
  lemma FreshTermKey(t: string, i: int)
    requires 0 <= i < |TermTable|
    ensures Term(TermTable[i]) !in Keys(TermScores(MatchedTerms(t, TermTable[..i])))
  {
    KeysInjective();
    TablesDistinct();
    var m := MatchedTerms(t, TermTable[..i]);
    forall k | 0 <= k < |m| ensures Term(m[k]) != Term(TermTable[i]) {
      assert m[k] in TermTable[..i];
    }
  }

  /** The pattern name about to be written is neither a term nor an earlier name. */
  lemma FreshPatternKey(t: string, i: int)
    requires 0 <= i < |PatternTable|
    ensures PatternName(PatternTable[i]) !in
      Keys(TermScores(MatchedTerms(t, TermTable)) + PatternScores(MatchedPatterns(t, PatternTable[..i])))
  {
    KeysInjective();
    TablesDistinct();
    var m, q := MatchedTerms(t, TermTable), MatchedPatterns(t, PatternTable[..i]);
    var table := TermScores(m) + PatternScores(q);
    var name := PatternName(PatternTable[i]);
    forall k | 0 <= k < |q| ensures PatternName(q[k]) != name {
      assert q[k] in PatternTable[..i];
      var j :| 0 <= j < i && PatternTable[..i][j] == q[k];
      assert PatternTable[j] != PatternTable[i];
    }
    forall k | 0 <= k < |table| ensures table[k].key != name {
      if k < |m| {
        assert table[k].key == Term(m[k]);
      } else {
        assert table[k].key == PatternName(q[k - |m|]);
      }
    }
  }
}

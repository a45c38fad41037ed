/** The rule-based analyzer `analyze_legal_clause` of `app.py` and
    `simple_gradio_app.py`: a fixed sequence of guarded appends to five
    lists, the missing-clause checks, default items for lists left empty,
    the references policy, and the final truncation. The method follows the
    source block by block; the functions before it give the same lists as a
    filter over the rule table, and the method is proved to agree with them. */
module RuleAnalyzer {
  import opened Text
  import opened RuleCatalog

  datatype Option<T> = None | Some(value: T)

  /** The returned object; list items are messages, rendered by
      `MessageText`. */
  datatype RuleReport = RuleReport(
    ambiguities: seq<Message>, risks: seq<Message>, recommendations: seq<Message>,
    missingElements: seq<Message>, references: seq<Message>,
    enhanced: bool, keyFinding: string,
    analysisType: Option<string>, version: Option<string>)

  datatype RuleOutcome = Rejected(error: string) | Analysed(report: RuleReport)

  const GeneralReferences: seq<Message> := [General(Restatement), General(Ucc)]

  // ---------------------------------------------------------------------
  // Reference definition

  /** The messages the first `n` blocks append to list `g`, in block order. */
  function Collected(t: string, n: nat, g: Target): (ms: seq<Message>)
    requires n <= |AllRules|
    ensures |ms| <= n
  {
    if n == 0 then []
    else
      var r := AllRules[n - 1];
      Collected(t, n - 1, g) + (if Guard(r, t) && Writes(r, g) then [Said(r, g)] else [])
  }

  /** The notes of the first `n` checks whose keywords are all absent. */
  function GapsMissing(t: string, n: nat): (ms: seq<Message>)
    requires n <= |AllGaps|
    ensures |ms| <= n
  {
    if n == 0 then []
    else
      var g := AllGaps[n - 1];
      GapsMissing(t, n - 1) + (if !ContainsAny(t, GapKeywords(g)) then [GapNote(g)] else [])
  }

  /** `if not xs: xs.append(item)` */
  function OrDefault(ms: seq<Message>, item: Message): (r: seq<Message>)
    ensures |r| >= 1 && (ms != [] ==> r == ms)
  {
    if ms == [] then [item] else ms
  }

  /** Python's `xs[:n]`. */
  function Take(ms: seq<Message>, n: nat): (r: seq<Message>)
    ensures |r| == if |ms| <= n then |ms| else n
    ensures r == ms[..|r|]
  {
    if |ms| <= n then ms else ms[..n]
  }

  /** The lists before truncation. */
  function AmbiguityList(v: Variant, t: string): seq<Message>
  {
    OrDefault(Collected(t, RuleCount(v), Ambiguities), DefaultNote(Ambiguities))
  }

  function RiskList(v: Variant, t: string): seq<Message>
  {
    OrDefault(Collected(t, RuleCount(v), Risks), DefaultNote(Risks))
  }

  function RecommendationList(v: Variant, t: string): seq<Message>
  {
    OrDefault(Collected(t, RuleCount(v), Recommendations), DefaultNote(Recommendations))
  }

  /** Content-triggered notes first, then the missing-clause notes. */
  function MissingList(v: Variant, t: string): seq<Message>
  {
    Collected(t, RuleCount(v), Missing) + GapsMissing(t, GapCount(v))
  }

  /** `app.py` falls back to the general references when no rule cited
      one; `simple_gradio_app.py` always appends them. */
  function ReferenceList(v: Variant, t: string): seq<Message>
  {
    var cited := Collected(t, RuleCount(v), References);
    match v
    case GradioApp => if cited == [] then GeneralReferences else cited
    case SimpleGradioApp => cited + GeneralReferences
  }

  function KeyFindingLine(n: nat): string
  {
    "Legal analysis identified " + NatToString(n) + " key concerns requiring attention"
  }

  /** The returned object, built from the five lists after defaults:
      each list truncated, and the count taken before truncation. */
  function Assemble(v: Variant, a: seq<Message>, r: seq<Message>, c: seq<Message>,
                    m: seq<Message>, f: seq<Message>): (report: RuleReport)
    ensures report.ambiguities == Take(a, 5) && report.risks == Take(r, 5)
    ensures report.recommendations == Take(c, 5) && report.missingElements == Take(m, 4)
    ensures report.references == Take(f, 3)
    ensures report.keyFinding == KeyFindingLine(|a| + |r|)
  {
    RuleReport(
      Take(a, 5), Take(r, 5), Take(c, 5), Take(m, 4), Take(f, 3),
      true, KeyFindingLine(|a| + |r|),
      if v == GradioApp then Some("rule_based_legal_analysis") else None,
      if v == GradioApp then Some("1.0") else None)
  }

  /** What the analyzer returns for a non-blank clause, lower-cased to `t`. */
  function ReportFor(v: Variant, t: string): RuleReport
  {
    Assemble(v, AmbiguityList(v, t), RiskList(v, t), RecommendationList(v, t),
             MissingList(v, t), ReferenceList(v, t))
  }

  // ---------------------------------------------------------------------
  // The analyzer

  /** The five lists being filled. */
  datatype Lists = Lists(
    ambiguities: seq<Message>, risks: seq<Message>, recommendations: seq<Message>,
    missing: seq<Message>, references: seq<Message>)

  /** The lists after the blocks of `rules` ran. */
  predicate Scanned(t: string, n: nat, d: Lists)
    requires n <= |AllRules|
  {
    && d.ambiguities == Collected(t, n, Ambiguities) && d.risks == Collected(t, n, Risks)
    && d.recommendations == Collected(t, n, Recommendations) && d.missing == Collected(t, n, Missing)
    && d.references == Collected(t, n, References)
  }

  /** Block `n` of the source: when its rule's condition holds, append the
      rule's message to each list it writes. Run on the lists the blocks
      before it left, it leaves the lists of the blocks up to and including
      it. */
  method RunRule(n: nat, t: string, d: Lists) returns (e: Lists)
    requires n < |AllRules| && Scanned(t, n, d)
    ensures Scanned(t, n + 1, e)
  {
    var rule := AllRules[n];
    var a, r, c, m, f := d.ambiguities, d.risks, d.recommendations, d.missing, d.references;
    if Guard(rule, t) {
      if Writes(rule, Ambiguities) {
        a := a + [Said(rule, Ambiguities)];
      }
      if Writes(rule, Risks) {
        r := r + [Said(rule, Risks)];
      }
      if Writes(rule, Recommendations) {
        c := c + [Said(rule, Recommendations)];
      }
      if Writes(rule, Missing) {
        m := m + [Said(rule, Missing)];
      }
      if Writes(rule, References) {
        f := f + [Said(rule, References)];
      }
    }
    e := Lists(a, r, c, m, f);
  }

  /** The guarded blocks in source order; `simple_gradio_app.py` stops
      after the fifteenth. */
  method RunRules(v: Variant, t: string) returns (d: Lists)
    ensures Scanned(t, RuleCount(v), d)
  {
    d := Lists([], [], [], [], []);
    for n := 0 to RuleCount(v)
      invariant Scanned(t, n, d)
    {
      d := RunRule(n, t, d);
    }
  }

  /** Check `n` of the source: note the clause when none of its keywords
      occurs. Run after the checks before it, it leaves the notes of the
      checks up to and including it. */
  method CheckGap(t: string, n: nat, missing0: seq<Message>, missing: seq<Message>) returns (r: seq<Message>)
    requires n < |AllGaps| && missing == missing0 + GapsMissing(t, n)
    ensures r == missing0 + GapsMissing(t, n + 1)
  {
    var gap := AllGaps[n];
    r := missing;
    if !ContainsAny(t, GapKeywords(gap)) {
      r := r + [GapNote(gap)];
    }
  }

  /** The missing-clause checks in source order; only `app.py` has the
      last two. */
  method GapChecks(v: Variant, t: string, missing0: seq<Message>) returns (missing: seq<Message>)
    ensures missing == missing0 + GapsMissing(t, GapCount(v))
  {
    missing := missing0;
    missing := CheckGap(t, 0, missing0, missing);
    missing := CheckGap(t, 1, missing0, missing);
    missing := CheckGap(t, 2, missing0, missing);
    if v == GradioApp {
      missing := CheckGap(t, 3, missing0, missing);
      missing := CheckGap(t, 4, missing0, missing);
    }
  }

  /** `analyze_legal_clause` */
  method AnalyzeClause(v: Variant, clauseText: string) returns (out: RuleOutcome)
    ensures out.Rejected? <==> IsBlank(clauseText)
    ensures out.Rejected? ==> out.error == EmptyClauseError
    ensures out.Analysed? ==> out.report == ReportFor(v, Lower(clauseText))
  {
    if IsBlank(clauseText) {
      return Rejected(EmptyClauseError);
    }
    var t := Lower(clauseText);
    var d := RunRules(v, t);
    var ambiguities, risks, recommendations, references := d.ambiguities, d.risks, d.recommendations, d.references;
    var missing := GapChecks(v, t, d.missing);

    if ambiguities == [] {
      ambiguities := ambiguities + [DefaultNote(Ambiguities)];
    }
    if risks == [] {
      risks := risks + [DefaultNote(Risks)];
    }
    if recommendations == [] {
      recommendations := recommendations + [DefaultNote(Recommendations)];
    }
    if v == GradioApp {
      if references == [] {
        references := references + GeneralReferences;
      }
    } else {
      references := references + GeneralReferences;
    }

    assert ambiguities == AmbiguityList(v, t);
    assert risks == RiskList(v, t);
    assert recommendations == RecommendationList(v, t);
    assert missing == MissingList(v, t);
    assert references == ReferenceList(v, t);
    out := Analysed(Assemble(v, ambiguities, risks, recommendations, missing, references));
  }
}

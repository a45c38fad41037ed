/** What the catalog-driven analyzer promises, proved about the functions
    its report is specified by: which findings appear and in what order,
    how the score dictionary lines up with them, how the severity ladder
    behaves, how the contract type is chosen in each edition, and how the
    recommendations split the findings. */
module EnhancedProperties {
  import opened Text
  import opened EnhancedCatalog
  import opened EnhancedAnalyzer
  import opened Comprehension

  // ---------------------------------------------------------------------
  // Matcher: presence iff finding, table order, no repeats

  /** A term is matched exactly when it is in the scanned table and occurs
      in the text. */
  lemma {:induction false} MatchedTermsIff(t: string, c: seq<TermId>, x: TermId)
    ensures x in MatchedTerms(t, c) <==> x in c && Contains(t, Term(x))
    decreases |c|
  {
    if c != [] {
      var init := c[..|c| - 1];
      MatchedTermsIff(t, init, x);
      assert c == init + [c[|c| - 1]];
    }
  }

  /** A pattern is matched exactly when it is in the scanned list and
      `re.search` finds it in the text. */
  lemma {:induction false} MatchedPatternsIff(t: string, p: seq<PatternId>, x: PatternId)
    ensures x in MatchedPatterns(t, p) <==> x in p && Search(t, PatternOf(x))
    decreases |p|
  {
    if p != [] {
      var init := p[..|p| - 1];
      MatchedPatternsIff(t, init, x);
      assert p == init + [p[|p| - 1]];
    }
  }

  /** Scanning the first `k` table rows yields rows in strictly increasing
      table position, all before `k`. */
  lemma {:induction false} MatchedTermsOrdered(t: string, k: nat)
    requires k <= |TermTable|
    ensures forall x :: x in MatchedTerms(t, TermTable[..k]) ==> TermIndex(x) < k
    ensures forall i, j :: 0 <= i < j < |MatchedTerms(t, TermTable[..k])| ==>
      TermIndex(MatchedTerms(t, TermTable[..k])[i]) < TermIndex(MatchedTerms(t, TermTable[..k])[j])
    decreases k
  {
    if k > 0 {
      MatchedTermsOrdered(t, k - 1);
      MatchedTermsStep(t, TermTable, k - 1);
      TablesDistinct();
      assert TermIndex(TermTable[k - 1]) == k - 1;
    }
  }

  lemma {:induction false} MatchedPatternsOrdered(t: string, k: nat)
    requires k <= |PatternTable|
    ensures forall x :: x in MatchedPatterns(t, PatternTable[..k]) ==> PatternIndex(x) < k
    ensures forall i, j :: 0 <= i < j < |MatchedPatterns(t, PatternTable[..k])| ==>
      PatternIndex(MatchedPatterns(t, PatternTable[..k])[i]) < PatternIndex(MatchedPatterns(t, PatternTable[..k])[j])
    decreases k
  {
    if k > 0 {
      MatchedPatternsOrdered(t, k - 1);
      MatchedPatternsStep(t, PatternTable, k - 1);
      TablesDistinct();
      assert PatternIndex(PatternTable[k - 1]) == k - 1;
    }
  }

  /** An ambiguity finding for a term is reported exactly when the term is a
      substring of the lower-cased clause. */
  lemma AmbiguityFindingIff(e: Edition, t: string, id: TermId)
    ensures TermFinding(e, id) in AmbiguityFindings(e, t) <==> Contains(t, Term(id))
  {
    var m := MatchedTerms(t, TermTable);
    MatchedTermsIff(t, TermTable, id);
    assert id == TermTable[TermIndex(id)];
    if Contains(t, Term(id)) {
      var k :| 0 <= k < |m| && m[k] == id;
      assert AmbiguityFindings(e, t)[k] == TermFinding(e, id);
    }
  }

  /** The ambiguities are term findings in table order, so no term is
      reported twice however often it occurs. */
  lemma AmbiguitiesInTableOrder(e: Edition, t: string)
    ensures var fs := AmbiguityFindings(e, t);
      && (forall i :: 0 <= i < |fs| ==> fs[i].edition == e && fs[i].entry.TermEntry?)
      && (forall i, j :: 0 <= i < j < |fs| ==> TermIndex(fs[i].entry.term) < TermIndex(fs[j].entry.term))
  {
    MatchedTermsOrdered(t, |TermTable|);
    assert TermTable[..|TermTable|] == TermTable;
    var m, fs := MatchedTerms(t, TermTable[..|TermTable|]), AmbiguityFindings(e, t);
    forall i, j | 0 <= i < j < |fs| ensures TermIndex(fs[i].entry.term) < TermIndex(fs[j].entry.term) {
      assert fs[i].entry.term == m[i] && fs[j].entry.term == m[j];
      assert TermIndex(m[i]) < TermIndex(m[j]);
    }
  }

  /** A risk finding for a pattern is reported exactly when the pattern's
      regular expression matches the lower-cased clause. */
  lemma RiskFindingIff(e: Edition, t: string, id: PatternId)
    ensures PatternFinding(e, id) in RiskFindings(e, t) <==> Search(t, PatternOf(id))
  {
    var m := MatchedPatterns(t, PatternTable);
    MatchedPatternsIff(t, PatternTable, id);
    assert id == PatternTable[PatternIndex(id)];
    if Search(t, PatternOf(id)) {
      var k :| 0 <= k < |m| && m[k] == id;
      assert RiskFindings(e, t)[k] == PatternFinding(e, id);
    }
  }

  /** The risks are pattern findings in list order: each pattern fires at
      most once. */
  lemma RisksInTableOrder(e: Edition, t: string)
    ensures var fs := RiskFindings(e, t);
      && (forall i :: 0 <= i < |fs| ==> fs[i].edition == e && fs[i].entry.PatternEntry?)
      && (forall i, j :: 0 <= i < j < |fs| ==> PatternIndex(fs[i].entry.pattern) < PatternIndex(fs[j].entry.pattern))
  {
    MatchedPatternsOrdered(t, |PatternTable|);
    assert PatternTable[..|PatternTable|] == PatternTable;
    var m, fs := MatchedPatterns(t, PatternTable[..|PatternTable|]), RiskFindings(e, t);
    forall i, j | 0 <= i < j < |fs| ensures PatternIndex(fs[i].entry.pattern) < PatternIndex(fs[j].entry.pattern) {
      assert fs[i].entry.pattern == m[i] && fs[j].entry.pattern == m[j];
      assert PatternIndex(m[i]) < PatternIndex(m[j]);
    }
  }

  // ---------------------------------------------------------------------
  // The score dictionary and the findings

  /** Two different table rows are stored under different keys. */
  lemma EntryKeysDiffer(x: Entry, y: Entry)
    requires x != y
    ensures x.Key() != y.Key()
  {
    KeysInjective();
  }

  /** Entry `i` of `risk_scores` is the key and weight of finding `i` of
      ambiguities followed by risks. */
  lemma ScoreTableEntries(e: Edition, t: string)
    ensures var all, table := AmbiguityFindings(e, t) + RiskFindings(e, t), ScoreTable(t);
      && |table| == |all|
      && (forall i :: 0 <= i < |table| ==> table[i] == Score(all[i].entry.Key(), all[i].entry.Weight()))
  {
    var a, r := AmbiguityFindings(e, t), RiskFindings(e, t);
    var all, table := a + r, ScoreTable(t);
    forall i | 0 <= i < |table| ensures table[i] == Score(all[i].entry.Key(), all[i].entry.Weight()) {
      if i < |a| {
        assert all[i] == a[i];
      } else {
        assert all[i] == r[i - |a|];
      }
    }
  }

  /** Entry `i` of `risk_scores` belongs to finding `i` of ambiguities
      followed by risks, and no two keys coincide: every write added a new
      key, so the dictionary has exactly `totalIssues` entries. */
  lemma ScoreTableFollowsFindings(e: Edition, t: string)
    ensures var all, table := AmbiguityFindings(e, t) + RiskFindings(e, t), ScoreTable(t);
      && |table| == |all|
      && (forall i :: 0 <= i < |table| ==> table[i] == Score(all[i].entry.Key(), all[i].entry.Weight()))
      && (forall i, j :: 0 <= i < j < |table| ==> table[i].key != table[j].key)
  {
    var a, r := AmbiguityFindings(e, t), RiskFindings(e, t);
    var all, table := a + r, ScoreTable(t);
    ScoreTableEntries(e, t);
    AmbiguitiesInTableOrder(e, t);
    RisksInTableOrder(e, t);
    forall i, j | 0 <= i < j < |table| ensures table[i].key != table[j].key {
      assert all[i].entry != all[j].entry by {
        if j < |a| {
          assert TermIndex(a[i].entry.term) < TermIndex(a[j].entry.term);
        } else if |a| <= i {
          assert PatternIndex(r[i - |a|].entry.pattern) < PatternIndex(r[j - |a|].entry.pattern);
        } else {
          assert all[i] == a[i] && all[j] == r[j - |a|];
        }
      }
      EntryKeysDiffer(all[i].entry, all[j].entry);
    }
  }

  // ---------------------------------------------------------------------
  // Severity ladder

  /** Dividing by a positive number and comparing is comparing with the
      product. */
  lemma QuotientAtLeast(a: real, b: real, c: real)
    requires b > 0.0
    ensures a / b >= c <==> a >= c * b
  {
    var q := a / b;
    assert q * b == a;
    assert (q - c) * b == a - c * b;
    if q >= c {
      assert (q - c) * b >= 0.0;
    } else {
      assert (c - q) * b > 0.0;
    }
  }

  /** The exact average compared with the three thresholds is the integer
      comparison the ladder uses. With at most eleven weights between 1 and
      4, Python's float average rounds to no value on the other side of a
      threshold, so the float comparison agrees too. */
  lemma AverageThresholds(total: nat, n: nat)
    requires n > 0
    ensures (total as real) / (n as real) >= 3.0 <==> total >= 3 * n
    ensures (total as real) / (n as real) >= 2.5 <==> 2 * total >= 5 * n
    ensures (total as real) / (n as real) >= 1.5 <==> 2 * total >= 3 * n
  {
    var s, m := total as real, n as real;
    QuotientAtLeast(s, m, 3.0);
    assert 3.0 * m == (3 * n) as real;
    QuotientAtLeast(s, m, 2.5);
    assert s >= 2.5 * m <==> 2.0 * s >= 5.0 * m;
    assert 2.0 * s == (2 * total) as real && 5.0 * m == (5 * n) as real;
    QuotientAtLeast(s, m, 1.5);
    assert s >= 1.5 * m <==> 2.0 * s >= 3.0 * m;
    assert 3.0 * m == (3 * n) as real;
  }

  lemma MaxMonotone(a: seq<nat>, b: seq<nat>)
    requires |a| == |b| > 0
    requires forall i :: 0 <= i < |a| ==> a[i] <= b[i]
    ensures Max(a) <= Max(b)
  {
    var k :| 0 <= k < |a| && a[k] == Max(a);
  }

  lemma {:induction false} SumMonotone(a: seq<nat>, b: seq<nat>)
    requires |a| == |b|
    requires forall i :: 0 <= i < |a| ==> a[i] <= b[i]
    ensures Sum(a) <= Sum(b)
    decreases |a|
  {
    if a != [] {
      SumMonotone(a[..|a| - 1], b[..|b| - 1]);
    }
  }

  /** Raising any weights never lowers the overall severity. */
  lemma SeverityMonotone(a: seq<nat>, b: seq<nat>)
    requires |a| == |b|
    requires forall i :: 0 <= i < |a| ==> a[i] <= b[i]
    ensures Severity(a).Rank() <= Severity(b).Rank()
  {
    if a != [] {
      MaxMonotone(a, b);
      SumMonotone(a, b);
    }
  }

  /** A weight of 4 or more anywhere makes the severity CRITICAL, a weight of
      3 at least HIGH, a weight of 2 at least MEDIUM. */
  lemma SeverityAtLeastWeight(ws: seq<nat>, k: int)
    requires 0 <= k < |ws|
    ensures ws[k] >= 4 ==> Severity(ws) == Critical
    ensures ws[k] >= 3 ==> Severity(ws).Rank() >= High.Rank()
    ensures ws[k] >= 2 ==> Severity(ws).Rank() >= Medium.Rank()
  {
  }

  /** A term that occurs puts its weight among the severity's inputs. */
  lemma TermWeighs(e: Edition, t: string, id: TermId) returns (k: nat)
    requires Contains(t, Term(id))
    ensures k < |AmbiguityFindings(e, t)| && AmbiguityFindings(e, t)[k] == TermFinding(e, id)
    ensures k < |Weights(t)| && Weights(t)[k] == TermRisk(id)
  {
    AmbiguityFindingIff(e, t, id);
    ScoreTableFollowsFindings(e, t);
    var a := AmbiguityFindings(e, t);
    k :| 0 <= k < |a| && a[k] == TermFinding(e, id);
    assert (a + RiskFindings(e, t))[k] == a[k];
  }

  /** A pattern that matches puts its weight among the severity's inputs. */
  lemma PatternWeighs(e: Edition, t: string, id: PatternId) returns (k: nat)
    requires Search(t, PatternOf(id))
    ensures k < |Weights(t)| && Weights(t)[k] == PatternRisk(id)
  {
    RiskFindingIff(e, t, id);
    ScoreTableFollowsFindings(e, t);
    var a, r := AmbiguityFindings(e, t), RiskFindings(e, t);
    var q :| 0 <= q < |r| && r[q] == PatternFinding(e, id);
    k := |a| + q;
    assert (a + r)[k] == r[q];
  }

  // ---------------------------------------------------------------------
  // Scenarios

  /** Either literal alternative of the unlimited-liability expression is
      enough for it to match. */
  lemma UnlimitedLiabilityMatches(t: string)
    requires Contains(t, "unlimited liability") || Contains(t, "any and all damages")
    ensures Search(t, PatternOf(UnlimitedLiability))
  {
    var p := PatternOf(UnlimitedLiability);
    if Contains(t, "unlimited liability") {
      MatchesLiteral(t, "unlimited liability");
      assert Matches(t, p[0]);
    } else {
      MatchesLiteral(t, "any and all damages");
      assert Matches(t, p[1]);
    }
  }

  /** "unlimited liability" or "any and all damages" in the text gives a
      CRITICAL risk finding and a CRITICAL overall severity. */
  lemma UnlimitedLiabilityCritical(e: Edition, t: string)
    requires Contains(t, "unlimited liability") || Contains(t, "any and all damages")
    ensures PatternFinding(e, UnlimitedLiability) in RiskFindings(e, t)
    ensures PatternFinding(e, UnlimitedLiability).RiskLevel() == Critical
    ensures Severity(Weights(t)) == Critical
  {
    UnlimitedLiabilityMatches(t);
    RiskFindingIff(e, t, UnlimitedLiability);
    var k := PatternWeighs(e, t, UnlimitedLiability);
    SeverityAtLeastWeight(Weights(t), k);
  }

  /** "best efforts" in the text gives an ambiguity whose weight 3 reads as
      CRITICAL, and an overall severity of at least HIGH. */
  lemma BestEffortsUrgent(e: Edition, t: string)
    requires Contains(t, "best efforts")
    ensures TermFinding(e, BestEfforts) in AmbiguityFindings(e, t)
    ensures TermFinding(e, BestEfforts).RiskLevel() == Critical
    ensures Severity(Weights(t)).Rank() >= High.Rank()
  {
    var k := TermWeighs(e, t, BestEfforts);
    SeverityAtLeastWeight(Weights(t), k);
  }

  /** When "reasonable" and "timely" are the only hits, both findings are
      HIGH (weight 2) while the overall severity is only MEDIUM. */
  lemma ReasonableAndTimelyMedium(e: Edition, t: string)
    requires Contains(t, "reasonable") && Contains(t, "timely")
    requires !Contains(t, "material") && !Contains(t, "best efforts") && !Contains(t, "professional manner")
    requires forall id :: !Search(t, PatternOf(id))
    ensures AmbiguityFindings(e, t) == [TermFinding(e, Reasonable), TermFinding(e, Timely)]
    ensures RiskFindings(e, t) == []
    ensures TermFinding(e, Reasonable).RiskLevel() == High && TermFinding(e, Timely).RiskLevel() == High
    ensures Severity(Weights(t)) == Medium
  {
    ReasonableAndTimelyMatched(t);
    NoPatternMatched(t);
    ReasonableAndTimelyWeights(t);
    ReasonableAndTimelyFindings(e, t);
    ReasonableAndTimelyHigh(e);
    TwoMediumWeights();
  }

  lemma ReasonableAndTimelyFindings(e: Edition, t: string)
    requires MatchedTerms(t, TermTable) == [Reasonable, Timely]
    requires MatchedPatterns(t, PatternTable) == []
    ensures AmbiguityFindings(e, t) == [TermFinding(e, Reasonable), TermFinding(e, Timely)]
    ensures RiskFindings(e, t) == []
  {
  }

  lemma ReasonableAndTimelyHigh(e: Edition)
    ensures TermFinding(e, Reasonable).RiskLevel() == High && TermFinding(e, Timely).RiskLevel() == High
  {
    assert TermRisk(Reasonable) == 2 && TermRisk(Timely) == 2;
  }

  /** No pattern matching means the pattern scan lists nothing. */
  lemma NoPatternMatched(t: string)
    requires forall id :: !Search(t, PatternOf(id))
    ensures MatchedPatterns(t, PatternTable) == []
  {
    NoPatternHits(t, |PatternTable|);
    assert PatternTable[..|PatternTable|] == PatternTable;
  }

  /** The weights when "reasonable" and "timely" are the only hits. */
  lemma ReasonableAndTimelyWeights(t: string)
    requires MatchedTerms(t, TermTable) == [Reasonable, Timely]
    requires MatchedPatterns(t, PatternTable) == []
    ensures Weights(t) == [2, 2]
  {
    var table := ScoreTable(t);
    assert table == TermScores([Reasonable, Timely]);
    assert Weights(t) == [table[0].weight, table[1].weight];
  }

  lemma TwoMediumWeights()
    ensures Severity([2, 2]) == Medium
  {
    var ws: seq<nat> := [2, 2];
    assert ws[..1] == [2];
    assert Max(ws) == 2 && Sum(ws) == 4;
  }

  /** The term scan over the whole table, row by row. */
  lemma ReasonableAndTimelyMatched(t: string)
    requires Contains(t, "reasonable") && Contains(t, "timely")
    requires !Contains(t, "material") && !Contains(t, "best efforts") && !Contains(t, "professional manner")
    ensures MatchedTerms(t, TermTable) == [Reasonable, Timely]
  {
    ReasonableFirst(t);
    MatchedTermsStep(t, TermTable, 3);
    assert Term(TermTable[3]) == "timely";
    assert MatchedTerms(t, TermTable[..4]) == [Reasonable, Timely];
    MatchedTermsStep(t, TermTable, 4);
    assert Term(TermTable[4]) == "professional manner";
    assert TermTable[..5] == TermTable;
  }

  /** Row `i` of the term scan adds nothing when its term is absent. */
  lemma TermRowMisses(t: string, i: nat)
    requires i < |TermTable| && !Contains(t, Term(TermTable[i]))
    ensures MatchedTerms(t, TermTable[..i + 1]) == MatchedTerms(t, TermTable[..i])
  {
    MatchedTermsStep(t, TermTable, i);
  }

  /** The first row of the term scan. */
  lemma ReasonableRow(t: string)
    requires Contains(t, "reasonable")
    ensures MatchedTerms(t, TermTable[..1]) == [Reasonable]
  {
    assert TermTable[..0] == [];
    MatchedTermsStep(t, TermTable, 0);
    assert TermTable[0] == Reasonable;
  }

  /** The first three rows of the term scan. */
  lemma ReasonableFirst(t: string)
    requires Contains(t, "reasonable")
    requires !Contains(t, "material") && !Contains(t, "best efforts")
    ensures MatchedTerms(t, TermTable[..3]) == [Reasonable]
  {
    ReasonableRow(t);
    assert TermTable[1] == Material && TermTable[2] == BestEfforts;
    TermRowMisses(t, 1);
    TermRowMisses(t, 2);
  }

  /** No term occurring means no term is listed. */
  lemma {:induction false} NoTermHits(t: string, k: nat)
    requires k <= |TermTable|
    requires forall id :: !Contains(t, Term(id))
    ensures MatchedTerms(t, TermTable[..k]) == []
    decreases k
  {
    if k > 0 {
      NoTermHits(t, k - 1);
      MatchedTermsStep(t, TermTable, k - 1);
    }
  }

  /** No pattern matching means no pattern is listed. */
  lemma {:induction false} NoPatternHits(t: string, k: nat)
    requires k <= |PatternTable|
    requires forall id :: !Search(t, PatternOf(id))
    ensures MatchedPatterns(t, PatternTable[..k]) == []
    decreases k
  {
    if k > 0 {
      NoPatternHits(t, k - 1);
      MatchedPatternsStep(t, PatternTable, k - 1);
    }
  }

  /** A clause nothing matches has no findings and LOW severity. */
  lemma NothingMatchesLow(e: Edition, t: string)
    requires forall id :: !Contains(t, Term(id))
    requires forall id :: !Search(t, PatternOf(id))
    ensures AmbiguityFindings(e, t) == [] && RiskFindings(e, t) == []
    ensures Severity(Weights(t)) == Low
  {
    NoTermHits(t, |TermTable|);
    assert TermTable[..|TermTable|] == TermTable;
    NoPatternHits(t, |PatternTable|);
    assert PatternTable[..|PatternTable|] == PatternTable;
    ScoreTableFollowsFindings(e, t);
  }

  // ---------------------------------------------------------------------
  // Contract type

  /** Every table weight is at least 1, so no finding reads LOW; only the
      weight-1 term reads MEDIUM. */
  lemma NoFindingIsLow(f: Finding)
    ensures f.RiskLevel() != Low
    ensures f.RiskLevel() == Medium <==> f.entry.Weight() == 1
  {
  }

  /** The two editions agree unless the text says "statement of work". */
  lemma EditionsClassifyAlike(t: string)
    requires !Contains(t, "statement of work")
    ensures Classify(Api, t) == Classify(Vercel, t)
  {
    if ContainsAny(t, ServiceKeywords(Api)) {
      var k :| 0 <= k < 4 && Contains(t, ServiceKeywords(Api)[k]);
      assert k < 3;
      assert ServiceKeywords(Api)[k] == ServiceKeywords(Vercel)[k];
    }
    if ContainsAny(t, ServiceKeywords(Vercel)) {
      var k :| 0 <= k < 3 && Contains(t, ServiceKeywords(Vercel)[k]);
      assert ServiceKeywords(Api)[k] == ServiceKeywords(Vercel)[k];
    }
  }

  /** Text whose only classifier keyword is "statement of work" is a
      Service Agreement in `api/analyze.py` and a General Contract in
      `api/index.py`. */
  lemma StatementOfWorkOnly(t: string)
    requires Contains(t, "statement of work")
    requires !ContainsAny(t, EmploymentKeywords) && !ContainsAny(t, ServiceKeywords(Vercel))
    requires !ContainsAny(t, NdaKeywords)
    ensures Classify(Api, t) == Service
    ensures Classify(Vercel, t) == GeneralContract
  {
    assert Contains(t, ServiceKeywords(Api)[3]);
  }

  /** An employment keyword wins whatever other keywords occur. */
  lemma EmploymentWins(e: Edition, t: string, k: int)
    requires 0 <= k < |EmploymentKeywords| && Contains(t, EmploymentKeywords[k])
    ensures Classify(e, t) == Employment
  {
  }

  /** The contract is General exactly when no keyword of any group occurs. */
  lemma GeneralIffNoKeyword(e: Edition, t: string)
    ensures Classify(e, t) == GeneralContract <==>
      !ContainsAny(t, EmploymentKeywords + ServiceKeywords(e) + NdaKeywords)
  {
    var ks := EmploymentKeywords + ServiceKeywords(e) + NdaKeywords;
    if ContainsAny(t, ks) {
      var k :| 0 <= k < |ks| && Contains(t, ks[k]);
      if k < 5 {
        assert ks[k] == EmploymentKeywords[k];
      } else if k < 5 + |ServiceKeywords(e)| {
        assert ks[k] == ServiceKeywords(e)[k - 5];
      } else {
        assert ks[k] == NdaKeywords[k - 5 - |ServiceKeywords(e)|];
      }
    }
    if Classify(e, t) != GeneralContract {
      if ContainsAny(t, EmploymentKeywords) {
        var k :| 0 <= k < 5 && Contains(t, EmploymentKeywords[k]);
        assert ks[k] == EmploymentKeywords[k];
      } else if ContainsAny(t, ServiceKeywords(e)) {
        var k :| 0 <= k < |ServiceKeywords(e)| && Contains(t, ServiceKeywords(e)[k]);
        assert ks[5 + k] == ServiceKeywords(e)[k];
      } else {
        var k :| 0 <= k < 3 && Contains(t, NdaKeywords[k]);
        assert ks[5 + |ServiceKeywords(e)| + k] == NdaKeywords[k];
      }
    }
  }

  // ---------------------------------------------------------------------
  // Recommendations

  /** `immediate` and `general` split the recommendations: every finding's
      recommendation lands in exactly one of them. */
  lemma RecommendationsPartition(fs: seq<Finding>)
    ensures |Immediate(fs)| + |General(fs)| == |fs|
    ensures multiset(Immediate(fs)) + multiset(General(fs)) == multiset(Mapped(fs, RecommendationOf))
  {
    FilteredPartition(fs, IsUrgent, IsRoutine, RecommendationOf);
  }

  /** Filtering the ambiguities followed by the risks is filtering each in
      turn: order is kept, ambiguities first. */
  lemma ImmediateConcat(a: seq<Finding>, b: seq<Finding>)
    ensures Immediate(a + b) == Immediate(a) + Immediate(b)
  {
    FilteredConcat(a, b, IsUrgent, RecommendationOf);
  }

  lemma GeneralConcat(a: seq<Finding>, b: seq<Finding>)
    ensures General(a + b) == General(a) + General(b)
  {
    FilteredConcat(a, b, IsRoutine, RecommendationOf);
  }

  /** A recommendation is immediate exactly when some HIGH or CRITICAL
      finding carries it. */
  lemma ImmediateIff(fs: seq<Finding>, s: string)
    ensures s in Immediate(fs) <==>
      exists i :: 0 <= i < |fs| && fs[i].RiskLevel().Urgent() && fs[i].Recommendation() == s
  {
    if s in Immediate(fs) {
      var i := FilteredSource(fs, IsUrgent, RecommendationOf, s);
    }
    if exists i :: 0 <= i < |fs| && fs[i].RiskLevel().Urgent() && fs[i].Recommendation() == s {
      var i :| 0 <= i < |fs| && fs[i].RiskLevel().Urgent() && fs[i].Recommendation() == s;
      FilteredKeeps(fs, IsUrgent, RecommendationOf, i);
    }
  }
}

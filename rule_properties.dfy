/** What `analyze_legal_clause` of `app.py` and `simple_gradio_app.py`
    promises, proved about the reference definition `ReportFor` that the
    method `RuleAnalyzer.AnalyzeClause` is proved to compute. */
module RuleProperties {
  import opened Text
  import opened RuleCatalog
  import opened RuleAnalyzer

  // ---------------------------------------------------------------------
  // The rule table and the check table

  /** The rules of the table are pairwise distinct. */
  lemma RuleIndexOf(k: nat)
    requires k < |AllRules|
    ensures RuleIndex(AllRules[k]) == k
  {
  }

  lemma GapIndexOf(k: nat)
    requires k < |AllGaps|
    ensures GapIndex(AllGaps[k]) == k
  {
  }

  /** Every item the first `n` blocks append to list `g` is the message of a
      block among them that writes `g` and whose condition held. */
  lemma {:induction false} CollectedFired(t: string, n: nat, g: Target)
    requires n <= |AllRules|
    ensures forall m :: m in Collected(t, n, g) ==>
      && m.Said? && m.target == g && Writes(m.rule, g) && Guard(m.rule, t) && RuleIndex(m.rule) < n
  {
    if n > 0 {
      var rule := AllRules[n - 1];
      var tail := if Guard(rule, t) && Writes(rule, g) then [Said(rule, g)] else [];
      CollectedFired(t, n - 1, g);
      RuleIndexOf(n - 1);
      assert Collected(t, n, g) == Collected(t, n - 1, g) + tail;
    }
  }

  /** ... and the items come in block order. */
  lemma {:induction false} CollectedInOrder(t: string, n: nat, g: Target)
    requires n <= |AllRules|
    ensures forall i :: 0 <= i < |Collected(t, n, g)| ==>
      && Collected(t, n, g)[i].Said? && Collected(t, n, g)[i].target == g
      && Writes(Collected(t, n, g)[i].rule, g) && Guard(Collected(t, n, g)[i].rule, t)
      && RuleIndex(Collected(t, n, g)[i].rule) < n
    ensures forall i, j :: 0 <= i < j < |Collected(t, n, g)| ==>
      RuleIndex(Collected(t, n, g)[i].rule) < RuleIndex(Collected(t, n, g)[j].rule)
  {
    var ms := Collected(t, n, g);
    CollectedFired(t, n, g);
    assert forall i :: 0 <= i < |ms| ==> ms[i] in ms;
    if n > 0 {
      var rule := AllRules[n - 1];
      var init := Collected(t, n - 1, g);
      CollectedInOrder(t, n - 1, g);
      RuleIndexOf(n - 1);
      assert ms == init + (if Guard(rule, t) && Writes(rule, g) then [Said(rule, g)] else []);
      forall i, j | 0 <= i < j < |ms| ensures RuleIndex(ms[i].rule) < RuleIndex(ms[j].rule) {
        if j < |init| {
          assert ms[i] == init[i] && ms[j] == init[j];
        } else {
          assert ms[i] == init[i];
          assert ms[j].rule == rule;
        }
      }
    }
  }

  /** A block among the first `n` that writes `g` and whose condition holds
      has its message in list `g`. */
  lemma {:induction false} CollectedHas(t: string, n: nat, g: Target, r: Rule)
    requires n <= |AllRules| && RuleIndex(r) < n && Writes(r, g) && Guard(r, t)
    ensures Said(r, g) in Collected(t, n, g)
  {
    var rule := AllRules[n - 1];
    var tail := if Guard(rule, t) && Writes(rule, g) then [Said(rule, g)] else [];
    assert Collected(t, n, g) == Collected(t, n - 1, g) + tail;
    if RuleIndex(r) < n - 1 {
      CollectedHas(t, n - 1, g, r);
    } else {
      assert rule == r;
      assert tail == [Said(r, g)];
    }
  }

  /** A block's message is in list `g` exactly when the block is among the
      first `n`, writes `g`, and its condition holds. */
  lemma CollectedIff(t: string, n: nat, g: Target, r: Rule)
    requires n <= |AllRules|
    ensures Said(r, g) in Collected(t, n, g) <==> RuleIndex(r) < n && Writes(r, g) && Guard(r, t)
  {
    CollectedFired(t, n, g);
    if RuleIndex(r) < n && Writes(r, g) && Guard(r, t) {
      CollectedHas(t, n, g, r);
    }
  }

  /** Running fewer blocks gives a prefix of each list: the fifteen blocks of
      `simple_gradio_app.py` fill the lists as the first fifteen of `app.py`. */
  lemma {:induction false} CollectedPrefix(t: string, m: nat, n: nat, g: Target)
    requires m <= n <= |AllRules|
    ensures Collected(t, m, g) <= Collected(t, n, g)
    decreases n
  {
    if m < n {
      CollectedPrefix(t, m, n - 1, g);
    }
  }

  /** A list is left empty by the blocks exactly when no block writing to it
      fired. */
  lemma CollectedEmptyIff(t: string, n: nat, g: Target)
    requires n <= |AllRules|
    ensures Collected(t, n, g) == [] <==>
      forall r :: RuleIndex(r) < n && Writes(r, g) ==> !Guard(r, t)
  {
    var ms := Collected(t, n, g);
    if ms != [] {
      CollectedInOrder(t, n, g);
      var r := ms[0].rule;
      assert RuleIndex(r) < n && Writes(r, g) && Guard(r, t);
    } else {
      forall r | RuleIndex(r) < n && Writes(r, g)
        ensures !Guard(r, t)
      {
        CollectedIff(t, n, g, r);
      }
    }
  }

  /** The missing-clause notes are the notes of failed checks, in check order. */
  lemma {:induction false} GapsInOrder(t: string, n: nat)
    requires n <= |AllGaps|
    ensures forall i :: 0 <= i < |GapsMissing(t, n)| ==>
      && GapsMissing(t, n)[i].GapNote? && GapIndex(GapsMissing(t, n)[i].gap) < n
      && !ContainsAny(t, GapKeywords(GapsMissing(t, n)[i].gap))
    ensures forall i, j :: 0 <= i < j < |GapsMissing(t, n)| ==>
      GapIndex(GapsMissing(t, n)[i].gap) < GapIndex(GapsMissing(t, n)[j].gap)
  {
    if n > 0 {
      GapsInOrder(t, n - 1);
      GapIndexOf(n - 1);
    }
  }

  /** A check's note is added exactly when none of its keywords occurs. */
  lemma {:induction false} GapsIff(t: string, n: nat, gap: Gap)
    requires n <= |AllGaps|
    ensures GapNote(gap) in GapsMissing(t, n) <==> GapIndex(gap) < n && !ContainsAny(t, GapKeywords(gap))
  {
    if n > 0 {
      GapsIff(t, n - 1, gap);
      GapIndexOf(n - 1);
    }
  }

  // ---------------------------------------------------------------------
  // The report

  /** Every item the blocks append to list `g` is a message of that list. */
  lemma CollectedValid(t: string, n: nat, g: Target)
    requires n <= |AllRules|
    ensures forall m :: m in Collected(t, n, g) ==> ValidIn(m, g)
  {
    CollectedInOrder(t, n, g);
  }

  /** Truncation keeps only items of the list. */
  lemma TakeValid(ms: seq<Message>, n: nat, g: Target)
    requires forall m :: m in ms ==> ValidIn(m, g)
    ensures forall m :: m in Take(ms, n) ==> ValidIn(m, g)
  {
    var r := Take(ms, n);
    forall m | m in r ensures ValidIn(m, g) {
      var k :| 0 <= k < |r| && r[k] == m;
      assert ms[k] == m;
    }
  }

  /** A list with a default item holds only messages of that list. */
  lemma DefaultListValid(v: Variant, t: string, g: Target)
    requires g in {Ambiguities, Risks, Recommendations}
    ensures forall m :: m in OrDefault(Collected(t, RuleCount(v), g), DefaultNote(g)) ==> ValidIn(m, g)
  {
    CollectedValid(t, RuleCount(v), g);
  }

  /** Every item of the report is a message of the list it is in, so each
      renders through `MessageText`. */
  lemma ReportItemsValid(v: Variant, t: string)
    ensures forall m :: m in ReportFor(v, t).ambiguities ==> ValidIn(m, Ambiguities)
    ensures forall m :: m in ReportFor(v, t).risks ==> ValidIn(m, Risks)
    ensures forall m :: m in ReportFor(v, t).recommendations ==> ValidIn(m, Recommendations)
    ensures forall m :: m in ReportFor(v, t).missingElements ==> ValidIn(m, Missing)
    ensures forall m :: m in ReportFor(v, t).references ==> ValidIn(m, References)
  {
    var n := RuleCount(v);
    DefaultListValid(v, t, Ambiguities);
    TakeValid(AmbiguityList(v, t), 5, Ambiguities);
    DefaultListValid(v, t, Risks);
    TakeValid(RiskList(v, t), 5, Risks);
    DefaultListValid(v, t, Recommendations);
    TakeValid(RecommendationList(v, t), 5, Recommendations);
    CollectedValid(t, n, Missing);
    GapsInOrder(t, GapCount(v));
    assert forall m :: m in MissingList(v, t) ==> ValidIn(m, Missing);
    TakeValid(MissingList(v, t), 4, Missing);
    CollectedValid(t, n, References);
    assert forall m :: m in ReferenceList(v, t) ==> ValidIn(m, References);
    TakeValid(ReferenceList(v, t), 3, References);
  }

  /** Ambiguities, risks and recommendations are never empty and hold at
      most five items; at most four missing elements; one to three
      references. */
  lemma ReportBounds(v: Variant, t: string)
    ensures 1 <= |ReportFor(v, t).ambiguities| <= 5
    ensures 1 <= |ReportFor(v, t).risks| <= 5
    ensures 1 <= |ReportFor(v, t).recommendations| <= 5
    ensures |ReportFor(v, t).missingElements| <= 4
    ensures 1 <= |ReportFor(v, t).references| <= 3
  {
  }

  /** The count in `keyFinding` is taken after the defaults and before the
      truncation, so it is at least two and may exceed what the report shows. */
  lemma KeyFindingCount(v: Variant, t: string)
    ensures ReportFor(v, t).keyFinding == KeyFindingLine(|AmbiguityList(v, t)| + |RiskList(v, t)|)
    ensures |AmbiguityList(v, t)| + |RiskList(v, t)| >= 2
    ensures |AmbiguityList(v, t)| + |RiskList(v, t)| >= |ReportFor(v, t).ambiguities| + |ReportFor(v, t).risks|
  {
    var a, r := AmbiguityList(v, t), RiskList(v, t);
    assert ReportFor(v, t) == Assemble(v, a, r, RecommendationList(v, t), MissingList(v, t), ReferenceList(v, t));
  }

  /** A list guarded by a default holds exactly the default item when no
      block writing to it fired. */
  lemma DefaultIff(t: string, n: nat, g: Target)
    requires n <= |AllRules|
    ensures Take(OrDefault(Collected(t, n, g), DefaultNote(g)), 5) == [DefaultNote(g)] <==>
      forall r :: RuleIndex(r) < n && Writes(r, g) ==> !Guard(r, t)
  {
    CollectedEmptyIff(t, n, g);
    CollectedInOrder(t, n, g);
    if Collected(t, n, g) != [] {
      assert Take(Collected(t, n, g), 5)[0] == Collected(t, n, g)[0];
    }
  }

  /** A clause that fires no ambiguity block gets exactly the default
      ambiguity, and only such a clause does. */
  lemma DefaultAmbiguity(v: Variant, t: string)
    ensures ReportFor(v, t).ambiguities == [DefaultNote(Ambiguities)] <==>
      forall r :: RuleIndex(r) < RuleCount(v) && Writes(r, Ambiguities) ==> !Guard(r, t)
  {
    DefaultIff(t, RuleCount(v), Ambiguities);
  }

  lemma DefaultRisk(v: Variant, t: string)
    ensures ReportFor(v, t).risks == [DefaultNote(Risks)] <==>
      forall r :: RuleIndex(r) < RuleCount(v) && Writes(r, Risks) ==> !Guard(r, t)
  {
    DefaultIff(t, RuleCount(v), Risks);
  }

  lemma DefaultRecommendation(v: Variant, t: string)
    ensures ReportFor(v, t).recommendations == [DefaultNote(Recommendations)] <==>
      forall r :: RuleIndex(r) < RuleCount(v) && Writes(r, Recommendations) ==> !Guard(r, t)
  {
    DefaultIff(t, RuleCount(v), Recommendations);
  }

  /** `app.py`: with no cited reference the report lists exactly the two
      general references; otherwise the first three cited ones and no
      general reference. */
  lemma AppReferences(t: string)
    ensures Collected(t, RuleCount(GradioApp), References) == [] ==>
      ReportFor(GradioApp, t).references == GeneralReferences
    ensures Collected(t, RuleCount(GradioApp), References) != [] ==>
      && ReportFor(GradioApp, t).references == Take(Collected(t, RuleCount(GradioApp), References), 3)
      && General(Restatement) !in ReportFor(GradioApp, t).references
      && General(Ucc) !in ReportFor(GradioApp, t).references
    ensures Collected(t, RuleCount(GradioApp), References) == [] <==>
      forall r :: Writes(r, References) ==> !Guard(r, t)
  {
    var cited := Collected(t, RuleCount(GradioApp), References);
    CollectedInOrder(t, RuleCount(GradioApp), References);
    CollectedEmptyIff(t, RuleCount(GradioApp), References);
    assert forall r :: RuleIndex(r) < RuleCount(GradioApp);
  }

  /** `simple_gradio_app.py`: the general references always follow the cited
      ones before the cut, so the list is never empty and shows the
      Restatement whenever fewer than three references were cited. */
  lemma SimpleReferences(t: string)
    ensures ReportFor(SimpleGradioApp, t).references ==
      Take(Collected(t, RuleCount(SimpleGradioApp), References) + GeneralReferences, 3)
    ensures ReportFor(SimpleGradioApp, t).references != []
    ensures |Collected(t, RuleCount(SimpleGradioApp), References)| < 3 ==>
      General(Restatement) in ReportFor(SimpleGradioApp, t).references
  {
    var cited := Collected(t, RuleCount(SimpleGradioApp), References);
    if |cited| < 3 {
      assert (cited + GeneralReferences)[|cited|] == General(Restatement);
      assert ReportFor(SimpleGradioApp, t).references[|cited|] == General(Restatement);
    }
  }

  /** The reported missing elements are content notes up to the number of
      content notes, and check notes after that. */
  lemma MissingLayout(v: Variant, t: string)
    ensures var ms, n := ReportFor(v, t).missingElements, |Collected(t, RuleCount(v), Missing)|;
      forall k :: 0 <= k < |ms| ==> (ms[k].Said? <==> k < n)
  {
    var content := Collected(t, RuleCount(v), Missing);
    var gaps := GapsMissing(t, GapCount(v));
    CollectedFired(t, RuleCount(v), Missing);
    GapsInOrder(t, GapCount(v));
    var ms := ReportFor(v, t).missingElements;
    assert ms == (content + gaps)[..|ms|];
    forall k | 0 <= k < |ms|
      ensures ms[k].Said? <==> k < |content|
    {
      if k < |content| {
        assert ms[k] == content[k];
        assert content[k] in content;
      } else {
        assert ms[k] == gaps[k - |content|];
      }
    }
  }

  /** Missing elements: notes of content blocks come before the notes of the
      missing-clause checks, so four content notes push out every check's
      note. */
  lemma MissingContentFirst(v: Variant, t: string)
    ensures forall i, j :: (0 <= i < j < |ReportFor(v, t).missingElements| &&
      ReportFor(v, t).missingElements[j].Said?) ==> ReportFor(v, t).missingElements[i].Said?
    ensures |Collected(t, RuleCount(v), Missing)| >= 4 ==>
      forall gap :: GapNote(gap) !in ReportFor(v, t).missingElements
  {
    MissingLayout(v, t);
    ReportBounds(v, t);
  }

  /** The untruncated missing list gains a check's note exactly when the
      check runs in this copy and none of its keywords occurs. */
  lemma GapNoteIff(v: Variant, t: string, gap: Gap)
    ensures GapNote(gap) in MissingList(v, t) <==>
      GapIndex(gap) < GapCount(v) && !ContainsAny(t, GapKeywords(gap))
  {
    CollectedInOrder(t, RuleCount(v), Missing);
    GapsIff(t, GapCount(v), gap);
  }

  /** `simple_gradio_app.py` runs only the governing-law, dispute and
      amendment checks. */
  lemma SimpleThreeChecks(t: string)
    ensures GapNote(Integration) !in MissingList(SimpleGradioApp, t)
    ensures GapNote(Severability) !in MissingList(SimpleGradioApp, t)
  {
    GapNoteIff(SimpleGradioApp, t, Integration);
    GapNoteIff(SimpleGradioApp, t, Severability);
  }

  /** `'dispute'` or `'arbitration'` adds the choice-of-law note and
      suppresses the dispute-resolution note; the two never appear together. */
  lemma DisputeNotesExclusive(v: Variant, t: string)
    ensures Said(DisputeTerms, Missing) in MissingList(v, t) <==>
      Contains(t, "dispute") || Contains(t, "arbitration")
    ensures GapNote(DisputeResolution) in MissingList(v, t) <==>
      !Contains(t, "dispute") && !Contains(t, "arbitration") && !Contains(t, "litigation")
    ensures !(Said(DisputeTerms, Missing) in MissingList(v, t) && GapNote(DisputeResolution) in MissingList(v, t))
  {
    var keywords := GapKeywords(DisputeResolution);
    assert keywords[0] == "dispute" && keywords[1] == "arbitration" && keywords[2] == "litigation";
    GapsInOrder(t, GapCount(v));
    CollectedIff(t, RuleCount(v), Missing, DisputeTerms);
    GapNoteIff(v, t, DisputeResolution);
  }

  /** The `'material'` ambiguity needs `'breach'` or `'change'` as well. */
  lemma MaterialNeedsContext(v: Variant, t: string)
    ensures Said(MaterialTerm, Ambiguities) in AmbiguityList(v, t) <==>
      Contains(t, "material") && (Contains(t, "breach") || Contains(t, "change"))
  {
    CollectedIff(t, RuleCount(v), Ambiguities, MaterialTerm);
  }

  /** The irrevocable-assignment risk needs both `'irrevocably'` and `'assign'`. */
  lemma IrrevocableNeedsBoth(v: Variant, t: string)
    ensures Said(IrrevocableAssignment, Risks) in RiskList(v, t) <==>
      Contains(t, "irrevocably") && Contains(t, "assign")
  {
    CollectedIff(t, RuleCount(v), Risks, IrrevocableAssignment);
  }

  /** Before defaults, each list of `simple_gradio_app.py` is a prefix of the
      same list of `app.py`, and it never holds the messages of the two
      blocks only `app.py` has. */
  lemma SimpleIsPrefix(t: string, g: Target)
    ensures Collected(t, RuleCount(SimpleGradioApp), g) <= Collected(t, RuleCount(GradioApp), g)
    ensures Said(LiquidatedDamages, g) !in Collected(t, RuleCount(SimpleGradioApp), g)
    ensures Said(ClassActionWaiver, g) !in Collected(t, RuleCount(SimpleGradioApp), g)
  {
    CollectedPrefix(t, RuleCount(SimpleGradioApp), RuleCount(GradioApp), g);
    CollectedIff(t, RuleCount(SimpleGradioApp), g, LiquidatedDamages);
    CollectedIff(t, RuleCount(SimpleGradioApp), g, ClassActionWaiver);
  }
}

/** The fixed data of the rule-based analyzer `analyze_legal_clause` of
    `app.py` and `simple_gradio_app.py`: its keyword rules, which lists
    each rule writes to, its missing-clause checks, and the messages it
    writes. `simple_gradio_app.py` runs the first fifteen rules and the
    first three checks of `app.py`, with the same messages. */
module RuleCatalog {
  import opened Text

  /** Which copy of the analyzer: `app.py` or `simple_gradio_app.py`. */
  datatype Variant = GradioApp | SimpleGradioApp

  /** The five lists the analyzer fills. */
  datatype Target = Ambiguities | Risks | Recommendations | Missing | References

  /** The guarded blocks, in source order. */
  datatype Rule =
    | ReasonableTerm | BestEffortsTerm | MaterialTerm | Confidentiality | Termination
    | Liability | ForceMajeure | IntellectualProperty | Payment | DisputeTerms
    | Offshore | IrrevocableAssignment | Perpetuity | AutomaticApproval | AuditWaiver
    | LiquidatedDamages | ClassActionWaiver

  const AllRules: seq<Rule> := [
    ReasonableTerm, BestEffortsTerm, MaterialTerm, Confidentiality, Termination,
    Liability, ForceMajeure, IntellectualProperty, Payment, DisputeTerms,
    Offshore, IrrevocableAssignment, Perpetuity, AutomaticApproval, AuditWaiver,
    LiquidatedDamages, ClassActionWaiver]

  /** How many blocks a variant runs: `simple_gradio_app.py` stops before
      the liquidated-damages rule. */
  function RuleCount(v: Variant): (n: nat)
    ensures n <= |AllRules|
    ensures n == |AllRules| <==> v == GradioApp
  {
    match v
    case GradioApp => 17
    case SimpleGradioApp => 15
  }

  /** Where a rule sits in the source order. */
  function RuleIndex(r: Rule): (k: nat)
    ensures k < |AllRules| && AllRules[k] == r
  {
    match r
    case ReasonableTerm => 0
    case BestEffortsTerm => 1
    case MaterialTerm => 2
    case Confidentiality => 3
    case Termination => 4
    case Liability => 5
    case ForceMajeure => 6
    case IntellectualProperty => 7
    case Payment => 8
    case DisputeTerms => 9
    case Offshore => 10
    case IrrevocableAssignment => 11
    case Perpetuity => 12
    case AutomaticApproval => 13
    case AuditWaiver => 14
    case LiquidatedDamages => 15
    case ClassActionWaiver => 16
  }

  /** The condition guarding each block, on the lower-cased clause. */
  predicate Guard(r: Rule, t: string)
  {
    match r
    case ReasonableTerm => Contains(t, "reasonable")
    case BestEffortsTerm => Contains(t, "best efforts") || Contains(t, "best endeavors")
    case MaterialTerm => Contains(t, "material") && (Contains(t, "breach") || Contains(t, "change"))
    case Confidentiality => Contains(t, "confidential")
    case Termination => Contains(t, "terminate") || Contains(t, "termination")
    case Liability => Contains(t, "liability") || Contains(t, "damages")
    case ForceMajeure => Contains(t, "force majeure") || Contains(t, "act of god")
    case IntellectualProperty => Contains(t, "intellectual property") || Contains(t, " ip ")
    case Payment => Contains(t, "payment") || Contains(t, "fee")
    case DisputeTerms => Contains(t, "dispute") || Contains(t, "arbitration")
    case Offshore => Contains(t, "shady") || Contains(t, "cayman")
    case IrrevocableAssignment => Contains(t, "irrevocably") && Contains(t, "assign")
    case Perpetuity => Contains(t, "perpetuity") || Contains(t, "throughout the universe")
    case AutomaticApproval => Contains(t, "deemed granted") || Contains(t, "automatically")
    case AuditWaiver => Contains(t, "waiver") && (Contains(t, "audit") || Contains(t, "oversight"))
    case LiquidatedDamages => Contains(t, "liquidated damages")
    case ClassActionWaiver => Contains(t, "class action") && Contains(t, "waiver")
  }

  /** Whether a block appends to a list. */
  predicate Writes(r: Rule, g: Target)
  {
    match g
    case Ambiguities =>
      r in {ReasonableTerm, BestEffortsTerm, MaterialTerm, ForceMajeure, Payment, AutomaticApproval, LiquidatedDamages}
    case Risks =>
      r in {Confidentiality, Termination, Liability, IntellectualProperty, Offshore, IrrevocableAssignment,
            Perpetuity, AuditWaiver, ClassActionWaiver}
    case Recommendations => r != IntellectualProperty
    case Missing => r in {Confidentiality, Termination, IntellectualProperty, DisputeTerms}
    case References => r in {BestEffortsTerm, Liability, IntellectualProperty, LiquidatedDamages, ClassActionWaiver}
  }

  /** The standard clauses whose absence is reported, in check order. */
  datatype Gap = GoverningLaw | DisputeResolution | Amendment | Integration | Severability

  const AllGaps: seq<Gap> := [GoverningLaw, DisputeResolution, Amendment, Integration, Severability]

  /** `simple_gradio_app.py` runs only the first three checks. */
  function GapCount(v: Variant): (n: nat)
    ensures n <= |AllGaps|
    ensures n == |AllGaps| <==> v == GradioApp
  {
    match v
    case GradioApp => 5
    case SimpleGradioApp => 3
  }

  function GapIndex(g: Gap): (k: nat)
    ensures k < |AllGaps| && AllGaps[k] == g
  {
    match g
    case GoverningLaw => 0
    case DisputeResolution => 1
    case Amendment => 2
    case Integration => 3
    case Severability => 4
  }

  /** A clause is present when any of its keywords occurs. */
  function GapKeywords(g: Gap): seq<string>
  {
    match g
    case GoverningLaw => ["governing law", "applicable law"]
    case DisputeResolution => ["dispute", "arbitration", "litigation"]
    case Amendment => ["amendment", "modification"]
    case Integration => ["entire agreement", "integration"]
    case Severability => ["severability", "severable"]
  }

  /** The two general references. */
  datatype GeneralRef = Restatement | Ucc

  /** An item of one of the lists: a rule's message for that list, a
      missing-clause note, a list's default item, or a general reference. */
  datatype Message =
    | Said(rule: Rule, target: Target)
    | GapNote(gap: Gap)
    | DefaultNote(list: Target)
    | General(ref: GeneralRef)

  /** The messages the analyzer can write to list `g`. */
  predicate ValidIn(m: Message, g: Target)
  {
    match m
    case Said(r, h) => h == g && Writes(r, g)
    case GapNote(_) => g == Missing
    case DefaultNote(h) => h == g && g in {Ambiguities, Risks, Recommendations}
    case General(_) => g == References
  }

  /** The text of a message. */
  function MessageText(m: Message, g: Target): string
    requires ValidIn(m, g)
  {
    match m
    case GapNote(GoverningLaw) => "Governing law clause"
    case GapNote(DisputeResolution) => "Dispute resolution mechanism"
    case GapNote(Amendment) => "Contract amendment procedures"
    case GapNote(Integration) => "Integration/entire agreement clause"
    case GapNote(Severability) => "Severability clause"
    case DefaultNote(Ambiguities) => "Contract language could benefit from more specific definitions"
    case DefaultNote(Risks) => "Standard legal review recommended to identify potential liabilities"
    case DefaultNote(_) => "Consider engaging qualified legal counsel for comprehensive review"
    case General(Restatement) => "Restatement (Second) of Contracts"
    case General(Ucc) => "Uniform Commercial Code (UCC)"
    case Said(r, _) => RuleText(r, g)
  }

  function RuleText(r: Rule, g: Target): string
    requires Writes(r, g)
  {
    match (r, g)
    case (ReasonableTerm, Ambiguities) =>
      "Term 'reasonable' is subjective and may lead to disputes over interpretation"
    case (ReasonableTerm, _) =>
      "Define specific criteria, timeframes, or benchmarks for what constitutes 'reasonable'"
    case (BestEffortsTerm, Ambiguities) =>
      "'Best efforts' standard lacks clear definition and enforcement criteria"
    case (BestEffortsTerm, Recommendations) =>
      "Replace with 'commercially reasonable efforts' or define specific performance metrics"
    case (BestEffortsTerm, _) =>
      "Case law: Bloor Italian Gifts Ltd. v. Dixon (reasonable vs. best efforts)"
    case (MaterialTerm, Ambiguities) =>
      "Definition of 'material' is not specified and subject to interpretation"
    case (MaterialTerm, _) =>
      "Define materiality thresholds with specific examples or percentage/dollar amounts"
    case (Confidentiality, Risks) =>
      "Scope of confidentiality obligations may be overly broad or insufficiently defined"
    case (Confidentiality, Recommendations) =>
      "Clearly define categories of confidential information with specific exclusions"
    case (Confidentiality, _) =>
      "Confidentiality carve-outs for publicly available information"
    case (Termination, Risks) =>
      "Termination conditions and procedures may create enforcement difficulties"
    case (Termination, Recommendations) =>
      "Specify exact termination procedures, notice requirements, and cure periods"
    case (Termination, _) =>
      "Post-termination obligations and survival clauses"
    case (Liability, Risks) =>
      "Liability exposure may be inadequately limited or undefined"
    case (Liability, Recommendations) =>
      "Add comprehensive liability limitation and damages cap clauses"
    case (Liability, _) =>
      "Uniform Commercial Code provisions on consequential damages"
    case (ForceMajeure, Ambiguities) =>
      "Force majeure events may not cover modern risks (e.g., cyber attacks, pandemics)"
    case (ForceMajeure, _) =>
      "Update force majeure clause to include contemporary risk factors"
    case (IntellectualProperty, Risks) =>
      "Intellectual property ownership and licensing terms may be unclear"
    case (IntellectualProperty, Missing) =>
      "IP indemnification and warranty provisions"
    case (IntellectualProperty, _) =>
      "Copyright Act and Patent Act provisions"
    case (Payment, Ambiguities) =>
      "Payment terms, schedules, and late payment consequences unclear"
    case (Payment, _) =>
      "Specify exact payment amounts, due dates, and late payment penalties"
    case (DisputeTerms, Recommendations) =>
      "Ensure dispute resolution mechanism is enforceable in relevant jurisdictions"
    case (DisputeTerms, _) =>
      "Choice of law and venue provisions"
    case (Offshore, Risks) =>
      "Offshore jurisdiction may limit legal protections and enforcement options"
    case (Offshore, _) =>
      "Consider requiring disputes be resolved in more favorable jurisdiction"
    case (IrrevocableAssignment, Risks) =>
      "Irrevocable assignment clauses provide no recourse for the assigning party"
    case (IrrevocableAssignment, _) =>
      "Add limitations on scope and duration of assignments"
    case (Perpetuity, Risks) =>
      "Overly broad temporal and geographic scope may be unenforceable"
    case (Perpetuity, _) =>
      "Limit scope to reasonable time periods and jurisdictions"
    case (AutomaticApproval, Ambiguities) =>
      "Automatic approval mechanisms may not provide adequate oversight"
    case (AutomaticApproval, _) =>
      "Require explicit approval for important decisions"
    case (AuditWaiver, Risks) =>
      "Waiver of audit/oversight rights eliminates important protections"
    case (AuditWaiver, _) =>
      "Preserve essential audit and oversight rights"
    case (LiquidatedDamages, Ambiguities) =>
      "Liquidated damages may be challenged if deemed punitive rather than compensatory"
    case (LiquidatedDamages, Recommendations) =>
      "Ensure liquidated damages reflect reasonable estimate of actual damages"
    case (LiquidatedDamages, _) =>
      "Restatement (Second) of Contracts \U{00A7} 356"
    case (ClassActionWaiver, Risks) =>
      "Class action waivers may be unenforceable in certain jurisdictions"
    case (ClassActionWaiver, Recommendations) =>
      "Check enforceability under applicable state and federal law"
    case (ClassActionWaiver, _) =>
      "AT&T Mobility LLC v. Concepcion (2011)"
  }
}

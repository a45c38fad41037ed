/** The static data of the catalog-driven analyzer: the risk levels, the
    ambiguous-term table and the high-risk pattern table. The analyzer ships
    in two editions, `api/analyze.py` (answering with a JSON text) and
    `api/index.py` (answering with a dictionary); their tables hold the same
    keys, weights and patterns and differ only in some of the explanatory
    texts and in one contract-type keyword. */
module EnhancedCatalog {
  import opened Text

  /** Which copy of the analyzer: `api/analyze.py` or `api/index.py`. */
  datatype Edition = Api | Vercel

  /** A finding's or a report's risk level, in increasing order. */
  datatype Level = Low | Medium | High | Critical
  {
    function Rank(): nat
    {
      match this
      case Low => 0
      case Medium => 1
      case High => 2
      case Critical => 3
    }

    function Name(): string
    {
      match this
      case Low => "LOW"
      case Medium => "MEDIUM"
      case High => "HIGH"
      case Critical => "CRITICAL"
    }

    /** Levels that send a recommendation to the "immediate" list and add a
        warning line to the key findings. */
    predicate Urgent()
    {
      this == High || this == Critical
    }
  }

  /** The lookup `['LOW', 'MEDIUM', 'HIGH', 'CRITICAL'][min(weight, 3)]`. */
  function LevelOf(weight: nat): (r: Level)
    ensures r.Rank() == if weight < 3 then weight else 3
  {
    var table := [Low, Medium, High, Critical];
    table[if weight < 3 then weight else 3]
  }

  /** The entries of the ambiguous-term table. */
  datatype TermId = Reasonable | Material | BestEfforts | Timely | ProfessionalManner

  /** The entries of the high-risk pattern table. */
  datatype PatternId =
    UnlimitedLiability | IrrevocableAssignment | UnlimitedDuration
    | OffshoreJurisdiction | ClassActionWaiver | AuditWaiver

  /** The ambiguous-term dictionary, in insertion order. */
  const TermTable: seq<TermId> := [Reasonable, Material, BestEfforts, Timely, ProfessionalManner]

  /** The high-risk pattern list, in list order. */
  const PatternTable: seq<PatternId> :=
    [UnlimitedLiability, IrrevocableAssignment, UnlimitedDuration, OffshoreJurisdiction, ClassActionWaiver, AuditWaiver]

  /** Where an entry sits in its table. */
  function TermIndex(id: TermId): (k: nat)
    ensures k < |TermTable| && TermTable[k] == id
  {
    match id
    case Reasonable => 0
    case Material => 1
    case BestEfforts => 2
    case Timely => 3
    case ProfessionalManner => 4
  }

  function PatternIndex(id: PatternId): (k: nat)
    ensures k < |PatternTable| && PatternTable[k] == id
  {
    match id
    case UnlimitedLiability => 0
    case IrrevocableAssignment => 1
    case UnlimitedDuration => 2
    case OffshoreJurisdiction => 3
    case ClassActionWaiver => 4
    case AuditWaiver => 5
  }

  /** The dictionary key, which is also the substring searched for. */
  function Term(id: TermId): string
  {
    match id
    case Reasonable => "reasonable"
    case Material => "material"
    case BestEfforts => "best efforts"
    case Timely => "timely"
    case ProfessionalManner => "professional manner"
  }

  function TermRisk(id: TermId): nat
  {
    match id
    case BestEfforts => 3
    case ProfessionalManner => 1
    case _ => 2
  }

  /** The regular expression, as an alternation of chains. */
  function PatternOf(id: PatternId): Pattern
  {
    match id
    // unlimited liability|any and all damages|no limitation.*liability|liable.*all.*damages
    case UnlimitedLiability =>
      [["unlimited liability"], ["any and all damages"], ["no limitation", "liability"], ["liable", "all", "damages"]]
    // irrevocably.*assign|irrevocable.*assignment
    case IrrevocableAssignment => [["irrevocably", "assign"], ["irrevocable", "assignment"]]
    // perpetuity|throughout.*universe|forever
    case UnlimitedDuration => [["perpetuity"], ["throughout", "universe"], ["forever"]]
    // cayman.*law|cayman islands
    case OffshoreJurisdiction => [["cayman", "law"], ["cayman islands"]]
    // class action.*waiver|waiving.*class action
    case ClassActionWaiver => [["class action", "waiver"], ["waiving", "class action"]]
    // waiver.*audit|waiving.*audit
    case AuditWaiver => [["waiver", "audit"], ["waiving", "audit"]]
  }

  function PatternRisk(id: PatternId): nat
  {
    match id
    case UnlimitedLiability => 4
    case ClassActionWaiver => 2
    case _ => 3
  }

  /** The pattern's `name`, which is also its dictionary key. */
  function PatternName(id: PatternId): string
  {
    match id
    case UnlimitedLiability => "Unlimited liability exposure"
    case IrrevocableAssignment => "Irrevocable assignment"
    case UnlimitedDuration => "Unlimited duration"
    case OffshoreJurisdiction => "Offshore jurisdiction"
    case ClassActionWaiver => "Class action waiver"
    case AuditWaiver => "Audit rights waiver"
  }

  /** The explanatory texts of an entry. */
  datatype Texts = Texts(description: string, plainEnglish: string, recommendation: string)

  function TermTexts(e: Edition, id: TermId): Texts
  {
    match (e, id)
    case (Api, Reasonable) => Texts(
      "Subjective standard that may lead to disputes",
      "The word \"reasonable\" means different things to different people",
      "Define specific criteria, timeframes, or benchmarks for what constitutes \"reasonable\"")
    case (Vercel, Reasonable) => Texts(
      "Subjective standard that may lead to disputes",
      "The word \"reasonable\" means different things to different people",
      "Define specific criteria, timeframes, or benchmarks")
    case (Api, Material) => Texts(
      "Undefined materiality threshold creates interpretation risk",
      "What counts as \"material\" should be clearly defined with numbers or examples",
      "Specify dollar amounts, percentages, or concrete examples of materiality")
    case (Vercel, Material) => Texts(
      "Undefined materiality threshold creates interpretation risk",
      "What counts as \"material\" should be clearly defined with numbers",
      "Specify dollar amounts, percentages, or concrete examples")
    case (Api, BestEfforts) => Texts(
      "Highest standard of performance with unclear boundaries",
      "\"Best efforts\" could mean unlimited obligation - very risky for you",
      "Replace with \"commercially reasonable efforts\" with defined performance metrics")
    case (Vercel, BestEfforts) => Texts(
      "Highest standard of performance with unclear boundaries",
      "\"Best efforts\" could mean unlimited obligation - very risky",
      "Replace with \"commercially reasonable efforts\" with defined metrics")
    case (_, Timely) => Texts(
      "Vague timeframe creates potential scheduling disputes",
      "Always use specific dates instead of vague terms like \"timely\"",
      "Specify exact deadlines, timeframes, and delivery dates")
    case (Api, ProfessionalManner) => Texts(
      "Subjective performance standard without clear definition",
      "Describe exactly what \"professional\" means in this specific context",
      "Define specific quality standards or industry benchmarks for professional performance")
    case (Vercel, ProfessionalManner) => Texts(
      "Subjective performance standard without clear definition",
      "Describe exactly what \"professional\" means in this context",
      "Define specific quality standards or industry benchmarks")
  }

  function PatternTexts(e: Edition, id: PatternId): Texts
  {
    match (e, id)
    case (_, UnlimitedLiability) => Texts(
      "Exposes party to potentially catastrophic financial risk",
      "This could bankrupt you - always limit your liability exposure",
      "Add liability caps and exclude consequential damages")
    case (Api, IrrevocableAssignment) => Texts(
      "Permanent transfer of rights with no recourse or reversal option",
      "Once you sign this, you can never get these rights back",
      "Add termination conditions and scope limitations to assignments")
    case (Vercel, IrrevocableAssignment) => Texts(
      "Permanent transfer of rights with no recourse",
      "Once you sign this, you can never get these rights back",
      "Add termination conditions and scope limitations")
    case (_, UnlimitedDuration) => Texts(
      "Unlimited time duration may be legally unenforceable",
      "Forever is too long - courts may not enforce overly broad terms",
      "Limit scope to reasonable time periods and geographic areas")
    case (Api, OffshoreJurisdiction) => Texts(
      "Offshore jurisdiction may limit legal protections and enforcement",
      "Resolving disputes offshore may be difficult, expensive, and risky",
      "Consider requiring disputes be resolved in more favorable jurisdiction")
    case (Vercel, OffshoreJurisdiction) => Texts(
      "Offshore jurisdiction may limit legal protections",
      "Resolving disputes offshore may be difficult, expensive, and risky",
      "Consider requiring disputes be resolved in more favorable jurisdiction")
    case (_, ClassActionWaiver) => Texts(
      "Prevents joining group lawsuits against the other party",
      "You cannot join with others to sue - this may limit your legal options",
      "Verify enforceability under applicable state and federal law")
    case (_, AuditWaiver) => Texts(
      "Eliminates oversight and verification rights",
      "You are giving up the right to check if they are following the rules",
      "Preserve essential audit and oversight rights")
  }

  /** A row of either table: what a finding is about. */
  datatype Entry = TermEntry(term: TermId) | PatternEntry(pattern: PatternId)
  {
    /** The key the entry is stored under in the score dictionary. */
    function Key(): string
    {
      match this
      case TermEntry(id) => Term(id)
      case PatternEntry(id) => PatternName(id)
    }

    function Weight(): nat
    {
      match this
      case TermEntry(id) => TermRisk(id)
      case PatternEntry(id) => PatternRisk(id)
    }

    /** The finding's `issue` line. */
    function Issue(): string
    {
      match this
      case TermEntry(id) => "Ambiguous term: \"" + Term(id) + "\""
      case PatternEntry(id) => "High-risk clause: " + PatternName(id)
    }

    function Explanation(e: Edition): Texts
    {
      match this
      case TermEntry(id) => TermTexts(e, id)
      case PatternEntry(id) => PatternTexts(e, id)
    }
  }

  /** Contract-type keywords, tested in this order, first group that hits wins. */
  const EmploymentKeywords: seq<string> := ["employment", "employee", "employer", "salary", "benefits"]
  const NdaKeywords: seq<string> := ["confidential", "non-disclosure", "proprietary"]

  /** Only `api/analyze.py` lists "statement of work". */
  function ServiceKeywords(e: Edition): seq<string>
  {
    match e
    case Api => ["service", "contractor", "deliverable", "statement of work"]
    case Vercel => ["service", "contractor", "deliverable"]
  }
}

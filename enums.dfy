/**
 * The enumerations of the validation schemas (server/src/schema.ts). An
 * enumeration schema accepts exactly the strings listed in its declaration and
 * maps each to its option; every option here has a name, the string that
 * stands for it on the wire.
 */
module Enums {
  import opened Wrappers

  /** The first option called `s`: how an enumeration schema looks a string up among its options. */
  function FindByName<T(==)>(options: seq<T>, name: T -> string, s: string): (r: Option<T>)
    ensures r.Some? ==> r.value in options && name(r.value) == s
    ensures r.None? ==> forall t :: t in options ==> name(t) != s
  {
    if options == [] then None
    else if name(options[0]) == s then Some(options[0])
    else FindByName(options[1..], name, s)
  }

  /** The names of the options, in declaration order. */
  function Names<T>(options: seq<T>, name: T -> string): seq<string>
  {
    seq(|options|, i requires 0 <= i < |options| => name(options[i]))
  }

  /** No two options share a name. */
  ghost predicate DistinctNames<T>(options: seq<T>, name: T -> string)
  {
    forall a, b :: a in options && b in options && name(a) == name(b) ==> a == b
  }

  /** A string is accepted exactly when it is one of the names. */
  lemma FindByNameAccepts<T>(options: seq<T>, name: T -> string, s: string)
    ensures FindByName(options, name, s).Some? <==> s in Names(options, name)
  {
    var names := Names(options, name);
    var r := FindByName(options, name, s);
    if r.Some? {
      var i :| 0 <= i < |options| && options[i] == r.value;
      assert names[i] == s;
    }
    if s in names {
      var i :| 0 <= i < |names| && names[i] == s;
      assert options[i] in options;
    }
  }

  /** With distinct names, looking up an option's own name finds that option. */
  lemma FindByNameInverse<T>(options: seq<T>, name: T -> string, t: T)
    requires t in options
    requires DistinctNames(options, name)
    ensures FindByName(options, name, name(t)) == Some(t)
  {
  }

  // ----- projectStatusEnum (server/src/schema.ts:5) -----

  datatype ProjectStatus = Planned | Active | Completed | Suspended | Cancelled

  const ProjectStatuses: seq<ProjectStatus> := [Planned, Active, Completed, Suspended, Cancelled]

  function ProjectStatusName(t: ProjectStatus): string
  {
    match t
    case Planned => "planned"
    case Active => "active"
    case Completed => "completed"
    case Suspended => "suspended"
    case Cancelled => "cancelled"
  }

  function ParseProjectStatus(s: string): (r: Option<ProjectStatus>)
    ensures r.Some? <==> s in ["planned", "active", "completed", "suspended", "cancelled"]
    ensures r.Some? ==> ProjectStatusName(r.value) == s
  {
    FindByNameAccepts(ProjectStatuses, ProjectStatusName, s);
    FindByName(ProjectStatuses, ProjectStatusName, s)
  }

  lemma ProjectStatusRoundTrip(t: ProjectStatus)
    ensures ParseProjectStatus(ProjectStatusName(t)) == Some(t)
  {
    FindByNameInverse(ProjectStatuses, ProjectStatusName, t);
  }

  // ----- contractTypeEnum (server/src/schema.ts:6) -----
  datatype ContractType = Construction | Goods | Services | Consultancy
  const ContractTypes: seq<ContractType> := [Construction, Goods, Services, Consultancy]
  function ContractTypeName(t: ContractType): string
  {
    match t
    case Construction => "construction"
    case Goods => "goods"
    case Services => "services"
    case Consultancy => "consultancy"
  }
  function ParseContractType(s: string): (r: Option<ContractType>)
    ensures r.Some? <==> s in ["construction", "goods", "services", "consultancy"]
    ensures r.Some? ==> ContractTypeName(r.value) == s
  {
    FindByNameAccepts(ContractTypes, ContractTypeName, s);
    FindByName(ContractTypes, ContractTypeName, s)
  }
  lemma ContractTypeRoundTrip(t: ContractType)
    ensures ParseContractType(ContractTypeName(t)) == Some(t)
  {
    FindByNameInverse(ContractTypes, ContractTypeName, t);
  }

  // ----- riskLevelEnum (server/src/schema.ts:7) -----
  datatype RiskLevel = Low | Medium | High | Critical
  const RiskLevels: seq<RiskLevel> := [Low, Medium, High, Critical]
  function RiskLevelName(t: RiskLevel): string
  {
    match t
    case Low => "low"
    case Medium => "medium"
    case High => "high"
    case Critical => "critical"
  }
  function ParseRiskLevel(s: string): (r: Option<RiskLevel>)
    ensures r.Some? <==> s in ["low", "medium", "high", "critical"]
    ensures r.Some? ==> RiskLevelName(r.value) == s
  {
    FindByNameAccepts(RiskLevels, RiskLevelName, s);
    FindByName(RiskLevels, RiskLevelName, s)
  }
  lemma RiskLevelRoundTrip(t: RiskLevel)
    ensures ParseRiskLevel(RiskLevelName(t)) == Some(t)
  {
    FindByNameInverse(RiskLevels, RiskLevelName, t);
  }

  // ----- alertTypeEnum (server/src/schema.ts:9) -----
  datatype AlertType = BudgetOverflow | Delay | Anomaly | Completion
  const AlertTypes: seq<AlertType> := [BudgetOverflow, Delay, Anomaly, Completion]
  function AlertTypeName(t: AlertType): string
  {
    match t
    case BudgetOverflow => "budget_overflow"
    case Delay => "delay"
    case Anomaly => "anomaly"
    case Completion => "completion"
  }
  function ParseAlertType(s: string): (r: Option<AlertType>)
    ensures r.Some? <==> s in ["budget_overflow", "delay", "anomaly", "completion"]
    ensures r.Some? ==> AlertTypeName(r.value) == s
  {
    FindByNameAccepts(AlertTypes, AlertTypeName, s);
    FindByName(AlertTypes, AlertTypeName, s)
  }
  lemma AlertTypeRoundTrip(t: AlertType)
    ensures ParseAlertType(AlertTypeName(t)) == Some(t)
  {
    FindByNameInverse(AlertTypes, AlertTypeName, t);
  }

  // ----- engagementTypeEnum (server/src/schema.ts:10) -----
  datatype EngagementType = Feedback | Discussion | Survey | Complaint
  const EngagementTypes: seq<EngagementType> := [Feedback, Discussion, Survey, Complaint]
  function EngagementTypeName(t: EngagementType): string
  {
    match t
    case Feedback => "feedback"
    case Discussion => "discussion"
    case Survey => "survey"
    case Complaint => "complaint"
  }
  function ParseEngagementType(s: string): (r: Option<EngagementType>)
    ensures r.Some? <==> s in ["feedback", "discussion", "survey", "complaint"]
    ensures r.Some? ==> EngagementTypeName(r.value) == s
  {
    FindByNameAccepts(EngagementTypes, EngagementTypeName, s);
    FindByName(EngagementTypes, EngagementTypeName, s)
  }
  lemma EngagementTypeRoundTrip(t: EngagementType)
    ensures ParseEngagementType(EngagementTypeName(t)) == Some(t)
  {
    FindByNameInverse(EngagementTypes, EngagementTypeName, t);
  }

  // ----- the engagement status enumeration (server/src/schema.ts:135) -----
  datatype EngagementStatus = Pending | Reviewed | Responded
  const EngagementStatuses: seq<EngagementStatus> := [Pending, Reviewed, Responded]
  function EngagementStatusName(t: EngagementStatus): string
  {
    match t
    case Pending => "pending"
    case Reviewed => "reviewed"
    case Responded => "responded"
  }
  function ParseEngagementStatus(s: string): (r: Option<EngagementStatus>)
    ensures r.Some? <==> s in ["pending", "reviewed", "responded"]
    ensures r.Some? ==> EngagementStatusName(r.value) == s
  {
    FindByNameAccepts(EngagementStatuses, EngagementStatusName, s);
    FindByName(EngagementStatuses, EngagementStatusName, s)
  }
  lemma EngagementStatusRoundTrip(t: EngagementStatus)
    ensures ParseEngagementStatus(EngagementStatusName(t)) == Some(t)
  {
    FindByNameInverse(EngagementStatuses, EngagementStatusName, t);
  }

  // ----- the analysis type enumeration (server/src/schema.ts:160) -----
  datatype AnalysisType = AnomalyDetection | CompletionPrediction | BudgetAnalysis | RiskAssessment
  const AnalysisTypes: seq<AnalysisType> := [AnomalyDetection, CompletionPrediction, BudgetAnalysis, RiskAssessment]
  function AnalysisTypeName(t: AnalysisType): string
  {
    match t
    case AnomalyDetection => "anomaly_detection"
    case CompletionPrediction => "completion_prediction"
    case BudgetAnalysis => "budget_analysis"
    case RiskAssessment => "risk_assessment"
  }
  function ParseAnalysisType(s: string): (r: Option<AnalysisType>)
    ensures r.Some? <==> s in ["anomaly_detection", "completion_prediction", "budget_analysis", "risk_assessment"]
    ensures r.Some? ==> AnalysisTypeName(r.value) == s
  {
    FindByNameAccepts(AnalysisTypes, AnalysisTypeName, s);
    FindByName(AnalysisTypes, AnalysisTypeName, s)
  }
  lemma AnalysisTypeRoundTrip(t: AnalysisType)
    ensures ParseAnalysisType(AnalysisTypeName(t)) == Some(t)
  {
    FindByNameInverse(AnalysisTypes, AnalysisTypeName, t);
  }

  // ----- the report type enumeration (server/src/schema.ts:173) -----
  datatype ReportType = Transparency | Audit | Financial | Progress
  const ReportTypes: seq<ReportType> := [Transparency, Audit, Financial, Progress]
  function ReportTypeName(t: ReportType): string
  {
    match t
    case Transparency => "transparency"
    case Audit => "audit"
    case Financial => "financial"
    case Progress => "progress"
  }
  function ParseReportType(s: string): (r: Option<ReportType>)
    ensures r.Some? <==> s in ["transparency", "audit", "financial", "progress"]
    ensures r.Some? ==> ReportTypeName(r.value) == s
  {
    FindByNameAccepts(ReportTypes, ReportTypeName, s);
    FindByName(ReportTypes, ReportTypeName, s)
  }
  lemma ReportTypeRoundTrip(t: ReportType)
    ensures ParseReportType(ReportTypeName(t)) == Some(t)
  {
    FindByNameInverse(ReportTypes, ReportTypeName, t);
  }
}

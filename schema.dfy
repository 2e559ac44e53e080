/**
 * The records and input schemas of server/src/schema.ts.
 *
 * Each input schema is a function from a request payload to either the typed
 * input or the list of issues found, every issue under its field's key. A
 * payload is accepted when every field is valid, which is exactly when the
 * collected issue list is empty. The typed input is stated valid by a
 * predicate written out field by field, and each creation schema has a
 * payload encoding that it parses back to the same input. The stored-record
 * schemas are records with a predicate for the ranges they declare.
 */
module Schema {
  import opened Wrappers
  import opened Values
  import opened Enums
  import opened Fields

  /** The issues of a whole payload that is not an object. */
  const NotAnObject: seq<Issue> := [Issue([], InvalidType)]

  /** The key every creation handler gives its record until a database assigns one. */
  const PlaceholderId: real := 0.0

  // ===== projects =====

  /** A stored project (projectSchema). */
  datatype Project = Project(
    id: real,
    name: string,
    description: string,
    budget: real,
    allocatedFunds: real,
    actualExpenditures: real,
    startDate: Date,
    endDate: Date,
    status: ProjectStatus,
    contractType: ContractType,
    location: string,
    contractor: Option<string>,
    transparencyScore: real,
    riskScore: real,
    aiCompletionPrediction: Option<real>,
    aiBudgetOverflowRisk: Option<real>,
    createdAt: Date,
    updatedAt: Date)

  /** A score on the 0 to 100 scale, both ends included. */
  predicate IsPercentage(x: real)
  {
    0.0 <= x <= 100.0
  }

  /** The ranges projectSchema declares: scores in [0,100], the AI estimates absent or in [0,100]. */
  predicate ValidProject(p: Project)
  {
    && IsPercentage(p.transparencyScore)
    && IsPercentage(p.riskScore)
    && (p.aiCompletionPrediction.Some? ==> IsPercentage(p.aiCompletionPrediction.value))
    && (p.aiBudgetOverflowRisk.Some? ==> IsPercentage(p.aiBudgetOverflowRisk.value))
  }

  /** `min(0).max(100)`: the checks of every score and estimate of a stored project. */
  const PercentageChecks: seq<NumberCheck> := [Min(0.0, true), Max(100.0, true)]

  /** The stored-project ranges are exactly what the score schemas accept. */
  lemma ValidProjectMatchesScoreSchemas(p: Project)
    ensures ValidProject(p) <==>
      && ParseNumber(Num(p.transparencyScore), PercentageChecks).Valid?
      && ParseNumber(Num(p.riskScore), PercentageChecks).Valid?
      && (p.aiCompletionPrediction.Some? ==> ParseNumber(Num(p.aiCompletionPrediction.value), PercentageChecks).Valid?)
      && (p.aiBudgetOverflowRisk.Some? ==> ParseNumber(Num(p.aiBudgetOverflowRisk.value), PercentageChecks).Valid?)
  {
    PercentageAccepted(p.transparencyScore);
    PercentageAccepted(p.riskScore);
    if p.aiCompletionPrediction.Some? {
      PercentageAccepted(p.aiCompletionPrediction.value);
    }
    if p.aiBudgetOverflowRisk.Some? {
      PercentageAccepted(p.aiBudgetOverflowRisk.value);
    }
  }

  lemma PercentageAccepted(x: real)
    ensures IsPercentage(x) <==> ParseNumber(Num(x), PercentageChecks).Valid?
  {
    assert NumberHolds(x, PercentageChecks[0]) <==> 0.0 <= x;
    assert NumberHolds(x, PercentageChecks[1]) <==> x <= 100.0;
  }

  /** The input of project creation (createProjectInputSchema). */
  datatype CreateProjectInput = CreateProjectInput(
    name: string,
    description: string,
    budget: real,
    allocatedFunds: real,
    actualExpenditures: real,
    startDate: Date,
    endDate: Date,
    status: ProjectStatus,
    contractType: ContractType,
    location: string,
    contractor: Option<string>)

  /**
   * Non-empty name, description and location; a positive budget; funds and
   * expenditures of zero or more. Nothing relates the amounts to each other,
   * nor the end date to the start date.
   */
  predicate ValidCreateProjectInput(x: CreateProjectInput)
  {
    && |x.name| >= 1
    && |x.description| >= 1
    && x.budget > 0.0
    && x.allocatedFunds >= 0.0
    && x.actualExpenditures >= 0.0
    && |x.location| >= 1
  }

  /**
   * The payload `o` holds the project creation input `x`: each field under
   * its key, the dates as values that coerce to them, the options by name.
   * Keys the schema does not declare may come along.
   */
  predicate IsCreateProjectPayload(zod: Zod, o: map<string, Value>, x: CreateProjectInput)
  {
    && Holds(o, "name", Str(x.name))
    && Holds(o, "description", Str(x.description))
    && Holds(o, "budget", Num(x.budget))
    && Holds(o, "allocated_funds", Num(x.allocatedFunds))
    && Holds(o, "actual_expenditures", Num(x.actualExpenditures))
    && HoldsDate(zod, o, "start_date", x.startDate)
    && HoldsDate(zod, o, "end_date", x.endDate)
    && Holds(o, "status", Str(ProjectStatusName(x.status)))
    && Holds(o, "contract_type", Str(ContractTypeName(x.contractType)))
    && Holds(o, "location", Str(x.location))
    && Holds(o, "contractor", NullableString(x.contractor))
  }

  function ParseCreateProjectInput(zod: Zod, payload: Value): (r: Result<CreateProjectInput, seq<Issue>>)
    ensures r.Ok? ==> ValidCreateProjectInput(r.value)
    ensures r.Ok? ==> payload.Obj? && IsCreateProjectPayload(zod, payload.fields, r.value)
    ensures r.Err? ==> r.error != []
    ensures !payload.Obj? ==> r == Err(NotAnObject)
  {
    match payload
    case Obj(o) =>
      var name := RequiredField(o, "name", StringOf(zod, [MinLength(1)]));
      var description := RequiredField(o, "description", StringOf(zod, [MinLength(1)]));
      var budget := RequiredField(o, "budget", NumberOf([Positive]));
      var allocatedFunds := RequiredField(o, "allocated_funds", NumberOf([Nonnegative]));
      var actualExpenditures := RequiredField(o, "actual_expenditures", NumberOf([Nonnegative]));
      var startDate := DateField(zod, o, "start_date");
      var endDate := DateField(zod, o, "end_date");
      var status := RequiredField(o, "status", EnumOf(ParseProjectStatus));
      var contractType := RequiredField(o, "contract_type", EnumOf(ParseContractType));
      var location := RequiredField(o, "location", StringOf(zod, [MinLength(1)]));
      var contractor := RequiredField(o, "contractor", NullableOf(StringOf(zod, [])));
      var issues :=
        IssuesAt("name", name) + IssuesAt("description", description) + IssuesAt("budget", budget)
        + IssuesAt("allocated_funds", allocatedFunds) + IssuesAt("actual_expenditures", actualExpenditures)
        + IssuesAt("start_date", startDate) + IssuesAt("end_date", endDate) + IssuesAt("status", status)
        + IssuesAt("contract_type", contractType) + IssuesAt("location", location)
        + IssuesAt("contractor", contractor);
      var accepted := name.Valid? && description.Valid? && budget.Valid? && allocatedFunds.Valid?
        && actualExpenditures.Valid? && startDate.Valid? && endDate.Valid? && status.Valid?
        && contractType.Valid? && location.Valid? && contractor.Valid?;
      if !accepted then
        // an invalid field contributes at least one issue
        assert |issues| == |IssuesAt("name", name)| + |IssuesAt("description", description)|
          + |IssuesAt("budget", budget)| + |IssuesAt("allocated_funds", allocatedFunds)|
          + |IssuesAt("actual_expenditures", actualExpenditures)| + |IssuesAt("start_date", startDate)|
          + |IssuesAt("end_date", endDate)| + |IssuesAt("status", status)|
          + |IssuesAt("contract_type", contractType)| + |IssuesAt("location", location)|
          + |IssuesAt("contractor", contractor)|;
        Err(issues)
      else
        // what each accepted field's checks guarantee
        StringFieldHolds(zod, o, "name", MinLength(1));
        StringFieldHolds(zod, o, "description", MinLength(1));
        NumberFieldHolds(o, "budget", Positive);
        NumberFieldHolds(o, "allocated_funds", Nonnegative);
        NumberFieldHolds(o, "actual_expenditures", Nonnegative);
        StringFieldHolds(zod, o, "location", MinLength(1));
        // and that each accepted value is the one the payload holds
        CreateProjectFieldsHeld(zod, o);
        Ok(CreateProjectInput(
          name.value, description.value, budget.value, allocatedFunds.value, actualExpenditures.value,
          startDate.value, endDate.value, status.value, contractType.value, location.value, contractor.value))
    case _ => Err(NotAnObject)
  }

  lemma CreateProjectFieldsHeld(zod: Zod, o: map<string, Value>)
    ensures var name := RequiredField(o, "name", StringOf(zod, [MinLength(1)]));
      name.Valid? ==> Holds(o, "name", Str(name.value))
    ensures var description := RequiredField(o, "description", StringOf(zod, [MinLength(1)]));
      description.Valid? ==> Holds(o, "description", Str(description.value))
    ensures var budget := RequiredField(o, "budget", NumberOf([Positive]));
      budget.Valid? ==> Holds(o, "budget", Num(budget.value))
    ensures var funds := RequiredField(o, "allocated_funds", NumberOf([Nonnegative]));
      funds.Valid? ==> Holds(o, "allocated_funds", Num(funds.value))
    ensures var spent := RequiredField(o, "actual_expenditures", NumberOf([Nonnegative]));
      spent.Valid? ==> Holds(o, "actual_expenditures", Num(spent.value))
    ensures var start := DateField(zod, o, "start_date");
      start.Valid? ==> HoldsDate(zod, o, "start_date", start.value)
    ensures var end := DateField(zod, o, "end_date");
      end.Valid? ==> HoldsDate(zod, o, "end_date", end.value)
    ensures var status := RequiredField(o, "status", EnumOf(ParseProjectStatus));
      status.Valid? ==> Holds(o, "status", Str(ProjectStatusName(status.value)))
    ensures var contractType := RequiredField(o, "contract_type", EnumOf(ParseContractType));
      contractType.Valid? ==> Holds(o, "contract_type", Str(ContractTypeName(contractType.value)))
    ensures var location := RequiredField(o, "location", StringOf(zod, [MinLength(1)]));
      location.Valid? ==> Holds(o, "location", Str(location.value))
    ensures var contractor := RequiredField(o, "contractor", NullableOf(StringOf(zod, [])));
      contractor.Valid? ==> Holds(o, "contractor", NullableString(contractor.value))
  {
    StringFieldHeld(zod, o, "name", [MinLength(1)]);
    StringFieldHeld(zod, o, "description", [MinLength(1)]);
    NumberFieldHeld(o, "budget", [Positive]);
    NumberFieldHeld(o, "allocated_funds", [Nonnegative]);
    NumberFieldHeld(o, "actual_expenditures", [Nonnegative]);
    DateFieldHeld(zod, o, "start_date");
    DateFieldHeld(zod, o, "end_date");
    EnumFieldHeld(o, "status", ParseProjectStatus);
    EnumFieldHeld(o, "contract_type", ParseContractType);
    StringFieldHeld(zod, o, "location", [MinLength(1)]);
    NullableStringFieldHeld(zod, o, "contractor", []);
  }

  /** A payload is accepted as `x` exactly when `x` is valid and the payload holds it. */
  lemma CreateProjectInputAcceptedExactly(zod: Zod, o: map<string, Value>, x: CreateProjectInput)
    ensures ParseCreateProjectInput(zod, Obj(o)) == Ok(x)
      <==> ValidCreateProjectInput(x) && IsCreateProjectPayload(zod, o, x)
  {
    var r := ParseCreateProjectInput(zod, Obj(o));
    if ValidCreateProjectInput(x) && IsCreateProjectPayload(zod, o, x) {
      CreateProjectPayloadText(zod, o, x);
      CreateProjectPayloadAmounts(o, x);
      CreateProjectPayloadChoices(zod, o, x);
      assert r == Ok(x);
    }
  }

  lemma CreateProjectPayloadText(zod: Zod, o: map<string, Value>, x: CreateProjectInput)
    requires ValidCreateProjectInput(x)
    requires IsCreateProjectPayload(zod, o, x)
    ensures
      && RequiredField(o, "name", StringOf(zod, [MinLength(1)])) == Valid(x.name)
      && RequiredField(o, "description", StringOf(zod, [MinLength(1)])) == Valid(x.description)
      && RequiredField(o, "location", StringOf(zod, [MinLength(1)])) == Valid(x.location)
      && RequiredField(o, "contractor", NullableOf(StringOf(zod, []))) == Valid(x.contractor)
  {
    StringFieldAccepts(zod, o, "name", [MinLength(1)], x.name);
    StringFieldAccepts(zod, o, "description", [MinLength(1)], x.description);
    StringFieldAccepts(zod, o, "location", [MinLength(1)], x.location);
    NullableStringFieldAccepts(zod, o, "contractor", [], x.contractor);
  }

  lemma CreateProjectPayloadAmounts(o: map<string, Value>, x: CreateProjectInput)
    requires ValidCreateProjectInput(x)
    requires Holds(o, "budget", Num(x.budget))
    requires Holds(o, "allocated_funds", Num(x.allocatedFunds))
    requires Holds(o, "actual_expenditures", Num(x.actualExpenditures))
    ensures
      && RequiredField(o, "budget", NumberOf([Positive])) == Valid(x.budget)
      && RequiredField(o, "allocated_funds", NumberOf([Nonnegative])) == Valid(x.allocatedFunds)
      && RequiredField(o, "actual_expenditures", NumberOf([Nonnegative])) == Valid(x.actualExpenditures)
  {
    NumberFieldAccepts(o, "budget", [Positive], x.budget);
    NumberFieldAccepts(o, "allocated_funds", [Nonnegative], x.allocatedFunds);
    NumberFieldAccepts(o, "actual_expenditures", [Nonnegative], x.actualExpenditures);
  }

  lemma CreateProjectPayloadChoices(zod: Zod, o: map<string, Value>, x: CreateProjectInput)
    requires IsCreateProjectPayload(zod, o, x)
    ensures
      && DateField(zod, o, "start_date") == Valid(x.startDate)
      && DateField(zod, o, "end_date") == Valid(x.endDate)
      && RequiredField(o, "status", EnumOf(ParseProjectStatus)) == Valid(x.status)
      && RequiredField(o, "contract_type", EnumOf(ParseContractType)) == Valid(x.contractType)
  {
    DateFieldAccepts(zod, o, "start_date", x.startDate);
    DateFieldAccepts(zod, o, "end_date", x.endDate);
    ProjectStatusRoundTrip(x.status);
    EnumFieldAccepts(o, "status", ParseProjectStatus, ProjectStatusName, x.status);
    ContractTypeRoundTrip(x.contractType);
    EnumFieldAccepts(o, "contract_type", ParseContractType, ContractTypeName, x.contractType);
  }

  /** A payload holds at most one project creation input. */
  lemma CreateProjectPayloadUnique(zod: Zod, o: map<string, Value>, x: CreateProjectInput, y: CreateProjectInput)
    requires IsCreateProjectPayload(zod, o, x) && IsCreateProjectPayload(zod, o, y)
    ensures x == y
  {
    ProjectStatusRoundTrip(x.status);
    ProjectStatusRoundTrip(y.status);
    ContractTypeRoundTrip(x.contractType);
    ContractTypeRoundTrip(y.contractType);
    assert x.startDate == y.startDate && x.endDate == y.endDate;
    assert x.contractor == y.contractor by {
      assert NullableString(x.contractor) == NullableString(y.contractor);
    }
  }

  /** The payload a client sends for a project creation input. */
  function CreateProjectPayload(x: CreateProjectInput): Value
  {
    Obj(map[
      "name" := Str(x.name),
      "description" := Str(x.description),
      "budget" := Num(x.budget),
      "allocated_funds" := Num(x.allocatedFunds),
      "actual_expenditures" := Num(x.actualExpenditures),
      "start_date" := Time(x.startDate),
      "end_date" := Time(x.endDate),
      "status" := Str(ProjectStatusName(x.status)),
      "contract_type" := Str(ContractTypeName(x.contractType)),
      "location" := Str(x.location),
      "contractor" := NullableString(x.contractor)])
  }

  lemma CreateProjectPayloadHolds(zod: Zod, x: CreateProjectInput)
    requires KeepsDates(zod)
    ensures CreateProjectPayload(x).Obj? && IsCreateProjectPayload(zod, CreateProjectPayload(x).fields, x)
  {
    assert zod.coerceDate(Time(x.startDate)) == Some(x.startDate);
    assert zod.coerceDate(Time(x.endDate)) == Some(x.endDate);
  }

  /** The payload of an input is accepted exactly when the input is valid, and then gives the input back. */
  lemma CreateProjectInputRoundTrip(zod: Zod, x: CreateProjectInput)
    requires KeepsDates(zod)
    ensures ParseCreateProjectInput(zod, CreateProjectPayload(x)).Ok? <==> ValidCreateProjectInput(x)
    ensures ValidCreateProjectInput(x) ==> ParseCreateProjectInput(zod, CreateProjectPayload(x)) == Ok(x)
  {
    CreateProjectPayloadHolds(zod, x);
    var o := CreateProjectPayload(x).fields;
    CreateProjectInputAcceptedExactly(zod, o, x);
    var r := ParseCreateProjectInput(zod, Obj(o));
    if r.Ok? {
      CreateProjectPayloadUnique(zod, o, x, r.value);
    }
  }

  /** A non-positive budget is refused, and the refusal names the budget field. */
  lemma CreateProjectRejectsNonPositiveBudget(zod: Zod, o: map<string, Value>, n: real)
    requires "budget" in o && o["budget"] == Num(n) && n <= 0.0
    ensures ParseCreateProjectInput(zod, Obj(o)).Err?
    ensures Issue(["budget"], TooSmall) in ParseCreateProjectInput(zod, Obj(o)).error
  {
    var budget := RequiredField(o, "budget", NumberOf([Positive]));
    assert !NumberHolds(n, [Positive][0]);
    assert TooSmall in budget.Codes();
    IssuesAtKey("budget", budget);
  }

  /**
   * A missing start date is refused as an invalid date: the date is coerced
   * before it is looked at, so its absence is not reported as a missing key.
   */
  lemma CreateProjectMissingStartDateIsInvalidDate(zod: Zod, o: map<string, Value>)
    requires "start_date" !in o
    ensures ParseCreateProjectInput(zod, Obj(o)).Err?
    ensures Issue(["start_date"], InvalidDate) in ParseCreateProjectInput(zod, Obj(o)).error
  {
    IssuesAtKey("start_date", DateField(zod, o, "start_date"));
  }

  /**
   * The schema relates neither the funds nor the expenditures to the budget,
   * nor the end date to the start date: a payload whose allocation and
   * spending exceed its budget and whose dates run backwards is accepted.
   */
  lemma CreateProjectAllowsUnorderedAmountsAndDates(zod: Zod)
    requires KeepsDates(zod)
    ensures exists x: CreateProjectInput ::
      && ParseCreateProjectInput(zod, CreateProjectPayload(x)) == Ok(x)
      && x.allocatedFunds > x.budget
      && x.actualExpenditures > x.budget
      && x.endDate < x.startDate
  {
    var x := CreateProjectInput("Jalan Tol", "Toll road", 100.0, 150.0, 200.0, 2, 1, Active, Construction, "Jakarta", None);
    CreateProjectInputRoundTrip(zod, x);
  }

  /** A key the schema does not declare is dropped: adding one changes nothing in the outcome. */
  lemma CreateProjectIgnoresUndeclaredKeys(zod: Zod, o: map<string, Value>, k: string, v: Value)
    requires k !in {"name", "description", "budget", "allocated_funds", "actual_expenditures", "start_date",
                    "end_date", "status", "contract_type", "location", "contractor"}
    ensures ParseCreateProjectInput(zod, Obj(o[k := v])) == ParseCreateProjectInput(zod, Obj(o))
  {
    FieldIgnoresOtherKey(o, k, v, "name", StringOf(zod, [MinLength(1)]));
    FieldIgnoresOtherKey(o, k, v, "description", StringOf(zod, [MinLength(1)]));
    FieldIgnoresOtherKey(o, k, v, "budget", NumberOf([Positive]));
    FieldIgnoresOtherKey(o, k, v, "allocated_funds", NumberOf([Nonnegative]));
    FieldIgnoresOtherKey(o, k, v, "actual_expenditures", NumberOf([Nonnegative]));
    DateFieldIgnoresOtherKey(zod, o, k, v, "start_date");
    DateFieldIgnoresOtherKey(zod, o, k, v, "end_date");
    FieldIgnoresOtherKey(o, k, v, "status", EnumOf(ParseProjectStatus));
    FieldIgnoresOtherKey(o, k, v, "contract_type", EnumOf(ParseContractType));
    FieldIgnoresOtherKey(o, k, v, "location", StringOf(zod, [MinLength(1)]));
    FieldIgnoresOtherKey(o, k, v, "contractor", NullableOf(StringOf(zod, [])));
    var r := ParseCreateProjectInput(zod, Obj(o));
    if r.Ok? {
      // the same fields are accepted, so the same input is built
      assert ParseCreateProjectInput(zod, Obj(o[k := v])) == r;
    }
  }

  /** The input of a project update (updateProjectInputSchema): only the key is required. */
  datatype UpdateProjectInput = UpdateProjectInput(
    id: real,
    name: Option<string>,
    description: Option<string>,
    budget: Option<real>,
    allocatedFunds: Option<real>,
    actualExpenditures: Option<real>,
    startDate: Option<Date>,
    endDate: Option<Date>,
    status: Option<ProjectStatus>,
    contractType: Option<ContractType>,
    location: Option<string>,
    contractor: Option<Option<string>>)  // Some(None): the contractor is set to null

  /** Each field that is present obeys the rule it has in project creation. */
  predicate ValidUpdateProjectInput(x: UpdateProjectInput)
  {
    && (x.name.Some? ==> |x.name.value| >= 1)
    && (x.description.Some? ==> |x.description.value| >= 1)
    && (x.budget.Some? ==> x.budget.value > 0.0)
    && (x.allocatedFunds.Some? ==> x.allocatedFunds.value >= 0.0)
    && (x.actualExpenditures.Some? ==> x.actualExpenditures.value >= 0.0)
    && (x.location.Some? ==> |x.location.value| >= 1)
  }

  function ParseUpdateProjectInput(zod: Zod, payload: Value): (r: Result<UpdateProjectInput, seq<Issue>>)
    ensures r.Ok? ==> ValidUpdateProjectInput(r.value)
    ensures r.Ok? ==> payload.Obj? && IsUpdateProjectPayload(zod, payload.fields, r.value)
    ensures r.Err? ==> r.error != []
    ensures !payload.Obj? ==> r == Err(NotAnObject)
  {
    match payload
    case Obj(o) =>
      var id := RequiredField(o, "id", NumberOf([]));
      var name := OptionalField(o, "name", StringOf(zod, [MinLength(1)]));
      var description := OptionalField(o, "description", StringOf(zod, [MinLength(1)]));
      var budget := OptionalField(o, "budget", NumberOf([Positive]));
      var allocatedFunds := OptionalField(o, "allocated_funds", NumberOf([Nonnegative]));
      var actualExpenditures := OptionalField(o, "actual_expenditures", NumberOf([Nonnegative]));
      var startDate := OptionalField(o, "start_date", DateOf(zod));
      var endDate := OptionalField(o, "end_date", DateOf(zod));
      var status := OptionalField(o, "status", EnumOf(ParseProjectStatus));
      var contractType := OptionalField(o, "contract_type", EnumOf(ParseContractType));
      var location := OptionalField(o, "location", StringOf(zod, [MinLength(1)]));
      var contractor := OptionalField(o, "contractor", NullableOf(StringOf(zod, [])));
      var issues :=
        IssuesAt("id", id) + IssuesAt("name", name) + IssuesAt("description", description)
        + IssuesAt("budget", budget) + IssuesAt("allocated_funds", allocatedFunds)
        + IssuesAt("actual_expenditures", actualExpenditures) + IssuesAt("start_date", startDate)
        + IssuesAt("end_date", endDate) + IssuesAt("status", status) + IssuesAt("contract_type", contractType)
        + IssuesAt("location", location) + IssuesAt("contractor", contractor);
      var accepted := id.Valid? && name.Valid? && description.Valid? && budget.Valid? && allocatedFunds.Valid?
        && actualExpenditures.Valid? && startDate.Valid? && endDate.Valid? && status.Valid?
        && contractType.Valid? && location.Valid? && contractor.Valid?;
      if !accepted then
        // an invalid field contributes at least one issue
        assert |issues| == |IssuesAt("id", id)| + |IssuesAt("name", name)|
          + |IssuesAt("description", description)| + |IssuesAt("budget", budget)|
          + |IssuesAt("allocated_funds", allocatedFunds)|
          + |IssuesAt("actual_expenditures", actualExpenditures)| + |IssuesAt("start_date", startDate)|
          + |IssuesAt("end_date", endDate)| + |IssuesAt("status", status)|
          + |IssuesAt("contract_type", contractType)| + |IssuesAt("location", location)|
          + |IssuesAt("contractor", contractor)|;
        Err(issues)
      else
        // what each accepted field's checks guarantee
        OptionalStringFieldHolds(zod, o, "name", MinLength(1));
        OptionalStringFieldHolds(zod, o, "description", MinLength(1));
        OptionalNumberFieldHolds(o, "budget", Positive);
        OptionalNumberFieldHolds(o, "allocated_funds", Nonnegative);
        OptionalNumberFieldHolds(o, "actual_expenditures", Nonnegative);
        OptionalStringFieldHolds(zod, o, "location", MinLength(1));
        // and that each accepted value is the one the payload holds
        UpdateProjectFieldsHeld(zod, o);
        UpdateProjectAmountsAndDatesHeld(zod, o);
        Ok(UpdateProjectInput(
          id.value, name.value, description.value, budget.value, allocatedFunds.value, actualExpenditures.value,
          startDate.value, endDate.value, status.value, contractType.value, location.value, contractor.value))
    case _ => Err(NotAnObject)
  }

  /** The update that sets every field of a project to the given creation input. */
  function FullUpdate(id: real, x: CreateProjectInput): UpdateProjectInput
  {
    UpdateProjectInput(
      id, Some(x.name), Some(x.description), Some(x.budget), Some(x.allocatedFunds), Some(x.actualExpenditures),
      Some(x.startDate), Some(x.endDate), Some(x.status), Some(x.contractType), Some(x.location), Some(x.contractor))
  }

  /** An update that carries every field is valid exactly when the same fields make a valid creation input. */
  lemma UpdateRulesMatchCreateRules(id: real, x: CreateProjectInput)
    ensures ValidUpdateProjectInput(FullUpdate(id, x)) <==> ValidCreateProjectInput(x)
  {
  }

  /** A payload holding just the key is a valid update that changes nothing. */
  lemma UpdateNeedsOnlyId(zod: Zod, id: real)
    ensures ParseUpdateProjectInput(zod, Obj(map["id" := Num(id)]))
      == Ok(UpdateProjectInput(id, None, None, None, None, None, None, None, None, None, None, None))
  {
  }

  /** A payload without the key is refused, and the refusal names the key. */
  lemma UpdateRequiresId(zod: Zod, o: map<string, Value>)
    requires "id" !in o
    ensures ParseUpdateProjectInput(zod, Obj(o)).Err?
    ensures Issue(["id"], Required) in ParseUpdateProjectInput(zod, Obj(o)).error
  {
    IssuesAtKey("id", RequiredField(o, "id", NumberOf([])));
  }

  /** The contractor may be set to null explicitly, which differs from leaving it out. */
  lemma UpdateMayClearContractor(zod: Zod, id: real)
    ensures ParseUpdateProjectInput(zod, Obj(map["id" := Num(id), "contractor" := Null]))
      == Ok(UpdateProjectInput(id, None, None, None, None, None, None, None, None, None, None, Some(None)))
  {
    var o := map["id" := Num(id), "contractor" := Null];
    var x := UpdateProjectInput(id, None, None, None, None, None, None, None, None, None, None, Some(None));
    assert IsUpdateProjectPayload(zod, o, x);
    UpdateProjectInputAcceptedExactly(zod, o, x);
  }

  /** A budget that is present must be positive, as in creation. */
  lemma UpdateRejectsNonPositiveBudget(zod: Zod, o: map<string, Value>, n: real)
    requires "budget" in o && o["budget"] == Num(n) && n <= 0.0
    ensures ParseUpdateProjectInput(zod, Obj(o)).Err?
    ensures Issue(["budget"], TooSmall) in ParseUpdateProjectInput(zod, Obj(o)).error
  {
    var budget := OptionalField(o, "budget", NumberOf([Positive]));
    assert !NumberHolds(n, [Positive][0]);
    assert budget.Codes() == ParseNumber(o["budget"], [Positive]).Codes();
    assert TooSmall in budget.Codes();
    IssuesAtKey("budget", budget);
  }

  lemma UpdateProjectFieldsHeld(zod: Zod, o: map<string, Value>)
    ensures var id := RequiredField(o, "id", NumberOf([]));
      id.Valid? ==> Holds(o, "id", Num(id.value))
    ensures var name := OptionalField(o, "name", StringOf(zod, [MinLength(1)]));
      name.Valid? ==> Carries(o, "name", name.value, s => Str(s))
    ensures var description := OptionalField(o, "description", StringOf(zod, [MinLength(1)]));
      description.Valid? ==> Carries(o, "description", description.value, s => Str(s))
    ensures var status := OptionalField(o, "status", EnumOf(ParseProjectStatus));
      status.Valid? ==> Carries(o, "status", status.value, s => Str(ProjectStatusName(s)))
    ensures var contractType := OptionalField(o, "contract_type", EnumOf(ParseContractType));
      contractType.Valid? ==> Carries(o, "contract_type", contractType.value, c => Str(ContractTypeName(c)))
    ensures var location := OptionalField(o, "location", StringOf(zod, [MinLength(1)]));
      location.Valid? ==> Carries(o, "location", location.value, s => Str(s))
    ensures var contractor := OptionalField(o, "contractor", NullableOf(StringOf(zod, [])));
      contractor.Valid? ==> Carries(o, "contractor", contractor.value, NullableString)
  {
    NumberFieldHeld(o, "id", []);
    OptionalStringFieldHeld(zod, o, "name", [MinLength(1)]);
    OptionalStringFieldHeld(zod, o, "description", [MinLength(1)]);
    OptionalEnumFieldHeld(o, "status", ParseProjectStatus);
    OptionalEnumFieldHeld(o, "contract_type", ParseContractType);
    OptionalStringFieldHeld(zod, o, "location", [MinLength(1)]);
    OptionalNullableStringFieldHeld(zod, o, "contractor", []);
  }

  lemma UpdateProjectAmountsAndDatesHeld(zod: Zod, o: map<string, Value>)
    ensures var budget := OptionalField(o, "budget", NumberOf([Positive]));
      budget.Valid? ==> Carries(o, "budget", budget.value, n => Num(n))
    ensures var funds := OptionalField(o, "allocated_funds", NumberOf([Nonnegative]));
      funds.Valid? ==> Carries(o, "allocated_funds", funds.value, n => Num(n))
    ensures var spent := OptionalField(o, "actual_expenditures", NumberOf([Nonnegative]));
      spent.Valid? ==> Carries(o, "actual_expenditures", spent.value, n => Num(n))
    ensures var start := OptionalField(o, "start_date", DateOf(zod));
      start.Valid? ==> CarriesDate(zod, o, "start_date", start.value)
    ensures var end := OptionalField(o, "end_date", DateOf(zod));
      end.Valid? ==> CarriesDate(zod, o, "end_date", end.value)
  {
    OptionalNumberFieldHeld(o, "budget", [Positive]);
    OptionalNumberFieldHeld(o, "allocated_funds", [Nonnegative]);
    OptionalNumberFieldHeld(o, "actual_expenditures", [Nonnegative]);
    OptionalDateFieldHeld(zod, o, "start_date");
    OptionalDateFieldHeld(zod, o, "end_date");
  }

  /**
   * The payload `o` holds the update `x`: the key, and exactly the fields
   * that `x` has, a cleared contractor as `null`, the dates as values that
   * coerce to them. Keys the schema does not declare may come along.
   */
  predicate IsUpdateProjectPayload(zod: Zod, o: map<string, Value>, x: UpdateProjectInput)
  {
    && Holds(o, "id", Num(x.id))
    && Carries(o, "name", x.name, s => Str(s))
    && Carries(o, "description", x.description, s => Str(s))
    && Carries(o, "budget", x.budget, n => Num(n))
    && Carries(o, "allocated_funds", x.allocatedFunds, n => Num(n))
    && Carries(o, "actual_expenditures", x.actualExpenditures, n => Num(n))
    && CarriesDate(zod, o, "start_date", x.startDate)
    && CarriesDate(zod, o, "end_date", x.endDate)
    && Carries(o, "status", x.status, s => Str(ProjectStatusName(s)))
    && Carries(o, "contract_type", x.contractType, c => Str(ContractTypeName(c)))
    && Carries(o, "location", x.location, s => Str(s))
    && Carries(o, "contractor", x.contractor, NullableString)
  }

  /** A payload is accepted as the update `x` exactly when `x` is valid and the payload holds it. */
  lemma UpdateProjectInputAcceptedExactly(zod: Zod, o: map<string, Value>, x: UpdateProjectInput)
    ensures ParseUpdateProjectInput(zod, Obj(o)) == Ok(x)
      <==> ValidUpdateProjectInput(x) && IsUpdateProjectPayload(zod, o, x)
  {
    if ValidUpdateProjectInput(x) && IsUpdateProjectPayload(zod, o, x) {
      UpdateProjectPayloadNames(zod, o, x);
      UpdateProjectPayloadSite(zod, o, x);
      UpdateProjectPayloadAmounts(zod, o, x);
      UpdateProjectPayloadDates(zod, o, x);
      UpdateProjectPayloadChoices(zod, o, x);
    }
  }

  lemma UpdateProjectPayloadNames(zod: Zod, o: map<string, Value>, x: UpdateProjectInput)
    requires ValidUpdateProjectInput(x)
    requires IsUpdateProjectPayload(zod, o, x)
    ensures
      && RequiredField(o, "id", NumberOf([])) == Valid(x.id)
      && OptionalField(o, "name", StringOf(zod, [MinLength(1)])) == Valid(x.name)
      && OptionalField(o, "description", StringOf(zod, [MinLength(1)])) == Valid(x.description)
  {
    NumberFieldAccepts(o, "id", [], x.id);
    OptionalStringFieldAccepts(zod, o, "name", [MinLength(1)], x.name);
    OptionalStringFieldAccepts(zod, o, "description", [MinLength(1)], x.description);
  }

  lemma UpdateProjectPayloadSite(zod: Zod, o: map<string, Value>, x: UpdateProjectInput)
    requires ValidUpdateProjectInput(x)
    requires IsUpdateProjectPayload(zod, o, x)
    ensures
      && OptionalField(o, "location", StringOf(zod, [MinLength(1)])) == Valid(x.location)
      && OptionalField(o, "contractor", NullableOf(StringOf(zod, []))) == Valid(x.contractor)
  {
    OptionalStringFieldAccepts(zod, o, "location", [MinLength(1)], x.location);
    OptionalNullableStringFieldAccepts(zod, o, "contractor", [], x.contractor);
  }

  lemma UpdateProjectPayloadAmounts(zod: Zod, o: map<string, Value>, x: UpdateProjectInput)
    requires ValidUpdateProjectInput(x)
    requires IsUpdateProjectPayload(zod, o, x)
    ensures
      && OptionalField(o, "budget", NumberOf([Positive])) == Valid(x.budget)
      && OptionalField(o, "allocated_funds", NumberOf([Nonnegative])) == Valid(x.allocatedFunds)
      && OptionalField(o, "actual_expenditures", NumberOf([Nonnegative])) == Valid(x.actualExpenditures)
  {
    OptionalNumberFieldAccepts(o, "budget", [Positive], x.budget);
    OptionalNumberFieldAccepts(o, "allocated_funds", [Nonnegative], x.allocatedFunds);
    OptionalNumberFieldAccepts(o, "actual_expenditures", [Nonnegative], x.actualExpenditures);
  }

  lemma UpdateProjectPayloadDates(zod: Zod, o: map<string, Value>, x: UpdateProjectInput)
    requires IsUpdateProjectPayload(zod, o, x)
    ensures
      && OptionalField(o, "start_date", DateOf(zod)) == Valid(x.startDate)
      && OptionalField(o, "end_date", DateOf(zod)) == Valid(x.endDate)
  {
    OptionalDateFieldAccepts(zod, o, "start_date", x.startDate);
    OptionalDateFieldAccepts(zod, o, "end_date", x.endDate);
  }

  lemma UpdateProjectPayloadChoices(zod: Zod, o: map<string, Value>, x: UpdateProjectInput)
    requires IsUpdateProjectPayload(zod, o, x)
    ensures
      && OptionalField(o, "status", EnumOf(ParseProjectStatus)) == Valid(x.status)
      && OptionalField(o, "contract_type", EnumOf(ParseContractType)) == Valid(x.contractType)
  {
    if x.status.Some? {
      ProjectStatusRoundTrip(x.status.value);
    }
    OptionalEnumFieldAccepts(o, "status", ParseProjectStatus, ProjectStatusName, x.status);
    if x.contractType.Some? {
      ContractTypeRoundTrip(x.contractType.value);
    }
    OptionalEnumFieldAccepts(o, "contract_type", ParseContractType, ContractTypeName, x.contractType);
  }

  /** A payload holds at most one update. */
  lemma UpdateProjectPayloadUnique(zod: Zod, o: map<string, Value>, x: UpdateProjectInput, y: UpdateProjectInput)
    requires IsUpdateProjectPayload(zod, o, x) && IsUpdateProjectPayload(zod, o, y)
    ensures x == y
  {
    UpdateProjectPayloadChoicesUnique(zod, o, x, y);
    assert x.name == y.name && x.description == y.description && x.location == y.location;
    assert x.budget == y.budget && x.allocatedFunds == y.allocatedFunds;
    assert x.actualExpenditures == y.actualExpenditures;
    assert x.startDate == y.startDate && x.endDate == y.endDate;
    assert x.contractor == y.contractor by {
      if x.contractor.Some? && y.contractor.Some? {
        assert NullableString(x.contractor.value) == NullableString(y.contractor.value);
      }
    }
  }

  lemma UpdateProjectPayloadChoicesUnique(zod: Zod, o: map<string, Value>, x: UpdateProjectInput, y: UpdateProjectInput)
    requires IsUpdateProjectPayload(zod, o, x) && IsUpdateProjectPayload(zod, o, y)
    ensures x.status == y.status && x.contractType == y.contractType
  {
    if x.status.Some? && y.status.Some? {
      ProjectStatusRoundTrip(x.status.value);
      ProjectStatusRoundTrip(y.status.value);
    }
    if x.contractType.Some? && y.contractType.Some? {
      ContractTypeRoundTrip(x.contractType.value);
      ContractTypeRoundTrip(y.contractType.value);
    }
  }

  /** The keys the update schema declares. */
  const UpdateProjectKeys: set<string> := {"id", "name", "description", "budget", "allocated_funds",
    "actual_expenditures", "start_date", "end_date", "status", "contract_type", "location", "contractor"}

  /** What the payload of the update `x` holds under the declared key `k`, if anything. */
  function UpdateProjectEntry(x: UpdateProjectInput, k: string): Option<Value>
  {
    if k == "id" then Some(Num(x.id))
    else if k == "name" then Encode(x.name, s => Str(s))
    else if k == "description" then Encode(x.description, s => Str(s))
    else if k == "budget" then Encode(x.budget, n => Num(n))
    else if k == "allocated_funds" then Encode(x.allocatedFunds, n => Num(n))
    else if k == "actual_expenditures" then Encode(x.actualExpenditures, n => Num(n))
    else if k == "start_date" then Encode(x.startDate, t => Time(t))
    else if k == "end_date" then Encode(x.endDate, t => Time(t))
    else if k == "status" then Encode(x.status, s => Str(ProjectStatusName(s)))
    else if k == "contract_type" then Encode(x.contractType, c => Str(ContractTypeName(c)))
    else if k == "location" then Encode(x.location, s => Str(s))
    else if k == "contractor" then Encode(x.contractor, NullableString)
    else None
  }

  /** The payload a client sends for the update `x`: `id` and only the fields `x` has. */
  function UpdateProjectPayload(x: UpdateProjectInput): map<string, Value>
  {
    map k | k in UpdateProjectKeys && UpdateProjectEntry(x, k).Some? :: UpdateProjectEntry(x, k).value
  }

  lemma UpdateProjectPayloadHolds(zod: Zod, x: UpdateProjectInput)
    requires KeepsDates(zod)
    ensures IsUpdateProjectPayload(zod, UpdateProjectPayload(x), x)
  {
    var o := UpdateProjectPayload(x);
    UpdateProjectPayloadHoldsFields(x);
    UpdateProjectPayloadHoldsAmountsAndDates(x);
    if x.startDate.Some? {
      assert o["start_date"] == Time(x.startDate.value);
      assert zod.coerceDate(Time(x.startDate.value)) == Some(x.startDate.value);
    }
    if x.endDate.Some? {
      assert o["end_date"] == Time(x.endDate.value);
      assert zod.coerceDate(Time(x.endDate.value)) == Some(x.endDate.value);
    }
  }

  lemma UpdateProjectPayloadHoldsFields(x: UpdateProjectInput)
    ensures var o := UpdateProjectPayload(x);
      && Holds(o, "id", Num(x.id))
      && Carries(o, "name", x.name, s => Str(s))
      && Carries(o, "description", x.description, s => Str(s))
      && Carries(o, "status", x.status, s => Str(ProjectStatusName(s)))
      && Carries(o, "contract_type", x.contractType, c => Str(ContractTypeName(c)))
      && Carries(o, "location", x.location, s => Str(s))
      && Carries(o, "contractor", x.contractor, NullableString)
  {
  }

  lemma UpdateProjectPayloadHoldsAmountsAndDates(x: UpdateProjectInput)
    ensures var o := UpdateProjectPayload(x);
      && Carries(o, "budget", x.budget, n => Num(n))
      && Carries(o, "allocated_funds", x.allocatedFunds, n => Num(n))
      && Carries(o, "actual_expenditures", x.actualExpenditures, n => Num(n))
      && (x.startDate.None? ==> "start_date" !in o)
      && (x.startDate.Some? ==> "start_date" in o && o["start_date"] == Time(x.startDate.value))
      && (x.endDate.None? ==> "end_date" !in o)
      && (x.endDate.Some? ==> "end_date" in o && o["end_date"] == Time(x.endDate.value))
  {
  }

  /** The payload of an update is accepted exactly when the update is valid, and then gives the update back. */
  lemma UpdateProjectInputRoundTrip(zod: Zod, x: UpdateProjectInput)
    requires KeepsDates(zod)
    ensures ParseUpdateProjectInput(zod, Obj(UpdateProjectPayload(x))).Ok? <==> ValidUpdateProjectInput(x)
    ensures ValidUpdateProjectInput(x) ==> ParseUpdateProjectInput(zod, Obj(UpdateProjectPayload(x))) == Ok(x)
  {
    UpdateProjectPayloadHolds(zod, x);
    var o := UpdateProjectPayload(x);
    UpdateProjectInputAcceptedExactly(zod, o, x);
    var r := ParseUpdateProjectInput(zod, Obj(o));
    if r.Ok? {
      UpdateProjectPayloadUnique(zod, o, x, r.value);
    }
  }

  // ===== contracts =====

  /** A stored contract (contractSchema); its schema declares no ranges. */
  datatype Contract = Contract(
    id: real,
    projectId: real,
    contractNumber: string,
    title: string,
    value: real,
    contractorName: string,
    signedDate: Date,
    documentUrl: Option<string>,
    createdAt: Date)

  /** The input of contract creation (createContractInputSchema). */
  datatype CreateContractInput = CreateContractInput(
    projectId: real,
    contractNumber: string,
    title: string,
    value: real,
    contractorName: string,
    signedDate: Date,
    documentUrl: Option<string>)

  /** Non-empty number, title and contractor name; a positive value; a document link that is null or a URL. */
  predicate ValidCreateContractInput(zod: Zod, x: CreateContractInput)
  {
    && |x.contractNumber| >= 1
    && |x.title| >= 1
    && x.value > 0.0
    && |x.contractorName| >= 1
    && (x.documentUrl.Some? ==> zod.isUrl(x.documentUrl.value))
  }

  /**
   * The payload `o` holds the contract input `x`: each field under its key,
   * the signing date as a value that coerces to it. Keys the schema does not
   * declare may come along.
   */
  predicate IsCreateContractPayload(zod: Zod, o: map<string, Value>, x: CreateContractInput)
  {
    && Holds(o, "project_id", Num(x.projectId))
    && Holds(o, "contract_number", Str(x.contractNumber))
    && Holds(o, "title", Str(x.title))
    && Holds(o, "value", Num(x.value))
    && Holds(o, "contractor_name", Str(x.contractorName))
    && HoldsDate(zod, o, "signed_date", x.signedDate)
    && Holds(o, "document_url", NullableString(x.documentUrl))
  }

  function ParseCreateContractInput(zod: Zod, payload: Value): (r: Result<CreateContractInput, seq<Issue>>)
    ensures r.Ok? ==> ValidCreateContractInput(zod, r.value)
    ensures r.Ok? ==> payload.Obj? && IsCreateContractPayload(zod, payload.fields, r.value)
    ensures r.Err? ==> r.error != []
    ensures !payload.Obj? ==> r == Err(NotAnObject)
  {
    match payload
    case Obj(o) =>
      var projectId := RequiredField(o, "project_id", NumberOf([]));
      var contractNumber := RequiredField(o, "contract_number", StringOf(zod, [MinLength(1)]));
      var title := RequiredField(o, "title", StringOf(zod, [MinLength(1)]));
      var value := RequiredField(o, "value", NumberOf([Positive]));
      var contractorName := RequiredField(o, "contractor_name", StringOf(zod, [MinLength(1)]));
      var signedDate := DateField(zod, o, "signed_date");
      var documentUrl := RequiredField(o, "document_url", NullableOf(StringOf(zod, [Url])));
      var issues :=
        IssuesAt("project_id", projectId) + IssuesAt("contract_number", contractNumber) + IssuesAt("title", title)
        + IssuesAt("value", value) + IssuesAt("contractor_name", contractorName)
        + IssuesAt("signed_date", signedDate) + IssuesAt("document_url", documentUrl);
      var accepted := projectId.Valid? && contractNumber.Valid? && title.Valid? && value.Valid?
        && contractorName.Valid? && signedDate.Valid? && documentUrl.Valid?;
      if !accepted then
        // an invalid field contributes at least one issue
        assert |issues| == |IssuesAt("project_id", projectId)| + |IssuesAt("contract_number", contractNumber)|
          + |IssuesAt("title", title)| + |IssuesAt("value", value)|
          + |IssuesAt("contractor_name", contractorName)| + |IssuesAt("signed_date", signedDate)|
          + |IssuesAt("document_url", documentUrl)|;
        Err(issues)
      else
        // what each accepted field's checks guarantee
        StringFieldHolds(zod, o, "contract_number", MinLength(1));
        StringFieldHolds(zod, o, "title", MinLength(1));
        NumberFieldHolds(o, "value", Positive);
        StringFieldHolds(zod, o, "contractor_name", MinLength(1));
        NullableStringFieldHolds(zod, o, "document_url", Url);
        // and that each accepted value is the one the payload holds
        NumberFieldHeld(o, "project_id", []);
        StringFieldHeld(zod, o, "contract_number", [MinLength(1)]);
        StringFieldHeld(zod, o, "title", [MinLength(1)]);
        NumberFieldHeld(o, "value", [Positive]);
        StringFieldHeld(zod, o, "contractor_name", [MinLength(1)]);
        DateFieldHeld(zod, o, "signed_date");
        NullableStringFieldHeld(zod, o, "document_url", [Url]);
        Ok(CreateContractInput(
          projectId.value, contractNumber.value, title.value, value.value, contractorName.value,
          signedDate.value, documentUrl.value))
    case _ => Err(NotAnObject)
  }

  /** A payload is accepted as `x` exactly when `x` is valid and the payload holds it. */
  lemma CreateContractInputAcceptedExactly(zod: Zod, o: map<string, Value>, x: CreateContractInput)
    ensures ParseCreateContractInput(zod, Obj(o)) == Ok(x)
      <==> ValidCreateContractInput(zod, x) && IsCreateContractPayload(zod, o, x)
  {
    if ValidCreateContractInput(zod, x) && IsCreateContractPayload(zod, o, x) {
      CreateContractPayloadText(zod, o, x);
      NumberFieldAccepts(o, "project_id", [], x.projectId);
      NumberFieldAccepts(o, "value", [Positive], x.value);
      DateFieldAccepts(zod, o, "signed_date", x.signedDate);
    }
  }

  lemma CreateContractPayloadText(zod: Zod, o: map<string, Value>, x: CreateContractInput)
    requires ValidCreateContractInput(zod, x)
    requires IsCreateContractPayload(zod, o, x)
    ensures
      && RequiredField(o, "contract_number", StringOf(zod, [MinLength(1)])) == Valid(x.contractNumber)
      && RequiredField(o, "title", StringOf(zod, [MinLength(1)])) == Valid(x.title)
      && RequiredField(o, "contractor_name", StringOf(zod, [MinLength(1)])) == Valid(x.contractorName)
      && RequiredField(o, "document_url", NullableOf(StringOf(zod, [Url]))) == Valid(x.documentUrl)
  {
    StringFieldAccepts(zod, o, "contract_number", [MinLength(1)], x.contractNumber);
    StringFieldAccepts(zod, o, "title", [MinLength(1)], x.title);
    StringFieldAccepts(zod, o, "contractor_name", [MinLength(1)], x.contractorName);
    NullableStringFieldAccepts(zod, o, "document_url", [Url], x.documentUrl);
  }

  /** A payload holds at most one contract input. */
  lemma CreateContractPayloadUnique(zod: Zod, o: map<string, Value>, x: CreateContractInput, y: CreateContractInput)
    requires IsCreateContractPayload(zod, o, x) && IsCreateContractPayload(zod, o, y)
    ensures x == y
  {
  }

  /** The payload a client sends for a contract creation input. */
  function CreateContractPayload(x: CreateContractInput): Value
  {
    Obj(map[
      "project_id" := Num(x.projectId),
      "contract_number" := Str(x.contractNumber),
      "title" := Str(x.title),
      "value" := Num(x.value),
      "contractor_name" := Str(x.contractorName),
      "signed_date" := Time(x.signedDate),
      "document_url" := NullableString(x.documentUrl)])
  }

  lemma CreateContractPayloadHolds(zod: Zod, x: CreateContractInput)
    requires KeepsDates(zod)
    ensures CreateContractPayload(x).Obj? && IsCreateContractPayload(zod, CreateContractPayload(x).fields, x)
  {
    assert zod.coerceDate(Time(x.signedDate)) == Some(x.signedDate);
  }

  /** The payload of an input is accepted exactly when the input is valid, and then gives the input back. */
  lemma CreateContractInputRoundTrip(zod: Zod, x: CreateContractInput)
    requires KeepsDates(zod)
    ensures ParseCreateContractInput(zod, CreateContractPayload(x)).Ok? <==> ValidCreateContractInput(zod, x)
    ensures ValidCreateContractInput(zod, x) ==> ParseCreateContractInput(zod, CreateContractPayload(x)) == Ok(x)
  {
    CreateContractPayloadHolds(zod, x);
    var o := CreateContractPayload(x).fields;
    CreateContractInputAcceptedExactly(zod, o, x);
    var r := ParseCreateContractInput(zod, Obj(o));
    if r.Ok? {
      CreateContractPayloadUnique(zod, o, x, r.value);
    }
  }

  // ===== alerts =====

  /** A stored alert (alertSchema). */
  datatype Alert = Alert(
    id: real,
    projectId: real,
    alertType: AlertType,
    title: string,
    message: string,
    severity: RiskLevel,
    isResolved: bool,
    createdAt: Date,
    resolvedAt: Option<Date>)

  /**
   * An alert carries a resolution time exactly when it is resolved. The
   * schema types the two fields independently; the pairing is the meaning
   * of the fields (`resolved_at` stays null until the alert is resolved).
   */
  predicate ResolutionConsistent(a: Alert)
  {
    a.isResolved <==> a.resolvedAt.Some?
  }

  /** The input of alert creation (createAlertInputSchema). */
  datatype CreateAlertInput = CreateAlertInput(
    projectId: real,
    alertType: AlertType,
    title: string,
    message: string,
    severity: RiskLevel)

  /** Non-empty title and message. */
  predicate ValidCreateAlertInput(x: CreateAlertInput)
  {
    |x.title| >= 1 && |x.message| >= 1
  }

  /**
   * The payload `o` holds the alert creation input `x`: each field under its
   * key, the options by name. Keys the schema does not declare may come along.
   */
  predicate IsCreateAlertPayload(o: map<string, Value>, x: CreateAlertInput)
  {
    && Holds(o, "project_id", Num(x.projectId))
    && Holds(o, "type", Str(AlertTypeName(x.alertType)))
    && Holds(o, "title", Str(x.title))
    && Holds(o, "message", Str(x.message))
    && Holds(o, "severity", Str(RiskLevelName(x.severity)))
  }

  function ParseCreateAlertInput(zod: Zod, payload: Value): (r: Result<CreateAlertInput, seq<Issue>>)
    ensures r.Ok? ==> ValidCreateAlertInput(r.value)
    ensures r.Ok? ==> payload.Obj? && IsCreateAlertPayload(payload.fields, r.value)
    ensures r.Err? ==> r.error != []
    ensures !payload.Obj? ==> r == Err(NotAnObject)
  {
    match payload
    case Obj(o) =>
      var projectId := RequiredField(o, "project_id", NumberOf([]));
      var alertType := RequiredField(o, "type", EnumOf(ParseAlertType));
      var title := RequiredField(o, "title", StringOf(zod, [MinLength(1)]));
      var message := RequiredField(o, "message", StringOf(zod, [MinLength(1)]));
      var severity := RequiredField(o, "severity", EnumOf(ParseRiskLevel));
      var issues :=
        IssuesAt("project_id", projectId) + IssuesAt("type", alertType) + IssuesAt("title", title)
        + IssuesAt("message", message) + IssuesAt("severity", severity);
      var accepted := projectId.Valid? && alertType.Valid? && title.Valid? && message.Valid?
        && severity.Valid?;
      if !accepted then
        // an invalid field contributes at least one issue
        assert |issues| == |IssuesAt("project_id", projectId)| + |IssuesAt("type", alertType)|
          + |IssuesAt("title", title)| + |IssuesAt("message", message)| + |IssuesAt("severity", severity)|;
        Err(issues)
      else
        // what each accepted field's checks guarantee
        StringFieldHolds(zod, o, "title", MinLength(1));
        StringFieldHolds(zod, o, "message", MinLength(1));
        // and that each accepted value is the one the payload holds
        NumberFieldHeld(o, "project_id", []);
        EnumFieldHeld(o, "type", ParseAlertType);
        StringFieldHeld(zod, o, "title", [MinLength(1)]);
        StringFieldHeld(zod, o, "message", [MinLength(1)]);
        EnumFieldHeld(o, "severity", ParseRiskLevel);
        Ok(CreateAlertInput(projectId.value, alertType.value, title.value, message.value, severity.value))
    case _ => Err(NotAnObject)
  }

  /** A payload is accepted as `x` exactly when `x` is valid and the payload holds it. */
  lemma CreateAlertInputAcceptedExactly(zod: Zod, o: map<string, Value>, x: CreateAlertInput)
    ensures ParseCreateAlertInput(zod, Obj(o)) == Ok(x) <==> ValidCreateAlertInput(x) && IsCreateAlertPayload(o, x)
  {
    if ValidCreateAlertInput(x) && IsCreateAlertPayload(o, x) {
      NumberFieldAccepts(o, "project_id", [], x.projectId);
      AlertTypeRoundTrip(x.alertType);
      EnumFieldAccepts(o, "type", ParseAlertType, AlertTypeName, x.alertType);
      StringFieldAccepts(zod, o, "title", [MinLength(1)], x.title);
      StringFieldAccepts(zod, o, "message", [MinLength(1)], x.message);
      RiskLevelRoundTrip(x.severity);
      EnumFieldAccepts(o, "severity", ParseRiskLevel, RiskLevelName, x.severity);
    }
  }

  /** A payload holds at most one alert creation input. */
  lemma CreateAlertPayloadUnique(o: map<string, Value>, x: CreateAlertInput, y: CreateAlertInput)
    requires IsCreateAlertPayload(o, x) && IsCreateAlertPayload(o, y)
    ensures x == y
  {
    AlertTypeRoundTrip(x.alertType);
    AlertTypeRoundTrip(y.alertType);
    RiskLevelRoundTrip(x.severity);
    RiskLevelRoundTrip(y.severity);
  }

  /** The payload a client sends for an alert creation input. */
  function CreateAlertPayload(x: CreateAlertInput): Value
  {
    Obj(map[
      "project_id" := Num(x.projectId),
      "type" := Str(AlertTypeName(x.alertType)),
      "title" := Str(x.title),
      "message" := Str(x.message),
      "severity" := Str(RiskLevelName(x.severity))])
  }

  /** The payload of an input is accepted exactly when the input is valid, and then gives the input back. */
  lemma CreateAlertInputRoundTrip(zod: Zod, x: CreateAlertInput)
    ensures ParseCreateAlertInput(zod, CreateAlertPayload(x)).Ok? <==> ValidCreateAlertInput(x)
    ensures ValidCreateAlertInput(x) ==> ParseCreateAlertInput(zod, CreateAlertPayload(x)) == Ok(x)
  {
    var o := CreateAlertPayload(x).fields;
    assert IsCreateAlertPayload(o, x);
    CreateAlertInputAcceptedExactly(zod, o, x);
    var r := ParseCreateAlertInput(zod, Obj(o));
    if r.Ok? {
      CreateAlertPayloadUnique(o, x, r.value);
    }
  }

  // ===== citizen engagement =====

  /** A stored citizen engagement (citizenEngagementSchema). */
  datatype CitizenEngagement = CitizenEngagement(
    id: real,
    projectId: real,
    engagementType: EngagementType,
    title: string,
    content: string,
    authorName: Option<string>,
    authorEmail: Option<string>,
    isAnonymous: bool,
    status: EngagementStatus,
    adminResponse: Option<string>,
    createdAt: Date,
    updatedAt: Date)

  /** The e-mail address, when there is one, is well formed. */
  predicate ValidCitizenEngagement(zod: Zod, e: CitizenEngagement)
  {
    e.authorEmail.Some? ==> zod.isEmail(e.authorEmail.value)
  }

  /** The stored-engagement rule is exactly what the `email()` schema accepts. */
  lemma ValidCitizenEngagementMatchesEmailSchema(zod: Zod, e: CitizenEngagement)
    ensures ValidCitizenEngagement(zod, e) <==>
      (e.authorEmail.Some? ==> ParseString(zod, Str(e.authorEmail.value), [Email]).Valid?)
  {
    if e.authorEmail.Some? {
      assert StringHolds(zod, e.authorEmail.value, [Email][0]) <==> zod.isEmail(e.authorEmail.value);
    }
  }

  /** The input of citizen engagement creation (createCitizenEngagementInputSchema). */
  datatype CreateCitizenEngagementInput = CreateCitizenEngagementInput(
    projectId: real,
    engagementType: EngagementType,
    title: string,
    content: string,
    authorName: Option<string>,
    authorEmail: Option<string>,
    isAnonymous: bool)

  /** Non-empty title and content; an e-mail address that is null or well formed. */
  predicate ValidCreateCitizenEngagementInput(zod: Zod, x: CreateCitizenEngagementInput)
  {
    && |x.title| >= 1
    && |x.content| >= 1
    && (x.authorEmail.Some? ==> zod.isEmail(x.authorEmail.value))
  }

  /**
   * The payload `o` holds the citizen engagement creation input `x`: each
   * field under its key (the author fields as `null` when absent), the type
   * by name, and the anonymity flag either spelt out or left out when it is
   * the default, identified. Keys the schema does not declare may come along.
   */
  predicate IsCreateCitizenEngagementPayload(o: map<string, Value>, x: CreateCitizenEngagementInput)
  {
    && Holds(o, "project_id", Num(x.projectId))
    && Holds(o, "type", Str(EngagementTypeName(x.engagementType)))
    && Holds(o, "title", Str(x.title))
    && Holds(o, "content", Str(x.content))
    && Holds(o, "author_name", NullableString(x.authorName))
    && Holds(o, "author_email", NullableString(x.authorEmail))
    && HoldsOrDefault(o, "is_anonymous", Bool(x.isAnonymous), Bool(false))
  }

  function ParseCreateCitizenEngagementInput(zod: Zod, payload: Value): (r: Result<CreateCitizenEngagementInput, seq<Issue>>)
    ensures r.Ok? ==> ValidCreateCitizenEngagementInput(zod, r.value)
    ensures r.Ok? ==> payload.Obj? && IsCreateCitizenEngagementPayload(payload.fields, r.value)
    ensures r.Err? ==> r.error != []
    ensures !payload.Obj? ==> r == Err(NotAnObject)
  {
    match payload
    case Obj(o) =>
      var projectId := RequiredField(o, "project_id", NumberOf([]));
      var engagementType := RequiredField(o, "type", EnumOf(ParseEngagementType));
      var title := RequiredField(o, "title", StringOf(zod, [MinLength(1)]));
      var content := RequiredField(o, "content", StringOf(zod, [MinLength(1)]));
      var authorName := RequiredField(o, "author_name", NullableOf(StringOf(zod, [])));
      var authorEmail := RequiredField(o, "author_email", NullableOf(StringOf(zod, [Email])));
      var isAnonymous := DefaultField(o, "is_anonymous", Bool(false), BooleanOf());
      var issues :=
        IssuesAt("project_id", projectId) + IssuesAt("type", engagementType) + IssuesAt("title", title)
        + IssuesAt("content", content) + IssuesAt("author_name", authorName)
        + IssuesAt("author_email", authorEmail) + IssuesAt("is_anonymous", isAnonymous);
      var accepted := projectId.Valid? && engagementType.Valid? && title.Valid? && content.Valid?
        && authorName.Valid? && authorEmail.Valid? && isAnonymous.Valid?;
      if !accepted then
        // an invalid field contributes at least one issue
        assert |issues| == |IssuesAt("project_id", projectId)| + |IssuesAt("type", engagementType)|
          + |IssuesAt("title", title)| + |IssuesAt("content", content)| + |IssuesAt("author_name", authorName)|
          + |IssuesAt("author_email", authorEmail)| + |IssuesAt("is_anonymous", isAnonymous)|;
        Err(issues)
      else
        // what each accepted field's checks guarantee
        StringFieldHolds(zod, o, "title", MinLength(1));
        StringFieldHolds(zod, o, "content", MinLength(1));
        NullableStringFieldHolds(zod, o, "author_email", Email);
        // and that each accepted value is the one the payload holds
        NumberFieldHeld(o, "project_id", []);
        EnumFieldHeld(o, "type", ParseEngagementType);
        StringFieldHeld(zod, o, "title", [MinLength(1)]);
        StringFieldHeld(zod, o, "content", [MinLength(1)]);
        NullableStringFieldHeld(zod, o, "author_name", []);
        NullableStringFieldHeld(zod, o, "author_email", [Email]);
        BooleanDefaultFieldHeld(o, "is_anonymous", Bool(false));
        Ok(CreateCitizenEngagementInput(
          projectId.value, engagementType.value, title.value, content.value, authorName.value,
          authorEmail.value, isAnonymous.value))
    case _ => Err(NotAnObject)
  }

  /** A payload is accepted as `x` exactly when `x` is valid and the payload holds it. */
  lemma CreateCitizenEngagementInputAcceptedExactly(zod: Zod, o: map<string, Value>, x: CreateCitizenEngagementInput)
    ensures ParseCreateCitizenEngagementInput(zod, Obj(o)) == Ok(x)
      <==> ValidCreateCitizenEngagementInput(zod, x) && IsCreateCitizenEngagementPayload(o, x)
  {
    if ValidCreateCitizenEngagementInput(zod, x) && IsCreateCitizenEngagementPayload(o, x) {
      CreateCitizenEngagementPayloadText(zod, o, x);
      CreateCitizenEngagementPayloadChoices(o, x);
    }
  }

  lemma CreateCitizenEngagementPayloadChoices(o: map<string, Value>, x: CreateCitizenEngagementInput)
    requires IsCreateCitizenEngagementPayload(o, x)
    ensures
      && RequiredField(o, "project_id", NumberOf([])) == Valid(x.projectId)
      && RequiredField(o, "type", EnumOf(ParseEngagementType)) == Valid(x.engagementType)
      && DefaultField(o, "is_anonymous", Bool(false), BooleanOf()) == Valid(x.isAnonymous)
  {
    NumberFieldAccepts(o, "project_id", [], x.projectId);
    EngagementTypeRoundTrip(x.engagementType);
    EnumFieldAccepts(o, "type", ParseEngagementType, EngagementTypeName, x.engagementType);
    BooleanDefaultFieldAccepts(o, "is_anonymous", Bool(false), x.isAnonymous);
  }

  lemma CreateCitizenEngagementPayloadText(zod: Zod, o: map<string, Value>, x: CreateCitizenEngagementInput)
    requires ValidCreateCitizenEngagementInput(zod, x)
    requires IsCreateCitizenEngagementPayload(o, x)
    ensures
      && RequiredField(o, "title", StringOf(zod, [MinLength(1)])) == Valid(x.title)
      && RequiredField(o, "content", StringOf(zod, [MinLength(1)])) == Valid(x.content)
      && RequiredField(o, "author_name", NullableOf(StringOf(zod, []))) == Valid(x.authorName)
      && RequiredField(o, "author_email", NullableOf(StringOf(zod, [Email]))) == Valid(x.authorEmail)
  {
    StringFieldAccepts(zod, o, "title", [MinLength(1)], x.title);
    StringFieldAccepts(zod, o, "content", [MinLength(1)], x.content);
    NullableStringFieldAccepts(zod, o, "author_name", [], x.authorName);
    NullableStringFieldAccepts(zod, o, "author_email", [Email], x.authorEmail);
  }

  /** A payload holds at most one citizen engagement creation input. */
  lemma CreateCitizenEngagementPayloadUnique(
    o: map<string, Value>, x: CreateCitizenEngagementInput, y: CreateCitizenEngagementInput)
    requires IsCreateCitizenEngagementPayload(o, x) && IsCreateCitizenEngagementPayload(o, y)
    ensures x == y
  {
    EngagementTypeRoundTrip(x.engagementType);
    EngagementTypeRoundTrip(y.engagementType);
    assert x.authorName == y.authorName by {
      assert NullableString(x.authorName) == NullableString(y.authorName);
    }
    assert x.authorEmail == y.authorEmail by {
      assert NullableString(x.authorEmail) == NullableString(y.authorEmail);
    }
  }

  /** The payload a client sends for a citizen engagement creation input, with the anonymity flag spelt out. */
  function CreateCitizenEngagementPayload(x: CreateCitizenEngagementInput): Value
  {
    Obj(map[
      "project_id" := Num(x.projectId),
      "type" := Str(EngagementTypeName(x.engagementType)),
      "title" := Str(x.title),
      "content" := Str(x.content),
      "author_name" := NullableString(x.authorName),
      "author_email" := NullableString(x.authorEmail),
      "is_anonymous" := Bool(x.isAnonymous)])
  }

  /** The payload of an input is accepted exactly when the input is valid, and then gives the input back. */
  lemma CreateCitizenEngagementInputRoundTrip(zod: Zod, x: CreateCitizenEngagementInput)
    ensures ParseCreateCitizenEngagementInput(zod, CreateCitizenEngagementPayload(x)).Ok?
      <==> ValidCreateCitizenEngagementInput(zod, x)
    ensures ValidCreateCitizenEngagementInput(zod, x)
      ==> ParseCreateCitizenEngagementInput(zod, CreateCitizenEngagementPayload(x)) == Ok(x)
  {
    var o := CreateCitizenEngagementPayload(x).fields;
    assert IsCreateCitizenEngagementPayload(o, x);
    CreateCitizenEngagementInputAcceptedExactly(zod, o, x);
    var r := ParseCreateCitizenEngagementInput(zod, Obj(o));
    if r.Ok? {
      CreateCitizenEngagementPayloadUnique(o, x, r.value);
    }
  }

  /** `.default(false)`: leaving the anonymity flag out is the same as sending `false`. */
  lemma CitizenEngagementAnonymityDefaultsToFalse(zod: Zod, o: map<string, Value>)
    requires "is_anonymous" !in o
    ensures ParseCreateCitizenEngagementInput(zod, Obj(o))
      == ParseCreateCitizenEngagementInput(zod, Obj(o["is_anonymous" := Bool(false)]))
  {
    var v := Bool(false);
    FieldIgnoresOtherKey(o, "is_anonymous", v, "project_id", NumberOf([]));
    FieldIgnoresOtherKey(o, "is_anonymous", v, "type", EnumOf(ParseEngagementType));
    FieldIgnoresOtherKey(o, "is_anonymous", v, "title", StringOf(zod, [MinLength(1)]));
    FieldIgnoresOtherKey(o, "is_anonymous", v, "content", StringOf(zod, [MinLength(1)]));
    FieldIgnoresOtherKey(o, "is_anonymous", v, "author_name", NullableOf(StringOf(zod, [])));
    FieldIgnoresOtherKey(o, "is_anonymous", v, "author_email", NullableOf(StringOf(zod, [Email])));
  }

  /** In particular, leaving the anonymity flag out makes the submission identified, not anonymous. */
  lemma CitizenEngagementNotAnonymousByDefault(zod: Zod, o: map<string, Value>)
    requires "is_anonymous" !in o
    requires ParseCreateCitizenEngagementInput(zod, Obj(o)).Ok?
    ensures !ParseCreateCitizenEngagementInput(zod, Obj(o)).value.isAnonymous
  {
  }

  /** The author fields may be null but not left out: a payload without `author_email` is refused. */
  lemma CitizenEngagementRequiresAuthorEmailKey(zod: Zod, o: map<string, Value>)
    requires "author_email" !in o
    ensures ParseCreateCitizenEngagementInput(zod, Obj(o)).Err?
    ensures Issue(["author_email"], Required) in ParseCreateCitizenEngagementInput(zod, Obj(o)).error
  {
    IssuesAtKey("author_email", RequiredField(o, "author_email", NullableOf(StringOf(zod, [Email]))));
  }

  // ===== AI analytics =====

  /** A stored AI analysis (aiAnalyticsSchema); `results` is any JSON object and is not checked further. */
  datatype AIAnalytics = AIAnalytics(
    id: real,
    projectId: real,
    analysisType: AnalysisType,
    results: map<string, Value>,
    confidenceScore: real,
    generatedAt: Date)

  /** The confidence lies in [0,1]. */
  predicate ValidAIAnalytics(a: AIAnalytics)
  {
    0.0 <= a.confidenceScore <= 1.0
  }

  /** The confidence range is exactly what `min(0).max(1)` accepts. */
  lemma ValidAIAnalyticsMatchesConfidenceSchema(a: AIAnalytics)
    ensures ValidAIAnalytics(a) <==> ParseNumber(Num(a.confidenceScore), [Min(0.0, true), Max(1.0, true)]).Valid?
  {
    var checks := [Min(0.0, true), Max(1.0, true)];
    assert NumberHolds(a.confidenceScore, checks[0]) <==> 0.0 <= a.confidenceScore;
    assert NumberHolds(a.confidenceScore, checks[1]) <==> a.confidenceScore <= 1.0;
  }

  // ===== reports =====

  /** A stored report (reportSchema); its schema declares no ranges. */
  datatype Report = Report(
    id: real,
    title: string,
    description: string,
    reportType: ReportType,
    fileUrl: Option<string>,
    isPublic: bool,
    createdAt: Date,
    updatedAt: Date)

  /** The input of report creation (createReportInputSchema). */
  datatype CreateReportInput = CreateReportInput(
    title: string,
    description: string,
    reportType: ReportType,
    fileUrl: Option<string>,
    isPublic: bool)

  /** Non-empty title and description; a file link that is null or a URL. */
  predicate ValidCreateReportInput(zod: Zod, x: CreateReportInput)
  {
    && |x.title| >= 1
    && |x.description| >= 1
    && (x.fileUrl.Some? ==> zod.isUrl(x.fileUrl.value))
  }

  /**
   * The payload `o` holds the report creation input `x`: each field under its
   * key, the type by name, and the visibility flag either spelt out or left
   * out when it is the default, public. Keys the schema does not declare may
   * come along.
   */
  predicate IsCreateReportPayload(o: map<string, Value>, x: CreateReportInput)
  {
    && Holds(o, "title", Str(x.title))
    && Holds(o, "description", Str(x.description))
    && Holds(o, "report_type", Str(ReportTypeName(x.reportType)))
    && Holds(o, "file_url", NullableString(x.fileUrl))
    && HoldsOrDefault(o, "is_public", Bool(x.isPublic), Bool(true))
  }

  function ParseCreateReportInput(zod: Zod, payload: Value): (r: Result<CreateReportInput, seq<Issue>>)
    ensures r.Ok? ==> ValidCreateReportInput(zod, r.value)
    ensures r.Ok? ==> payload.Obj? && IsCreateReportPayload(payload.fields, r.value)
    ensures r.Err? ==> r.error != []
    ensures !payload.Obj? ==> r == Err(NotAnObject)
  {
    match payload
    case Obj(o) =>
      var title := RequiredField(o, "title", StringOf(zod, [MinLength(1)]));
      var description := RequiredField(o, "description", StringOf(zod, [MinLength(1)]));
      var reportType := RequiredField(o, "report_type", EnumOf(ParseReportType));
      var fileUrl := RequiredField(o, "file_url", NullableOf(StringOf(zod, [Url])));
      var isPublic := DefaultField(o, "is_public", Bool(true), BooleanOf());
      var issues :=
        IssuesAt("title", title) + IssuesAt("description", description) + IssuesAt("report_type", reportType)
        + IssuesAt("file_url", fileUrl) + IssuesAt("is_public", isPublic);
      var accepted := title.Valid? && description.Valid? && reportType.Valid? && fileUrl.Valid?
        && isPublic.Valid?;
      if !accepted then
        // an invalid field contributes at least one issue
        assert |issues| == |IssuesAt("title", title)| + |IssuesAt("description", description)|
          + |IssuesAt("report_type", reportType)| + |IssuesAt("file_url", fileUrl)|
          + |IssuesAt("is_public", isPublic)|;
        Err(issues)
      else
        // what each accepted field's checks guarantee
        StringFieldHolds(zod, o, "title", MinLength(1));
        StringFieldHolds(zod, o, "description", MinLength(1));
        NullableStringFieldHolds(zod, o, "file_url", Url);
        // and that each accepted value is the one the payload holds
        StringFieldHeld(zod, o, "title", [MinLength(1)]);
        StringFieldHeld(zod, o, "description", [MinLength(1)]);
        EnumFieldHeld(o, "report_type", ParseReportType);
        NullableStringFieldHeld(zod, o, "file_url", [Url]);
        BooleanDefaultFieldHeld(o, "is_public", Bool(true));
        Ok(CreateReportInput(title.value, description.value, reportType.value, fileUrl.value, isPublic.value))
    case _ => Err(NotAnObject)
  }

  /** A payload is accepted as `x` exactly when `x` is valid and the payload holds it. */
  lemma CreateReportInputAcceptedExactly(zod: Zod, o: map<string, Value>, x: CreateReportInput)
    ensures ParseCreateReportInput(zod, Obj(o)) == Ok(x)
      <==> ValidCreateReportInput(zod, x) && IsCreateReportPayload(o, x)
  {
    if ValidCreateReportInput(zod, x) && IsCreateReportPayload(o, x) {
      CreateReportPayloadText(zod, o, x);
      ReportTypeRoundTrip(x.reportType);
      EnumFieldAccepts(o, "report_type", ParseReportType, ReportTypeName, x.reportType);
      BooleanDefaultFieldAccepts(o, "is_public", Bool(true), x.isPublic);
    }
  }

  lemma CreateReportPayloadText(zod: Zod, o: map<string, Value>, x: CreateReportInput)
    requires ValidCreateReportInput(zod, x)
    requires IsCreateReportPayload(o, x)
    ensures
      && RequiredField(o, "title", StringOf(zod, [MinLength(1)])) == Valid(x.title)
      && RequiredField(o, "description", StringOf(zod, [MinLength(1)])) == Valid(x.description)
      && RequiredField(o, "file_url", NullableOf(StringOf(zod, [Url]))) == Valid(x.fileUrl)
  {
    StringFieldAccepts(zod, o, "title", [MinLength(1)], x.title);
    StringFieldAccepts(zod, o, "description", [MinLength(1)], x.description);
    NullableStringFieldAccepts(zod, o, "file_url", [Url], x.fileUrl);
  }

  /** A payload holds at most one report creation input. */
  lemma CreateReportPayloadUnique(o: map<string, Value>, x: CreateReportInput, y: CreateReportInput)
    requires IsCreateReportPayload(o, x) && IsCreateReportPayload(o, y)
    ensures x == y
  {
    ReportTypeRoundTrip(x.reportType);
    ReportTypeRoundTrip(y.reportType);
  }

  /** The payload a client sends for a report creation input, with the visibility flag spelt out. */
  function CreateReportPayload(x: CreateReportInput): Value
  {
    Obj(map[
      "title" := Str(x.title),
      "description" := Str(x.description),
      "report_type" := Str(ReportTypeName(x.reportType)),
      "file_url" := NullableString(x.fileUrl),
      "is_public" := Bool(x.isPublic)])
  }

  /** The payload of an input is accepted exactly when the input is valid, and then gives the input back. */
  lemma CreateReportInputRoundTrip(zod: Zod, x: CreateReportInput)
    ensures ParseCreateReportInput(zod, CreateReportPayload(x)).Ok? <==> ValidCreateReportInput(zod, x)
    ensures ValidCreateReportInput(zod, x) ==> ParseCreateReportInput(zod, CreateReportPayload(x)) == Ok(x)
  {
    var o := CreateReportPayload(x).fields;
    assert IsCreateReportPayload(o, x);
    CreateReportInputAcceptedExactly(zod, o, x);
    var r := ParseCreateReportInput(zod, Obj(o));
    if r.Ok? {
      CreateReportPayloadUnique(o, x, r.value);
    }
  }

  /** `.default(true)`: leaving the visibility flag out is the same as sending `true`. */
  lemma ReportVisibilityDefaultsToPublic(zod: Zod, o: map<string, Value>)
    requires "is_public" !in o
    ensures ParseCreateReportInput(zod, Obj(o)) == ParseCreateReportInput(zod, Obj(o["is_public" := Bool(true)]))
  {
    FieldIgnoresOtherKey(o, "is_public", Bool(true), "title", StringOf(zod, [MinLength(1)]));
    FieldIgnoresOtherKey(o, "is_public", Bool(true), "description", StringOf(zod, [MinLength(1)]));
    FieldIgnoresOtherKey(o, "is_public", Bool(true), "report_type", EnumOf(ParseReportType));
    FieldIgnoresOtherKey(o, "is_public", Bool(true), "file_url", NullableOf(StringOf(zod, [Url])));
  }

  /** In particular, leaving the visibility flag out makes the report public. */
  lemma ReportPublicByDefault(zod: Zod, o: map<string, Value>)
    requires "is_public" !in o
    requires ParseCreateReportInput(zod, Obj(o)).Ok?
    ensures ParseCreateReportInput(zod, Obj(o)).value.isPublic
  {
  }

  // ===== search filters =====

  /** The filters and page window of a project search (searchFiltersSchema). */
  datatype SearchFilters = SearchFilters(
    name: Option<string>,
    location: Option<string>,
    contractor: Option<string>,
    status: Option<ProjectStatus>,
    contractType: Option<ContractType>,
    budgetMin: Option<real>,
    budgetMax: Option<real>,
    startDateFrom: Option<Date>,
    startDateTo: Option<Date>,
    riskLevel: Option<RiskLevel>,
    page: real,
    limit: real)

  /** The page asked for when none is given. */
  const DefaultPage: real := 1.0

  /** The page size asked for when none is given. */
  const DefaultLimit: real := 20.0

  /** The largest page size a search may ask for. */
  const MaxLimit: real := 100.0

  /**
   * Budget bounds, when given, are zero or more (and need not be ordered);
   * the page is a whole number above zero; the page size a whole number from
   * one to the maximum.
   */
  predicate ValidSearchFilters(f: SearchFilters)
  {
    && (f.budgetMin.Some? ==> f.budgetMin.value >= 0.0)
    && (f.budgetMax.Some? ==> f.budgetMax.value >= 0.0)
    && IsWhole(f.page) && f.page > 0.0
    && IsWhole(f.limit) && 0.0 < f.limit <= MaxLimit
  }

  /** `page`: a whole number above zero, one when left out. */
  function PageField(o: map<string, Value>): (r: Parsed<real>)
    ensures "page" !in o ==> r == Valid(DefaultPage)
    ensures "page" in o ==> (r.Valid? <==> o["page"].Num? && IsWhole(o["page"].n) && o["page"].n > 0.0)
    ensures r.Valid? ==> IsWhole(r.value) && r.value >= 1.0
    ensures "page" in o && r.Valid? ==> r.value == o["page"].n
  {
    var checks := [IsInt, Positive];
    var r := DefaultField(o, "page", Num(DefaultPage), NumberOf(checks));
    assert r.Valid? ==> NumberHolds(r.value, checks[0]) && NumberHolds(r.value, checks[1]);
    r
  }

  /** `limit`: a whole number from one to the maximum, twenty when left out. */
  function LimitField(o: map<string, Value>): (r: Parsed<real>)
    ensures "limit" !in o ==> r == Valid(DefaultLimit)
    ensures "limit" in o ==> (r.Valid? <==> o["limit"].Num? && IsWhole(o["limit"].n) && 0.0 < o["limit"].n <= MaxLimit)
    ensures r.Valid? ==> IsWhole(r.value) && 1.0 <= r.value <= MaxLimit
    ensures "limit" in o && r.Valid? ==> r.value == o["limit"].n
  {
    var checks := [IsInt, Positive, Max(MaxLimit, true)];
    var r := DefaultField(o, "limit", Num(DefaultLimit), NumberOf(checks));
    assert r.Valid? ==> NumberHolds(r.value, checks[0]) && NumberHolds(r.value, checks[1]) && NumberHolds(r.value, checks[2]);
    r
  }

  function ParseSearchFilters(zod: Zod, payload: Value): (r: Result<SearchFilters, seq<Issue>>)
    ensures r.Ok? ==> ValidSearchFilters(r.value)
    ensures r.Ok? ==> 1.0 <= r.value.page && 1.0 <= r.value.limit <= MaxLimit
    ensures r.Ok? ==> payload.Obj? && IsSearchFiltersPayload(zod, payload.fields, r.value)
    ensures r.Err? ==> r.error != []
    ensures !payload.Obj? ==> r == Err(NotAnObject)
  {
    match payload
    case Obj(o) =>
      var name := OptionalField(o, "name", StringOf(zod, []));
      var location := OptionalField(o, "location", StringOf(zod, []));
      var contractor := OptionalField(o, "contractor", StringOf(zod, []));
      var status := OptionalField(o, "status", EnumOf(ParseProjectStatus));
      var contractType := OptionalField(o, "contract_type", EnumOf(ParseContractType));
      var budgetMin := OptionalField(o, "budget_min", NumberOf([Nonnegative]));
      var budgetMax := OptionalField(o, "budget_max", NumberOf([Nonnegative]));
      var startDateFrom := OptionalField(o, "start_date_from", DateOf(zod));
      var startDateTo := OptionalField(o, "start_date_to", DateOf(zod));
      var riskLevel := OptionalField(o, "risk_level", EnumOf(ParseRiskLevel));
      var page := PageField(o);
      var limit := LimitField(o);
      var issues :=
        IssuesAt("name", name) + IssuesAt("location", location) + IssuesAt("contractor", contractor)
        + IssuesAt("status", status) + IssuesAt("contract_type", contractType)
        + IssuesAt("budget_min", budgetMin) + IssuesAt("budget_max", budgetMax)
        + IssuesAt("start_date_from", startDateFrom) + IssuesAt("start_date_to", startDateTo)
        + IssuesAt("risk_level", riskLevel) + IssuesAt("page", page) + IssuesAt("limit", limit);
      var accepted := name.Valid? && location.Valid? && contractor.Valid? && status.Valid?
        && contractType.Valid? && budgetMin.Valid? && budgetMax.Valid? && startDateFrom.Valid?
        && startDateTo.Valid? && riskLevel.Valid? && page.Valid? && limit.Valid?;
      if !accepted then
        // an invalid field contributes at least one issue
        assert |issues| == |IssuesAt("name", name)| + |IssuesAt("location", location)|
          + |IssuesAt("contractor", contractor)| + |IssuesAt("status", status)|
          + |IssuesAt("contract_type", contractType)| + |IssuesAt("budget_min", budgetMin)|
          + |IssuesAt("budget_max", budgetMax)| + |IssuesAt("start_date_from", startDateFrom)|
          + |IssuesAt("start_date_to", startDateTo)| + |IssuesAt("risk_level", riskLevel)|
          + |IssuesAt("page", page)| + |IssuesAt("limit", limit)|;
        Err(issues)
      else
        // what each accepted field's checks guarantee
        OptionalNumberFieldHolds(o, "budget_min", Nonnegative);
        OptionalNumberFieldHolds(o, "budget_max", Nonnegative);
        // and that each accepted value is the one the payload holds
        SearchFiltersFieldsHeld(zod, o);
        SearchFiltersBoundsHeld(zod, o);
        Ok(SearchFilters(
          name.value, location.value, contractor.value, status.value, contractType.value,
          budgetMin.value, budgetMax.value, startDateFrom.value, startDateTo.value, riskLevel.value,
          page.value, limit.value))
    case _ => Err(NotAnObject)
  }

  /** What the payload holds under each accepted search field. */
  lemma SearchFiltersFieldsHeld(zod: Zod, o: map<string, Value>)
    ensures var name := OptionalField(o, "name", StringOf(zod, []));
      name.Valid? ==> Carries(o, "name", name.value, s => Str(s))
    ensures var location := OptionalField(o, "location", StringOf(zod, []));
      location.Valid? ==> Carries(o, "location", location.value, s => Str(s))
    ensures var contractor := OptionalField(o, "contractor", StringOf(zod, []));
      contractor.Valid? ==> Carries(o, "contractor", contractor.value, s => Str(s))
    ensures var status := OptionalField(o, "status", EnumOf(ParseProjectStatus));
      status.Valid? ==> Carries(o, "status", status.value, s => Str(ProjectStatusName(s)))
    ensures var contractType := OptionalField(o, "contract_type", EnumOf(ParseContractType));
      contractType.Valid? ==> Carries(o, "contract_type", contractType.value, c => Str(ContractTypeName(c)))
    ensures var riskLevel := OptionalField(o, "risk_level", EnumOf(ParseRiskLevel));
      riskLevel.Valid? ==> Carries(o, "risk_level", riskLevel.value, r => Str(RiskLevelName(r)))
  {
    OptionalStringFieldHeld(zod, o, "name", []);
    OptionalStringFieldHeld(zod, o, "location", []);
    OptionalStringFieldHeld(zod, o, "contractor", []);
    OptionalEnumFieldHeld(o, "status", ParseProjectStatus);
    OptionalEnumFieldHeld(o, "contract_type", ParseContractType);
    OptionalEnumFieldHeld(o, "risk_level", ParseRiskLevel);
  }

  lemma SearchFiltersBoundsHeld(zod: Zod, o: map<string, Value>)
    ensures var budgetMin := OptionalField(o, "budget_min", NumberOf([Nonnegative]));
      budgetMin.Valid? ==> Carries(o, "budget_min", budgetMin.value, n => Num(n))
    ensures var budgetMax := OptionalField(o, "budget_max", NumberOf([Nonnegative]));
      budgetMax.Valid? ==> Carries(o, "budget_max", budgetMax.value, n => Num(n))
    ensures var from := OptionalField(o, "start_date_from", DateOf(zod));
      from.Valid? ==> CarriesDate(zod, o, "start_date_from", from.value)
    ensures var to := OptionalField(o, "start_date_to", DateOf(zod));
      to.Valid? ==> CarriesDate(zod, o, "start_date_to", to.value)
    ensures var page := PageField(o);
      page.Valid? ==> HoldsOrDefault(o, "page", Num(page.value), Num(DefaultPage))
    ensures var limit := LimitField(o);
      limit.Valid? ==> HoldsOrDefault(o, "limit", Num(limit.value), Num(DefaultLimit))
  {
    OptionalNumberFieldHeld(o, "budget_min", [Nonnegative]);
    OptionalNumberFieldHeld(o, "budget_max", [Nonnegative]);
    OptionalDateFieldHeld(zod, o, "start_date_from");
    OptionalDateFieldHeld(zod, o, "start_date_to");
  }

  /**
   * The payload `o` holds the search `f`: exactly the filters that `f` has,
   * the dates as values that coerce to them, and the page and page size,
   * each of which may be left out when it is the default. Keys the schema
   * does not declare may come along.
   */
  predicate IsSearchFiltersPayload(zod: Zod, o: map<string, Value>, f: SearchFilters)
  {
    && Carries(o, "name", f.name, s => Str(s))
    && Carries(o, "location", f.location, s => Str(s))
    && Carries(o, "contractor", f.contractor, s => Str(s))
    && Carries(o, "status", f.status, s => Str(ProjectStatusName(s)))
    && Carries(o, "contract_type", f.contractType, c => Str(ContractTypeName(c)))
    && Carries(o, "budget_min", f.budgetMin, n => Num(n))
    && Carries(o, "budget_max", f.budgetMax, n => Num(n))
    && CarriesDate(zod, o, "start_date_from", f.startDateFrom)
    && CarriesDate(zod, o, "start_date_to", f.startDateTo)
    && Carries(o, "risk_level", f.riskLevel, r => Str(RiskLevelName(r)))
    && HoldsOrDefault(o, "page", Num(f.page), Num(DefaultPage))
    && HoldsOrDefault(o, "limit", Num(f.limit), Num(DefaultLimit))
  }

  /** A payload is accepted as the search `f` exactly when `f` is valid and the payload holds it. */
  lemma SearchFiltersAcceptedExactly(zod: Zod, o: map<string, Value>, f: SearchFilters)
    ensures ParseSearchFilters(zod, Obj(o)) == Ok(f)
      <==> ValidSearchFilters(f) && IsSearchFiltersPayload(zod, o, f)
  {
    if ValidSearchFilters(f) && IsSearchFiltersPayload(zod, o, f) {
      SearchPayloadText(zod, o, f);
      SearchPayloadChoices(zod, o, f);
      SearchPayloadBounds(zod, o, f);
    }
  }

  lemma SearchPayloadText(zod: Zod, o: map<string, Value>, f: SearchFilters)
    requires IsSearchFiltersPayload(zod, o, f)
    ensures
      && OptionalField(o, "name", StringOf(zod, [])) == Valid(f.name)
      && OptionalField(o, "location", StringOf(zod, [])) == Valid(f.location)
      && OptionalField(o, "contractor", StringOf(zod, [])) == Valid(f.contractor)
  {
    OptionalStringFieldAccepts(zod, o, "name", [], f.name);
    OptionalStringFieldAccepts(zod, o, "location", [], f.location);
    OptionalStringFieldAccepts(zod, o, "contractor", [], f.contractor);
  }

  lemma SearchPayloadChoices(zod: Zod, o: map<string, Value>, f: SearchFilters)
    requires IsSearchFiltersPayload(zod, o, f)
    ensures
      && OptionalField(o, "status", EnumOf(ParseProjectStatus)) == Valid(f.status)
      && OptionalField(o, "contract_type", EnumOf(ParseContractType)) == Valid(f.contractType)
      && OptionalField(o, "risk_level", EnumOf(ParseRiskLevel)) == Valid(f.riskLevel)
  {
    if f.status.Some? {
      ProjectStatusRoundTrip(f.status.value);
    }
    OptionalEnumFieldAccepts(o, "status", ParseProjectStatus, ProjectStatusName, f.status);
    if f.contractType.Some? {
      ContractTypeRoundTrip(f.contractType.value);
    }
    OptionalEnumFieldAccepts(o, "contract_type", ParseContractType, ContractTypeName, f.contractType);
    if f.riskLevel.Some? {
      RiskLevelRoundTrip(f.riskLevel.value);
    }
    OptionalEnumFieldAccepts(o, "risk_level", ParseRiskLevel, RiskLevelName, f.riskLevel);
  }

  lemma SearchPayloadBounds(zod: Zod, o: map<string, Value>, f: SearchFilters)
    requires ValidSearchFilters(f)
    requires IsSearchFiltersPayload(zod, o, f)
    ensures
      && OptionalField(o, "budget_min", NumberOf([Nonnegative])) == Valid(f.budgetMin)
      && OptionalField(o, "budget_max", NumberOf([Nonnegative])) == Valid(f.budgetMax)
      && OptionalField(o, "start_date_from", DateOf(zod)) == Valid(f.startDateFrom)
      && OptionalField(o, "start_date_to", DateOf(zod)) == Valid(f.startDateTo)
      && PageField(o) == Valid(f.page)
      && LimitField(o) == Valid(f.limit)
  {
    OptionalNumberFieldAccepts(o, "budget_min", [Nonnegative], f.budgetMin);
    OptionalNumberFieldAccepts(o, "budget_max", [Nonnegative], f.budgetMax);
    OptionalDateFieldAccepts(zod, o, "start_date_from", f.startDateFrom);
    OptionalDateFieldAccepts(zod, o, "start_date_to", f.startDateTo);
  }

  /** A payload holds at most one search. */
  lemma SearchFiltersPayloadUnique(zod: Zod, o: map<string, Value>, f: SearchFilters, g: SearchFilters)
    requires IsSearchFiltersPayload(zod, o, f) && IsSearchFiltersPayload(zod, o, g)
    ensures f == g
  {
    SearchPayloadTextUnique(zod, o, f, g);
    SearchPayloadChoicesUnique(zod, o, f, g);
    assert f.budgetMin == g.budgetMin && f.budgetMax == g.budgetMax;
    assert f.startDateFrom == g.startDateFrom && f.startDateTo == g.startDateTo;
    assert f.page == g.page && f.limit == g.limit;
  }

  lemma SearchPayloadTextUnique(zod: Zod, o: map<string, Value>, f: SearchFilters, g: SearchFilters)
    requires IsSearchFiltersPayload(zod, o, f) && IsSearchFiltersPayload(zod, o, g)
    ensures f.name == g.name && f.location == g.location && f.contractor == g.contractor
  {
  }

  lemma SearchPayloadChoicesUnique(zod: Zod, o: map<string, Value>, f: SearchFilters, g: SearchFilters)
    requires IsSearchFiltersPayload(zod, o, f) && IsSearchFiltersPayload(zod, o, g)
    ensures f.status == g.status && f.contractType == g.contractType && f.riskLevel == g.riskLevel
  {
    if f.status.Some? && g.status.Some? {
      ProjectStatusRoundTrip(f.status.value);
      ProjectStatusRoundTrip(g.status.value);
    }
    if f.contractType.Some? && g.contractType.Some? {
      ContractTypeRoundTrip(f.contractType.value);
      ContractTypeRoundTrip(g.contractType.value);
    }
    if f.riskLevel.Some? && g.riskLevel.Some? {
      RiskLevelRoundTrip(f.riskLevel.value);
      RiskLevelRoundTrip(g.riskLevel.value);
    }
  }

  /** The keys the search-filter schema declares. */
  const SearchFiltersKeys: set<string> := {"name", "location", "contractor", "status", "contract_type",
    "budget_min", "budget_max", "start_date_from", "start_date_to", "risk_level", "page", "limit"}

  /** What a payload for the filters `f` holds under the declared key `k`, if anything. */
  function SearchFiltersEntry(f: SearchFilters, k: string): Option<Value>
  {
    if k == "name" then Encode(f.name, s => Str(s))
    else if k == "location" then Encode(f.location, s => Str(s))
    else if k == "contractor" then Encode(f.contractor, s => Str(s))
    else if k == "status" then Encode(f.status, s => Str(ProjectStatusName(s)))
    else if k == "contract_type" then Encode(f.contractType, c => Str(ContractTypeName(c)))
    else if k == "budget_min" then Encode(f.budgetMin, n => Num(n))
    else if k == "budget_max" then Encode(f.budgetMax, n => Num(n))
    else if k == "start_date_from" then Encode(f.startDateFrom, t => Time(t))
    else if k == "start_date_to" then Encode(f.startDateTo, t => Time(t))
    else if k == "risk_level" then Encode(f.riskLevel, r => Str(RiskLevelName(r)))
    else if k == "page" then Some(Num(f.page))
    else if k == "limit" then Some(Num(f.limit))
    else None
  }

  /** The payload a client sends for the search `f`: the filters `f` has, and its page and page size. */
  function SearchFiltersPayload(f: SearchFilters): map<string, Value>
  {
    map k | k in SearchFiltersKeys && SearchFiltersEntry(f, k).Some? :: SearchFiltersEntry(f, k).value
  }

  lemma SearchFiltersPayloadHolds(zod: Zod, f: SearchFilters)
    requires KeepsDates(zod)
    ensures IsSearchFiltersPayload(zod, SearchFiltersPayload(f), f)
  {
    var o := SearchFiltersPayload(f);
    SearchFiltersPayloadHoldsFilters(f);
    if f.startDateFrom.Some? {
      assert o["start_date_from"] == Time(f.startDateFrom.value);
      assert zod.coerceDate(Time(f.startDateFrom.value)) == Some(f.startDateFrom.value);
    }
    if f.startDateTo.Some? {
      assert o["start_date_to"] == Time(f.startDateTo.value);
      assert zod.coerceDate(Time(f.startDateTo.value)) == Some(f.startDateTo.value);
    }
  }

  lemma SearchFiltersPayloadHoldsFilters(f: SearchFilters)
    ensures var o := SearchFiltersPayload(f);
      && Carries(o, "name", f.name, s => Str(s))
      && Carries(o, "location", f.location, s => Str(s))
      && Carries(o, "contractor", f.contractor, s => Str(s))
      && Carries(o, "status", f.status, s => Str(ProjectStatusName(s)))
      && Carries(o, "contract_type", f.contractType, c => Str(ContractTypeName(c)))
      && Carries(o, "budget_min", f.budgetMin, n => Num(n))
      && Carries(o, "budget_max", f.budgetMax, n => Num(n))
      && (f.startDateFrom.None? ==> "start_date_from" !in o)
      && (f.startDateFrom.Some? ==> "start_date_from" in o && o["start_date_from"] == Time(f.startDateFrom.value))
      && (f.startDateTo.None? ==> "start_date_to" !in o)
      && (f.startDateTo.Some? ==> "start_date_to" in o && o["start_date_to"] == Time(f.startDateTo.value))
      && Carries(o, "risk_level", f.riskLevel, r => Str(RiskLevelName(r)))
      && HoldsOrDefault(o, "page", Num(f.page), Num(DefaultPage))
      && HoldsOrDefault(o, "limit", Num(f.limit), Num(DefaultLimit))
  {
  }

  /** The payload of a search is accepted exactly when the search is valid, and then gives the search back. */
  lemma SearchFiltersRoundTrip(zod: Zod, f: SearchFilters)
    requires KeepsDates(zod)
    ensures ParseSearchFilters(zod, Obj(SearchFiltersPayload(f))).Ok? <==> ValidSearchFilters(f)
    ensures ValidSearchFilters(f) ==> ParseSearchFilters(zod, Obj(SearchFiltersPayload(f))) == Ok(f)
  {
    SearchFiltersPayloadHolds(zod, f);
    var o := SearchFiltersPayload(f);
    SearchFiltersAcceptedExactly(zod, o, f);
    var r := ParseSearchFilters(zod, Obj(o));
    if r.Ok? {
      SearchFiltersPayloadUnique(zod, o, f, r.value);
    }
  }

  /** With no filters given, a search asks for the first page of twenty. */
  lemma SearchFiltersDefaults(zod: Zod)
    ensures ParseSearchFilters(zod, Obj(map[]))
      == Ok(SearchFilters(None, None, None, None, None, None, None, None, None, None, DefaultPage, DefaultLimit))
  {
  }

  /** A page size above the maximum is refused, and the refusal names the page size. */
  lemma SearchRejectsLimitAboveMax(zod: Zod, o: map<string, Value>, n: real)
    requires "limit" in o && o["limit"] == Num(n) && n > MaxLimit
    ensures ParseSearchFilters(zod, Obj(o)).Err?
    ensures Issue(["limit"], TooBig) in ParseSearchFilters(zod, Obj(o)).error
  {
    var checks := [IsInt, Positive, Max(MaxLimit, true)];
    var limit := LimitField(o);
    assert limit.Codes() == NumberIssues(n, checks);
    assert !NumberHolds(n, checks[2]);
    assert TooBig in limit.Codes();
    IssuesAtKey("limit", limit);
  }

  /** A fractional page number is refused, and the refusal names the page. */
  lemma SearchRejectsFractionalPage(zod: Zod, o: map<string, Value>, n: real)
    requires "page" in o && o["page"] == Num(n) && !IsWhole(n)
    ensures ParseSearchFilters(zod, Obj(o)).Err?
    ensures Issue(["page"], NotInteger) in ParseSearchFilters(zod, Obj(o)).error
  {
    var checks := [IsInt, Positive];
    var page := PageField(o);
    assert page.Codes() == NumberIssues(n, checks);
    assert !NumberHolds(n, checks[0]);
    assert NotInteger in page.Codes();
    IssuesAtKey("page", page);
  }

  /** The budget bounds are not required to be ordered: a minimum above the maximum is accepted. */
  lemma SearchAllowsInvertedBudgetBounds(zod: Zod)
    ensures
      var f := ParseSearchFilters(zod, Obj(map["budget_min" := Num(500.0), "budget_max" := Num(100.0)]));
      f.Ok? && f.value.budgetMin == Some(500.0) && f.value.budgetMax == Some(100.0)
  {
    BudgetBoundsOnly(zod, 500.0, 100.0);
  }

  lemma BudgetBoundsOnly(zod: Zod, lo: real, hi: real)
    requires lo >= 0.0 && hi >= 0.0
    ensures var o := map["budget_min" := Num(lo), "budget_max" := Num(hi)];
      && OptionalField(o, "name", StringOf(zod, [])) == Valid(None)
      && OptionalField(o, "location", StringOf(zod, [])) == Valid(None)
      && OptionalField(o, "contractor", StringOf(zod, [])) == Valid(None)
      && OptionalField(o, "status", EnumOf(ParseProjectStatus)) == Valid(None)
      && OptionalField(o, "contract_type", EnumOf(ParseContractType)) == Valid(None)
      && OptionalField(o, "budget_min", NumberOf([Nonnegative])) == Valid(Some(lo))
      && OptionalField(o, "budget_max", NumberOf([Nonnegative])) == Valid(Some(hi))
      && OptionalField(o, "start_date_from", DateOf(zod)) == Valid(None)
      && OptionalField(o, "start_date_to", DateOf(zod)) == Valid(None)
      && OptionalField(o, "risk_level", EnumOf(ParseRiskLevel)) == Valid(None)
      && PageField(o) == Valid(DefaultPage)
      && LimitField(o) == Valid(DefaultLimit)
  {
    var o := map["budget_min" := Num(lo), "budget_max" := Num(hi)];
    OptionalNumberFieldAccepts(o, "budget_min", [Nonnegative], Some(lo));
    OptionalNumberFieldAccepts(o, "budget_max", [Nonnegative], Some(hi));
  }
}

# GovTracker validation schemas and create handlers, in Dafny

This project models the validation layer and the creation handlers of the
GovTracker Indonesia RPC server, a transparency tracker for government
projects, contracts, alerts, citizen engagement, AI analytics and reports.

- **Enumerations** (`enums.dfy`, module `Enums`): project status, contract
  type, risk level, alert type, engagement type, engagement status, analysis
  type and report type. Each is a datatype with a name per option. Its parse
  function looks a string up among the declared options, as an enumeration
  schema does, and accepts exactly the declared strings.
- **Field schemas** (`fields.dfy`, module `Fields`): string, number, boolean,
  date and enumeration schemas with their check chains (`min(n)`, `url()`,
  `email()`, `int()`, `positive()`, `nonnegative()`, `max(b)`). A failing
  check yields one issue code. The `nullable`, `optional` and `default`
  modifiers are modelled too, as is the lookup of a field by its key.
- **Schemas** (`schema.dfy`, module `Schema`): the stored records (project,
  contract, alert, citizen engagement, AI analytics, report) with predicates
  for the ranges their schemas declare. It also has the input schemas: create
  project, update project, create contract, create alert, create citizen
  engagement, create report, and search filters. Each input schema is a
  function from a request payload (`Values.Value`, the superjson-decoded
  request) to the typed input, or to the issues found, each tagged with its
  field's key. A `Valid…Input` predicate states the rules field by field.
  Which payloads each schema accepts, and the input it returns, is
  characterised completely. The issues of a refusal are stated only as
  non-empty, plus the specific refusals named in the table below. A
  payload predicate (`IsCreateProjectPayload`, …,
  `IsSearchFiltersPayload`) says that a payload holds an input: every field
  under its key, encoded as its schema expects. An optional field that is absent has no key. A defaulted field
  may be left out when it holds its default. Undeclared keys may come along.
  A payload is accepted as an input exactly when the input is valid and the
  payload holds it (`…AcceptedExactly`), and no payload holds two inputs
  (`…PayloadUnique`). So an invalid payload is refused, and an accepted one
  gives back the only input it holds. The round-trip lemmas apply this to
  the payload a client builds for an input: it is accepted if and only if
  the input is valid, and then it gives the input back.
- **Handlers** (`create_project.dfy`, `create_alert.dfy`,
  `create_citizen_engagement.dfy`, `create_contract.dfy`,
  `create_report.dfy`): each creation handler is a pure function from the
  parsed input to the stored record. The clock readings it takes are
  parameters. Its contract states that projecting the record back to an input
  gives the input unchanged. It also states the initial values the handler
  fills in.

Numbers are `real` (JavaScript numbers without their floating-point
behaviour). Dates are `int` milliseconds, which is what a JavaScript `Date`
holds. Strings are `seq<char>`.

Two rules a reader of this domain might expect are not what the schemas
say, and the model follows the schemas:
- A citizen may leave out their name and e-mail. In
  server/src/schema.ts:149-150 these fields are nullable but required keys.
  A payload that leaves a key out is refused; one that sends null is accepted
  (`CitizenEngagementRequiresAuthorEmailKey`).
- Allocated funds are expected to stay within the budget, and the end date
  is expected not to come before the start date. Each amount and each date is
  checked on its own (server/src/schema.ts:40-44), so neither relation is
  enforced (`CreateProjectAllowsUnorderedAmountsAndDates`).

A required date field (`z.coerce.date()`) whose key is absent is refused
with the invalid-date issue, not a required one: coercion turns the absent
value into an invalid date before the date check runs
(`CreateProjectMissingStartDateIsInvalidDate`).

## Model

| member | source | states |
|---|---|---|
| `Enums.ParseProjectStatus` | server/src/schema.ts:5 | accepts a string exactly when it is one of planned, active, completed, suspended, cancelled; the option returned is the one with that name |
| `Enums.ProjectStatusRoundTrip` | server/src/schema.ts:5 | every status's name parses back to that status |
| `Enums.ParseContractType` | server/src/schema.ts:6 | accepts exactly construction, goods, services, consultancy; the option returned has that name |
| `Enums.ContractTypeRoundTrip` | server/src/schema.ts:6 | every contract type's name parses back to it |
| `Enums.ParseRiskLevel` | server/src/schema.ts:7 | accepts exactly low, medium, high, critical; the option returned has that name |
| `Enums.RiskLevelRoundTrip` | server/src/schema.ts:7 | every risk level's name parses back to it |
| `Enums.ParseAlertType` | server/src/schema.ts:9 | accepts exactly budget_overflow, delay, anomaly, completion; the option returned has that name |
| `Enums.AlertTypeRoundTrip` | server/src/schema.ts:9 | every alert type's name parses back to it |
| `Enums.ParseEngagementType` | server/src/schema.ts:10 | accepts exactly feedback, discussion, survey, complaint; the option returned has that name |
| `Enums.EngagementTypeRoundTrip` | server/src/schema.ts:10 | every engagement type's name parses back to it |
| `Enums.ParseEngagementStatus` | server/src/schema.ts:135 | accepts exactly pending, reviewed, responded; the option returned has that name |
| `Enums.EngagementStatusRoundTrip` | server/src/schema.ts:135 | every engagement status's name parses back to it |
| `Enums.ParseAnalysisType` | server/src/schema.ts:160 | accepts exactly anomaly_detection, completion_prediction, budget_analysis, risk_assessment; the option returned has that name |
| `Enums.AnalysisTypeRoundTrip` | server/src/schema.ts:160 | every analysis type's name parses back to it |
| `Enums.ParseReportType` | server/src/schema.ts:173 | accepts exactly transparency, audit, financial, progress; the option returned has that name |
| `Enums.ReportTypeRoundTrip` | server/src/schema.ts:173 | every report type's name parses back to it |
| `Fields.DefaultFieldFillsKey` | server/src/schema.ts:151 | a `.default(d)` field gives what the same field without a default gives once the absent key is filled with `d`; a defaulted field that accepts also accepts as an optional one |
| `Fields.OptionalFieldWidensRequired` | server/src/schema.ts:56-66 | an `.optional()` field accepts exactly what the required field accepts, plus an absent key; where the required field accepts, the optional one returns the same value as present |
| `Schema.ParseCreateProjectInput` | server/src/schema.ts:37-49 | an accepted payload gives a valid input (non-empty name, description and location, budget > 0, allocated funds and expenditures >= 0), and the payload holds that input; a refusal lists at least one issue; a payload that is not an object is refused as a whole |
| `Schema.CreateProjectInputAcceptedExactly` | server/src/schema.ts:37-49 | a payload is accepted as an input if and only if the input is valid and the payload holds it |
| `Schema.CreateProjectPayloadUnique` | server/src/schema.ts:37-49 | a payload holds at most one input, so an accepted payload determines its input |
| `Schema.CreateProjectInputRoundTrip` | server/src/schema.ts:37-49 | the payload built from an input is accepted if and only if the input is valid, and then it gives the input back unchanged |
| `Schema.CreateProjectRejectsNonPositiveBudget` | server/src/schema.ts:40 | a budget of zero or less is refused with a too-small issue under the key `budget` |
| `Schema.CreateProjectAllowsUnorderedAmountsAndDates` | server/src/schema.ts:40-44 | some accepted payload has funds and expenditures above the budget and an end date before the start date: no ordering is enforced |
| `Schema.CreateProjectIgnoresUndeclaredKeys` | server/src/schema.ts:37-49 | adding a key the schema does not declare leaves the outcome unchanged |
| `Schema.CreateProjectMissingStartDateIsInvalidDate` | server/src/schema.ts:43 | a payload without `start_date` is refused with an invalid-date issue under that key, because the absent value is coerced to a date first |
| `Schema.ParseUpdateProjectInput` | server/src/schema.ts:54-67 | an accepted payload gives an update whose present fields obey the creation rules, and the payload holds that update: its `id` and exactly its present fields; a refusal lists at least one issue |
| `Schema.UpdateProjectInputAcceptedExactly` | server/src/schema.ts:54-67 | a payload is accepted as an update if and only if the update is valid and the payload holds its `id` and exactly its present fields, a cleared contractor as null |
| `Schema.UpdateProjectPayloadUnique` | server/src/schema.ts:54-67 | a payload holds at most one update |
| `Schema.UpdateProjectInputRoundTrip` | server/src/schema.ts:54-67 | the payload built from an update, holding `id` and only its present fields, is accepted if and only if the update is valid, and then gives the update back |
| `Schema.UpdateRulesMatchCreateRules` | server/src/schema.ts:54-67 | an update carrying every field is valid if and only if the same fields form a valid creation input |
| `Schema.UpdateNeedsOnlyId` | server/src/schema.ts:55-66 | a payload holding only `id` is accepted as an update with every other field absent |
| `Schema.UpdateRequiresId` | server/src/schema.ts:55 | a payload without `id` is refused with a required issue under `id` |
| `Schema.UpdateMayClearContractor` | server/src/schema.ts:66 | an explicit null contractor is accepted and kept apart from an absent one |
| `Schema.UpdateRejectsNonPositiveBudget` | server/src/schema.ts:58 | a budget that is present and zero or less is refused with a too-small issue under `budget` |
| `Schema.ParseCreateContractInput` | server/src/schema.ts:87-95 | an accepted payload gives non-empty contract number, title and contractor name, value > 0, and a document link that is null or a URL, and the payload holds that input |
| `Schema.CreateContractInputAcceptedExactly` | server/src/schema.ts:87-95 | a payload is accepted as a contract input if and only if the input is valid and the payload holds it |
| `Schema.CreateContractInputRoundTrip` | server/src/schema.ts:87-95 | the payload built from a contract input is accepted if and only if the input is valid, and then gives it back unchanged |
| `Schema.ParseCreateAlertInput` | server/src/schema.ts:115-121 | an accepted payload gives non-empty title and message, and the payload holds that input; type and severity are in their enumerations by typing |
| `Schema.CreateAlertInputAcceptedExactly` | server/src/schema.ts:115-121 | a payload is accepted as an alert input if and only if the input is valid and the payload holds it |
| `Schema.CreateAlertInputRoundTrip` | server/src/schema.ts:115-121 | the payload built from an alert input is accepted if and only if the input is valid, and then gives it back unchanged |
| `Schema.ParseCreateCitizenEngagementInput` | server/src/schema.ts:144-152 | an accepted payload gives non-empty title and content and an e-mail address that is null or well formed, and the payload holds that input |
| `Schema.CreateCitizenEngagementInputAcceptedExactly` | server/src/schema.ts:144-152 | a payload is accepted as an engagement input if and only if the input is valid and the payload holds it, the anonymity flag given or left out when false |
| `Schema.CreateCitizenEngagementInputRoundTrip` | server/src/schema.ts:144-152 | the payload built from an engagement input is accepted if and only if the input is valid, and then gives it back unchanged |
| `Schema.CitizenEngagementAnonymityDefaultsToFalse` | server/src/schema.ts:151 | for any payload without `is_anonymous`, the outcome, accepted or refused, is the same as with `is_anonymous` set to false |
| `Schema.CitizenEngagementNotAnonymousByDefault` | server/src/schema.ts:151 | in particular, an accepted payload without `is_anonymous` gives a submission that is not anonymous |
| `Schema.CitizenEngagementRequiresAuthorEmailKey` | server/src/schema.ts:150 | a payload without the `author_email` key is refused with a required issue under that key, although null is allowed |
| `Schema.ParseCreateReportInput` | server/src/schema.ts:183-189 | an accepted payload gives non-empty title and description and a file link that is null or a URL, and the payload holds that input |
| `Schema.CreateReportInputAcceptedExactly` | server/src/schema.ts:183-189 | a payload is accepted as a report input if and only if the input is valid and the payload holds it, the visibility flag given or left out when true |
| `Schema.CreateReportInputRoundTrip` | server/src/schema.ts:183-189 | the payload built from a report input is accepted if and only if the input is valid, and then gives it back unchanged |
| `Schema.ReportVisibilityDefaultsToPublic` | server/src/schema.ts:188 | for any payload without `is_public`, the outcome, accepted or refused, is the same as with `is_public` set to true |
| `Schema.ReportPublicByDefault` | server/src/schema.ts:188 | in particular, an accepted payload without `is_public` gives a public report |
| `Schema.PageField` | server/src/schema.ts:205 | `page` is 1 when absent; a given page is accepted if and only if it is a whole number above zero; an accepted page is at least 1 |
| `Schema.LimitField` | server/src/schema.ts:206 | `limit` is 20 when absent; a given limit is accepted if and only if it is a whole number in (0, 100]; an accepted limit lies in [1, 100] |
| `Schema.ParseSearchFilters` | server/src/schema.ts:194-207 | accepted filters have budget bounds that are absent or >= 0, and a page >= 1 and a limit in [1, 100], both whole numbers; the payload holds those filters |
| `Schema.SearchFiltersAcceptedExactly` | server/src/schema.ts:194-207 | a payload is accepted as a filter set if and only if the filters are valid and the payload holds exactly their present filters, with page and limit given or left at their defaults 1 and 20 |
| `Schema.SearchFiltersPayloadUnique` | server/src/schema.ts:194-207 | a payload holds at most one filter set |
| `Schema.SearchFiltersRoundTrip` | server/src/schema.ts:194-207 | the payload built from a filter set, with only its present filters and an explicit page and limit, is accepted if and only if the filters are valid, and then gives them back |
| `Schema.SearchFiltersDefaults` | server/src/schema.ts:205-206 | an empty payload gives no filters, page 1 and limit 20 |
| `Schema.SearchRejectsLimitAboveMax` | server/src/schema.ts:206 | a limit above 100 is refused with a too-big issue under `limit` |
| `Schema.SearchRejectsFractionalPage` | server/src/schema.ts:205 | a fractional page is refused with a not-integer issue under `page` |
| `Schema.SearchAllowsInvertedBudgetBounds` | server/src/schema.ts:200-201 | a minimum budget above the maximum is accepted: the bounds need not be ordered |
| `Schema.ValidProjectMatchesScoreSchemas` | server/src/schema.ts:26-29 | a stored project is within its ranges (`ValidProject`) if and only if transparency, risk and each present AI estimate pass `min(0).max(100)` |
| `Schema.ValidCitizenEngagementMatchesEmailSchema` | server/src/schema.ts:133 | a stored engagement meets its rule (`ValidCitizenEngagement`) if and only if its author e-mail is null or passes `email()` |
| `Schema.ValidAIAnalyticsMatchesConfidenceSchema` | server/src/schema.ts:162 | an analysis meets its rule (`ValidAIAnalytics`) if and only if its confidence passes `min(0).max(1)` |
| `CreateProjectHandler.CreateProject` | server/src/handlers/create_project.ts:9-28 | every input field from name to contractor reappears unchanged; transparency 75 and risk 25 whatever the input; both AI estimates null; key 0; the stored-project ranges hold |
| `CreateProjectHandler.ProjectFromAcceptedRequest` | server/src/handlers/create_project.ts:11-25 | a project made from an accepted request is within the stored-project ranges and keeps the request's name, budget and amount rules |
| `CreateAlertHandler.CreateAlert` | server/src/handlers/create_alert.ts:8-18 | project, type, title, message and severity reappear unchanged; the alert is unresolved with no resolution time, which agree; key 0 |
| `CreateAlertHandler.AlertFromAcceptedRequest` | server/src/handlers/create_alert.ts:10-17 | an alert made from an accepted request is unresolved, consistently so, with non-empty title and message |
| `CreateCitizenEngagementHandler.CreateCitizenEngagement` | server/src/handlers/create_citizen_engagement.ts:8-21 | every input field reappears unchanged, author fields included when anonymous; status pending; no admin response; key 0 |
| `CreateCitizenEngagementHandler.EngagementFromValidInput` | server/src/handlers/create_citizen_engagement.ts:15 | an engagement made from a valid input meets the stored schema's e-mail rule |
| `CreateCitizenEngagementHandler.EngagementFromRequestWithoutFlag` | server/src/handlers/create_citizen_engagement.ts:16-17 | a request without the anonymity flag makes an identified, pending engagement |
| `CreateContractHandler.CreateContract` | server/src/handlers/create_contract.ts:8-18 | the seven input fields reappear unchanged, a null document link included; key 0; only the contract is produced |
| `CreateContractHandler.ContractFromAcceptedRequest` | server/src/handlers/create_contract.ts:13-16 | a contract made from an accepted request has value > 0, non-empty texts and a document link that is null or a URL |
| `CreateReportHandler.CreateReport` | server/src/handlers/create_report.ts:8-17 | title, description, type, file link and visibility reappear unchanged, a null file link included; key 0 |
| `CreateReportHandler.ReportFromRequestWithoutFlagIsPublic` | server/src/handlers/create_report.ts:14 | a request that leaves `is_public` out makes a public report |

## Left out

- The RPC router, HTTP server, CORS middleware and port lookup (server/src/index.ts): transport plumbing over libraries.
- The search and dashboard handlers: they return fixed empty results, and their filtering, paging and aggregation exist only as comments. The search filters are modelled only up to validation.
- The dashboard statistics schema: it declares plain numbers and no rules, and only the placeholder handler uses it.
- The database table declarations (server/src/db/schema.ts): serial keys, foreign keys, decimal precision and column defaults belong to the database.
- The handlers that the router imports but whose source is not part of this model (project listing and lookup, project update, alert listing and resolution, engagement listing, AI analytics, report listing).
- The user role enumeration: nothing uses it.
- The `results` payload of an AI analysis: it is kept as an arbitrary object and not checked further. No operation here creates an analysis, so its confidence range (`ValidAIAnalytics`) is tied to its schema but used by no operation.
- Date coercion, URL syntax and e-mail syntax belong to the validation library. They are parameters (`Values.Zod`). The round trips assume only that coercing a value that already is a date keeps it.
- Floating-point numbers: money and scores are reals, so rounding, NaN and infinities are not modelled.
- String length counts characters, not UTF-16 code units; only the minimum of one character is checked, and it means the same in both.
- The names of issue codes follow the validation library's own names only loosely, and messages are not modelled. `Required` stands for an `invalid_type` issue on an absent key. `NotInteger` stands for the `invalid_type` issue, expecting an integer, that `int()` reports. `InvalidUrl` and `InvalidEmail` stand for `invalid_string` issues. `InvalidDate` stands for `invalid_date`.
- Keys present with the value `undefined`, and the superjson encoding itself: an absent key stands for `undefined`.
- Timestamps from the clock are parameters of the handlers. No relation between two readings is claimed.
- Asynchrony: the handlers' promise wrapping is dropped.
- The full issue list of a refusal: each parser promises only that it is non-empty. Beyond that, only the refusals stated by the `…Rejects…`, `…Requires…` and `CreateProjectMissingStartDateIsInvalidDate` lemmas are specified.

/** The records exchanged by the pipeline's components: candidates, role requirements,
    scored candidates, final selections and progress events. Members that the
    source leaves as arbitrary JSON (`any`) stay `JsonValue`s here. */
module Types {
  import opened Wrappers
  import opened Json

  /** One entry of a candidate's work history as the normaliser builds it. */
  datatype ExperienceItem = ExperienceItem(
    company: Option<JsonValue>,
    role: Option<JsonValue>,
    duration: Option<JsonValue>,
    description: Option<JsonValue>,
    startDate: Option<JsonValue>,
    endDate: JsonValue,
    technologies: seq<JsonValue>)

  datatype EducationItem = EducationItem(
    institution: Option<JsonValue>,
    degree: Option<JsonValue>,
    field: Option<JsonValue>,
    year: Option<JsonValue>,
    gpa: Option<JsonValue>)

  datatype Salary = Salary(current: Option<JsonValue>, expected: Option<JsonValue>, currency: Option<JsonValue>)

  /** The canonical candidate record; `rawData` keeps the record it was built from. */
  datatype NormalizedCandidate = NormalizedCandidate(
    id: string,
    name: string,
    email: string,
    phone: Option<string>,
    role: Option<string>,
    yearsOfExperience: Option<real>,
    skills: seq<string>,
    experience: seq<ExperienceItem>,
    education: seq<EducationItem>,
    salary: Option<Salary>,
    location: Option<string>,
    portfolio: Option<JsonValue>,
    github: Option<JsonValue>,
    linkedin: Option<JsonValue>,
    summary: Option<string>,
    rawData: JsonValue)

  /** The semantic categories of the schema detector, in table order, plus `Unknown`. */
  datatype Category =
    | NameCat | EmailCat | PhoneCat | RoleCat | ExperienceCat | SkillsCat
    | EducationCat | SalaryCat | LocationCat | PortfolioCat | UnknownCat

  /** One list of source keys per category. */
  datatype DetectedSchema = DetectedSchema(
    nameFields: seq<string>,
    emailFields: seq<string>,
    phoneFields: seq<string>,
    roleFields: seq<string>,
    experienceFields: seq<string>,
    skillFields: seq<string>,
    educationFields: seq<string>,
    salaryFields: seq<string>,
    locationFields: seq<string>,
    portfolioFields: seq<string>,
    unknownFields: seq<string>)
  {
    function FieldsOf(c: Category): seq<string> {
      match c
      case NameCat => nameFields
      case EmailCat => emailFields
      case PhoneCat => phoneFields
      case RoleCat => roleFields
      case ExperienceCat => experienceFields
      case SkillsCat => skillFields
      case EducationCat => educationFields
      case SalaryCat => salaryFields
      case LocationCat => locationFields
      case PortfolioCat => portfolioFields
      case UnknownCat => unknownFields
    }

    /** `schema.<c>Fields.push(key)` */
    function Push(c: Category, key: string): (r: DetectedSchema)
      ensures r.FieldsOf(c) == FieldsOf(c) + [key]
      ensures forall d :: d != c ==> r.FieldsOf(d) == FieldsOf(d)
    {
      match c
      case NameCat => this.(nameFields := nameFields + [key])
      case EmailCat => this.(emailFields := emailFields + [key])
      case PhoneCat => this.(phoneFields := phoneFields + [key])
      case RoleCat => this.(roleFields := roleFields + [key])
      case ExperienceCat => this.(experienceFields := experienceFields + [key])
      case SkillsCat => this.(skillFields := skillFields + [key])
      case EducationCat => this.(educationFields := educationFields + [key])
      case SalaryCat => this.(salaryFields := salaryFields + [key])
      case LocationCat => this.(locationFields := locationFields + [key])
      case PortfolioCat => this.(portfolioFields := portfolioFields + [key])
      case UnknownCat => this.(unknownFields := unknownFields + [key])
    }
  }

  const EmptySchema := DetectedSchema([], [], [], [], [], [], [], [], [], [], [])

  /** A member the query template asks to be "number or null": absent, `null`, or a number.
      JavaScript tells `undefined` and `null` apart in the filter's `!== undefined` tests. */
  datatype Bound = Missing | Null | Num(n: real) {
    /** The operand JavaScript arithmetic sees: `null` is 0, `undefined` is NaN (`None`). */
    function Arith(): Option<real> {
      match this
      case Missing => None
      case Null => Some(0.0)
      case Num(n) => Some(n)
    }

    predicate Truthy() {
      Num? && n != 0.0
    }
  }

  /** The `salaryRange` object of a role; `None` when the member is absent or `null`. */
  datatype SalaryRange = SalaryRange(min: Bound, max: Bound)

  datatype RoleRequirement = RoleRequirement(
    title: string,
    count: real,
    seniority: string,
    mustHaveSkills: seq<string>,
    niceToHaveSkills: seq<string>,
    minYearsExperience: Bound,
    maxYearsExperience: Bound,
    salaryRange: Option<SalaryRange>,
    softCriteria: seq<string>)

  datatype ParsedQuery = ParsedQuery(originalQuery: string, roles: seq<RoleRequirement>)

  datatype FilterCriteria = FilterCriteria(
    skills: Option<seq<string>>,
    minExperience: Bound,
    maxExperience: Bound,
    salaryMax: Bound)

  /** `role.salaryRange?.max` */
  function SalaryMax(role: RoleRequirement): Bound {
    if role.salaryRange.Some? then role.salaryRange.value.max else Missing
  }

  /** The criteria both the route and the multi-role selector derive from a role. */
  function CriteriaOf(role: RoleRequirement): FilterCriteria {
    FilterCriteria(Some(role.mustHaveSkills), role.minYearsExperience, role.maxYearsExperience, SalaryMax(role))
  }

  datatype ScoredCandidate = ScoredCandidate(
    candidate: NormalizedCandidate,
    score: real,
    briefReasoning: string,
    role: string)

  datatype FinalSelection = FinalSelection(
    candidate: NormalizedCandidate,
    role: string,
    matchPercentage: real,
    strengths: seq<string>,
    concerns: seq<string>,
    uniqueQualities: seq<string>,
    detailedReasoning: string,
    rank: real)

  datatype Stage = Uploading | Parsing | Filtering | Scoring | Analyzing | Complete | Error

  datatype ProcessingProgress = ProcessingProgress(
    stage: Stage,
    message: string,
    percentage: real,
    candidatesProcessed: Option<nat>,
    totalCandidates: Option<nat>,
    currentBatch: Option<nat>,
    totalBatches: Option<nat>)

  /** A session as the upload route stores it; times are milliseconds since the epoch. */
  datatype SessionData = SessionData(
    sessionId: string,
    candidates: seq<NormalizedCandidate>,
    fileHash: string,
    uploadedAt: int,
    expiresAt: int)
}

/** The records and enumerations shared by the teacher and student dashboards.
    Timestamps are integer milliseconds since the epoch; the ISO strings the
    remote tables hold are not modelled. */
module Types {

  datatype Option<+T> = None | Some(value: T)

  /** Who a user is: exactly one of the two roles. */
  datatype Role = Teacher | Student

  /** The stored spelling of a role. */
  function RoleName(r: Role): string
  {
    match r
    case Teacher => "TEACHER"
    case Student => "STUDENT"
  }

  /** Reads a stored role; every other string is not a role. */
  function ParseRole(s: string): (r: Option<Role>)
    ensures r.Some? ==> RoleName(r.value) == s
    ensures r.None? ==> s != "TEACHER" && s != "STUDENT"
  {
    if s == "TEACHER" then Some(Teacher)
    else if s == "STUDENT" then Some(Student)
    else None
  }

  lemma RoleRoundTrip(r: Role)
    ensures ParseRole(RoleName(r)) == Some(r)
    ensures RoleName(r) == "TEACHER" || RoleName(r) == "STUDENT"
  {
  }

  /** What kind of material a resource is. */
  datatype ResourceType = Video | Document | HtmlGame

  function ResourceTypeName(t: ResourceType): string
  {
    match t
    case Video => "VIDEO"
    case Document => "DOCUMENT"
    case HtmlGame => "HTML_GAME"
  }

  function ParseResourceType(s: string): (r: Option<ResourceType>)
    ensures r.Some? ==> ResourceTypeName(r.value) == s
    ensures r.None? ==> s != "VIDEO" && s != "DOCUMENT" && s != "HTML_GAME"
  {
    if s == "VIDEO" then Some(Video)
    else if s == "DOCUMENT" then Some(Document)
    else if s == "HTML_GAME" then Some(HtmlGame)
    else None
  }

  lemma ResourceTypeRoundTrip(t: ResourceType)
    ensures ParseResourceType(ResourceTypeName(t)) == Some(t)
  {
  }

  /** The review state of a submission; there are only these two. */
  datatype SubmissionStatus = Pending | Reviewed

  function StatusName(s: SubmissionStatus): string
  {
    match s
    case Pending => "PENDING"
    case Reviewed => "REVIEWED"
  }

  function ParseStatus(s: string): (r: Option<SubmissionStatus>)
    ensures r.Some? ==> StatusName(r.value) == s
    ensures r.None? ==> s != "PENDING" && s != "REVIEWED"
  {
    if s == "PENDING" then Some(Pending)
    else if s == "REVIEWED" then Some(Reviewed)
    else None
  }

  lemma StatusRoundTrip(s: SubmissionStatus)
    ensures ParseStatus(StatusName(s)) == Some(s)
  {
  }

  /** A teacher or a student. A student may be enrolled in at most one course,
      referenced by id (courseId), or in none. */
  datatype User = User(
    id: string,
    email: string,
    name: string,
    role: Role,
    password: Option<string>,
    avatar: Option<string>,
    subject: Option<string>,
    courseId: Option<string>)

  /** A published learning resource: one owning teacher, a list of assigned
      student ids, a link or an inline HTML payload, and an optional expiry. */
  datatype Resource = Resource(
    id: string,
    title: string,
    description: string,
    kind: ResourceType,
    url: Option<string>,
    htmlContent: Option<string>,
    teacherId: string,
    assignedStudentIds: seq<string>,
    createdAt: int,
    expiresAt: Option<int>)

  /** A course, owned by exactly one teacher. */
  datatype Course = Course(id: string, name: string, teacherId: string)

  datatype Submission = Submission(
    id: string,
    resourceId: string,
    resourceTitle: string,
    studentId: string,
    studentName: string,
    fileData: string,
    status: SubmissionStatus,
    timestamp: int)

  datatype Message = Message(id: string, fromId: string, toId: string, content: string, timestamp: int)

  /** What an "open" button does with a resource: show its HTML in the
      embedded viewer, or hand its url (possibly null) to a new window. */
  datatype OpenAction = ShowEmbedded | OpenExternal(url: Option<string>)
}

/** The teacher dashboard: publishing a resource from the form, selecting its
    audience, deleting resources, registering courses and students, and
    refreshing the local copies of the remote tables. */
module TeacherDashboard {
  import opened Types
  import opened Lists
  import opened Remote

  /** Milliseconds in one hour. */
  const MsPerHour: int := 3600000

  /** The availability options of the form: 24 hours, 48 hours, one week, or
      no limit. */
  datatype Duration = Hours24 | Hours48 | Hours168 | Unlimited

  function HoursOf(d: Duration): nat
    requires d != Unlimited
  {
    match d
    case Hours24 => 24
    case Hours48 => 48
    case Hours168 => 168
  }

  /** The expiry stamped on a new resource published at time `now`. */
  function ExpiresAt(d: Duration, now: int): (e: Option<int>)
    ensures e.None? <==> d == Unlimited
    ensures e.Some? ==> e.value > now
    ensures d == Hours24 ==> e == Some(now + 86_400_000)
    ensures d == Hours48 ==> e == Some(now + 172_800_000)
    ensures d == Hours168 ==> e == Some(now + 604_800_000)
  {
    if d == Unlimited then None else Some(now + HoursOf(d) * MsPerHour)
  }

  /** The record sent to the resource table; the table adds the id and the
      creation time. */
  datatype NewResource = NewResource(
    title: string,
    description: string,
    kind: ResourceType,
    url: Option<string>,
    htmlContent: Option<string>,
    teacherId: string,
    assignedStudentIds: seq<string>,
    expiresAt: Option<int>)

  /** Turns the form into the record to insert. Exactly one of the two content
      fields is filled, and which one is decided by the kind alone. */
  function BuildResource(teacherId: string, title: string, description: string,
                         kind: ResourceType, url: string, html: string,
                         selected: seq<string>, duration: Duration, now: int): (n: NewResource)
    ensures n.title == title && n.description == description && n.kind == kind
    ensures n.teacherId == teacherId && n.assignedStudentIds == selected
    ensures n.url.Some? != n.htmlContent.Some?
    ensures n.htmlContent.Some? <==> kind == HtmlGame
    ensures kind == HtmlGame ==> n.htmlContent == Some(html)
    ensures kind != HtmlGame ==> n.url == Some(url)
    ensures n.expiresAt == ExpiresAt(duration, now)
    ensures n.expiresAt.None? <==> duration == Unlimited
    ensures n.expiresAt.Some? ==> n.expiresAt.value > now
  {
    NewResource(
      title, description, kind,
      if kind == HtmlGame then None else Some(url),
      if kind == HtmlGame then Some(html) else None,
      teacherId, selected, ExpiresAt(duration, now))
  }

  /** The row the table holds once it has assigned an id and a creation time. */
  function StoredRow(n: NewResource, id: string, createdAt: int): Resource
  {
    Resource(id, n.title, n.description, n.kind, n.url, n.htmlContent,
             n.teacherId, n.assignedStudentIds, createdAt, n.expiresAt)
  }

  /** What every resource published from this dashboard satisfies: it has an
      audience, and the kind decides which content field is present. */
  predicate Publishable(r: Resource)
  {
    |r.assignedStudentIds| > 0 &&
    (r.htmlContent.Some? <==> r.kind == HtmlGame) &&
    (r.url.Some? <==> r.kind != HtmlGame)
  }

  lemma PublishedRowIsPublishable(n: NewResource, teacherId: string, title: string, description: string,
                                  kind: ResourceType, url: string, html: string,
                                  selected: seq<string>, duration: Duration, now: int,
                                  id: string, createdAt: int)
    requires n == BuildResource(teacherId, title, description, kind, url, html, selected, duration, now)
    requires |selected| > 0
    ensures Publishable(StoredRow(n, id, createdAt))
    ensures StoredRow(n, id, createdAt).teacherId == teacherId
  {
  }

  /** The selection after a student's checkbox changes: checking appends the
      id, unchecking drops every occurrence of it. */
  function ToggleSelection(selected: seq<string>, id: string, checked: bool): (r: seq<string>)
    ensures checked ==> r == selected + [id]
    ensures !checked ==> id !in r
    ensures !checked ==> forall x :: x != id ==> multiset(r)[x] == multiset(selected)[x]
  {
    if checked then selected + [id] else Filter(selected, (x: string) => x != id)
  }

  /** Unchecking keeps the remaining ids in their original order. */
  lemma UncheckPreservesOrder(a: seq<string>, b: seq<string>, id: string)
    ensures ToggleSelection(a + b, id, false) == ToggleSelection(a, id, false) + ToggleSelection(b, id, false)
  {
    FilterAppend(a, b, (x: string) => x != id);
  }

  /** Unchecking an id that is not selected changes nothing. */
  lemma UncheckAbsentIsIdentity(selected: seq<string>, id: string)
    requires id !in selected
    ensures ToggleSelection(selected, id, false) == selected
  {
    FilterKeepsAll(selected, (x: string) => x != id);
  }

  /** Checking and then unchecking a student restores the selection. */
  lemma CheckThenUncheck(selected: seq<string>, id: string)
    requires id !in selected
    ensures ToggleSelection(ToggleSelection(selected, id, true), id, false) == selected
  {
    UncheckPreservesOrder(selected, [id], id);
    UncheckAbsentIsIdentity(selected, id);
    assert ToggleSelection([id], id, false) == [];
  }

  /** Newest first: the order in which the resource table is listed. */
  predicate IsNewestFirst(s: seq<Resource>)
  {
    forall i, j :: 0 <= i < j < |s| ==> s[i].createdAt >= s[j].createdAt
  }

  function InsertNewestFirst(r: Resource, s: seq<Resource>): (t: seq<Resource>)
    requires IsNewestFirst(s)
    ensures IsNewestFirst(t)
    ensures multiset(t) == multiset(s) + multiset{r}
  {
    if s == [] || r.createdAt >= s[0].createdAt then [r] + s
    else
      var rest := InsertNewestFirst(r, s[1..]);
      assert s == [s[0]] + s[1..];
      NoNewerThanHead(r, s, rest);
      [s[0]] + rest
  }

  lemma NoNewerThanHead(r: Resource, s: seq<Resource>, rest: seq<Resource>)
    requires IsNewestFirst(s) && s != [] && r.createdAt < s[0].createdAt
    requires multiset(rest) == multiset(s[1..]) + multiset{r}
    ensures forall x :: x in rest ==> x.createdAt <= s[0].createdAt
  {
    forall x | x in rest
      ensures x.createdAt <= s[0].createdAt
    {
      assert x in multiset(rest);
      assert x == r || x in multiset(s[1..]);
    }
  }

  /** The resource table ordered by creation time, newest first. Rows created
      at the same instant may come in any order. */
  function NewestFirst(s: seq<Resource>): (t: seq<Resource>)
    ensures IsNewestFirst(t)
    ensures multiset(t) == multiset(s)
  {
    if s == [] then []
    else
      assert s == [s[0]] + s[1..];
      InsertNewestFirst(s[0], NewestFirst(s[1..]))
  }

  /** The student row the registration form inserts. */
  function NewStudentRow(id: string, name: string, email: string, password: string,
                         courseChoice: string): (u: User)
    ensures u.role == Student
    ensures u.courseId.None? <==> courseChoice == ""
    ensures u.courseId.Some? ==> u.courseId.value == courseChoice
    ensures u.id == id && u.name == name && u.email == email && u.password == Some(password)
  {
    User(id, email, name, Student, Some(password), None, None,
         if courseChoice == "" then None else Some(courseChoice))
  }

  /** The teacher's own "open" button: any HTML_GAME goes to the viewer. */
  function TeacherOpenDecision(res: Resource): (a: OpenAction)
    ensures a == ShowEmbedded <==> res.kind == HtmlGame
    ensures a.OpenExternal? ==> a.url == res.url
  {
    if res.kind == HtmlGame then ShowEmbedded else OpenExternal(res.url)
  }

  /** Whether each of the four selects of a refresh came back with data. */
  datatype Replies = Replies(resources: bool, students: bool, courses: bool, submissions: bool)

  datatype PublishOutcome = Published | NoAudience | InsertFailed

  class Dashboard {
    const user: User
    const db: Tables

    var activeTab: string
    var students: seq<User>
    var courses: seq<Course>
    var resources: seq<Resource>
    var submissions: seq<Submission>
    var loading: bool
    var viewingResource: Option<Resource>

    // the publication form
    var newResTitle: string
    var newResDesc: string
    var newResUrl: string
    var newResHtml: string
    var newResType: ResourceType
    var durationHours: Duration
    var selectedStudentIds: seq<string>

    // the course and student forms
    var newCourseName: string
    var newStudName: string
    var newStudEmail: string
    var newStudPass: string
    var selectedCourseForStudent: string

    constructor (user: User, db: Tables)
      ensures this.user == user && this.db == db
      ensures activeTab == "dashboard" && !loading && viewingResource.None?
      ensures students == [] && courses == [] && resources == [] && submissions == []
      ensures newResTitle == "" && newResDesc == "" && newResUrl == "" && newResHtml == ""
      ensures newResType == Video && durationHours == Hours24 && selectedStudentIds == []
      ensures newCourseName == "" && newStudName == "" && newStudEmail == "" && newStudPass == ""
      ensures selectedCourseForStudent == ""
    {
      this.user, this.db := user, db;
      activeTab := "dashboard";
      students, courses, resources, submissions := [], [], [], [];
      loading, viewingResource := false, None;
      newResTitle, newResDesc, newResUrl, newResHtml := "", "", "", "";
      newResType, durationHours, selectedStudentIds := Video, Hours24, [];
      newCourseName, newStudName, newStudEmail, newStudPass := "", "", "", "";
      selectedCourseForStudent := "";
    }

    /** Every resource in the table satisfies the publication rules. */
    predicate TableInvariant()
      reads this, db
    {
      forall r :: r in db.resources ==> Publishable(r)
    }

    /** The record the publication form describes at time `now`. */
    function Draft(now: int): NewResource
      reads this
    {
      BuildResource(user.id, newResTitle, newResDesc, newResType, newResUrl, newResHtml,
                    selectedStudentIds, durationHours, now)
    }

    /** Reloads the local copies; a select that returns no data leaves its copy
        as it was. Resources come newest first and are not narrowed to this
        teacher. */
    method FetchData(reply: Replies)
      modifies this`loading, this`resources, this`students, this`courses, this`submissions
      ensures !loading
      ensures resources == if reply.resources then NewestFirst(db.resources) else old(resources)
      ensures students == if reply.students then db.students else old(students)
      ensures courses == if reply.courses then db.courses else old(courses)
      ensures submissions == if reply.submissions then db.submissions else old(submissions)
    {
      loading := true;
      if reply.resources { resources := NewestFirst(db.resources); }
      if reply.students { students := db.students; }
      if reply.courses { courses := db.courses; }
      if reply.submissions { submissions := db.submissions; }
      loading := false;
    }

    /** Publishes the form as a resource. An empty audience is refused before
        anything is sent; a failed insert changes nothing; a successful one
        refreshes, clears the form and returns to the dashboard tab. */
    method AddResource(now: int, insertOk: bool, rowId: string, createdAt: int, reply: Replies)
      returns (outcome: PublishOutcome)
      modifies this`newResTitle, this`newResDesc, this`newResUrl, this`newResHtml,
               this`selectedStudentIds, this`activeTab,
               this`loading, this`resources, this`students, this`courses, this`submissions,
               db`resources
      ensures outcome == if |old(selectedStudentIds)| == 0 then NoAudience
                         else if insertOk then Published else InsertFailed
      ensures outcome != Published ==> unchanged(this) && db.resources == old(db.resources)
      ensures outcome == Published ==>
        db.resources == old(db.resources) + [StoredRow(old(Draft(now)), rowId, createdAt)]
      ensures outcome == Published ==>
        newResTitle == "" && newResDesc == "" && newResUrl == "" && newResHtml == "" &&
        selectedStudentIds == [] && activeTab == "dashboard"
      ensures outcome == Published ==>
        !loading &&
        resources == (if reply.resources then NewestFirst(db.resources) else old(resources)) &&
        students == (if reply.students then db.students else old(students)) &&
        courses == (if reply.courses then db.courses else old(courses)) &&
        submissions == (if reply.submissions then db.submissions else old(submissions))
      ensures old(TableInvariant()) ==> TableInvariant()
    {
      if |selectedStudentIds| == 0 {
        return NoAudience;
      }
      var newRes := Draft(now);
      if !insertOk {
        return InsertFailed;
      }
      db.InsertResource(StoredRow(newRes, rowId, createdAt));
      FetchData(reply);
      newResTitle, newResDesc, newResUrl, newResHtml := "", "", "", "";
      selectedStudentIds := [];
      activeTab := "dashboard";
      outcome := Published;
    }

    /** A checkbox of the audience list changed. */
    method ToggleStudent(id: string, checked: bool)
      modifies this`selectedStudentIds
      ensures selectedStudentIds == ToggleSelection(old(selectedStudentIds), id, checked)
    {
      selectedStudentIds := ToggleSelection(selectedStudentIds, id, checked);
    }

    /** Deletes the resource with this id once the teacher confirms; the
        resource's owner is not compared with the current user. */
    method DeleteResource(id: string, confirmed: bool, reply: Replies)
      modifies this`loading, this`resources, this`students, this`courses, this`submissions,
               db`resources
      ensures db.resources == if confirmed then WithoutResource(old(db.resources), id)
                              else old(db.resources)
      ensures !confirmed ==> unchanged(this)
      ensures confirmed ==>
        !loading &&
        resources == (if reply.resources then NewestFirst(db.resources) else old(resources)) &&
        students == (if reply.students then db.students else old(students)) &&
        courses == (if reply.courses then db.courses else old(courses)) &&
        submissions == (if reply.submissions then db.submissions else old(submissions))
      ensures old(TableInvariant()) ==> TableInvariant()
    {
      if confirmed {
        db.DeleteResource(id);
        FetchData(reply);
      }
    }

    /** Registers a course owned by the current user. */
    method AddCourse(insertOk: bool, rowId: string, reply: Replies)
      modifies this`newCourseName,
               this`loading, this`resources, this`students, this`courses, this`submissions,
               db`courses
      ensures db.courses == if insertOk then old(db.courses) + [Course(rowId, old(newCourseName), user.id)]
                            else old(db.courses)
      ensures !insertOk ==> unchanged(this)
      ensures insertOk ==>
        newCourseName == "" && !loading &&
        resources == (if reply.resources then NewestFirst(db.resources) else old(resources)) &&
        students == (if reply.students then db.students else old(students)) &&
        courses == (if reply.courses then db.courses else old(courses)) &&
        submissions == (if reply.submissions then db.submissions else old(submissions))
    {
      if insertOk {
        db.InsertCourse(Course(rowId, newCourseName, user.id));
        newCourseName := "";
        FetchData(reply);
      }
    }

    /** Registers a student; the chosen course is kept for the next entry. */
    method AddStudent(insertOk: bool, rowId: string, reply: Replies)
      modifies this`newStudName, this`newStudEmail, this`newStudPass,
               this`loading, this`resources, this`students, this`courses, this`submissions,
               db`students
      ensures db.students ==
        if insertOk then old(db.students) + [NewStudentRow(rowId, old(newStudName), old(newStudEmail),
                                                           old(newStudPass), selectedCourseForStudent)]
        else old(db.students)
      ensures !insertOk ==> unchanged(this)
      ensures insertOk ==>
        newStudName == "" && newStudEmail == "" && newStudPass == "" && !loading &&
        resources == (if reply.resources then NewestFirst(db.resources) else old(resources)) &&
        students == (if reply.students then db.students else old(students)) &&
        courses == (if reply.courses then db.courses else old(courses)) &&
        submissions == (if reply.submissions then db.submissions else old(submissions))
    {
      if insertOk {
        db.InsertStudent(NewStudentRow(rowId, newStudName, newStudEmail, newStudPass,
                                       selectedCourseForStudent));
        FetchData(reply);
        newStudName, newStudEmail, newStudPass := "", "", "";
      }
    }

    /** Deletes a student row once confirmed. */
    method DeleteStudent(id: string, confirmed: bool, reply: Replies)
      modifies this`loading, this`resources, this`students, this`courses, this`submissions,
               db`students
      ensures db.students == if confirmed then WithoutStudent(old(db.students), id)
                             else old(db.students)
      ensures !confirmed ==> unchanged(this)
      ensures confirmed ==>
        !loading &&
        resources == (if reply.resources then NewestFirst(db.resources) else old(resources)) &&
        students == (if reply.students then db.students else old(students)) &&
        courses == (if reply.courses then db.courses else old(courses)) &&
        submissions == (if reply.submissions then db.submissions else old(submissions))
    {
      if confirmed {
        db.DeleteStudent(id);
        FetchData(reply);
      }
    }

    /** Deletes a course row once confirmed; students keep their course id. */
    method DeleteCourse(id: string, confirmed: bool, reply: Replies)
      modifies this`loading, this`resources, this`students, this`courses, this`submissions,
               db`courses
      ensures db.courses == if confirmed then WithoutCourse(old(db.courses), id)
                            else old(db.courses)
      ensures db.students == old(db.students)
      ensures !confirmed ==> unchanged(this)
      ensures confirmed ==>
        !loading &&
        resources == (if reply.resources then NewestFirst(db.resources) else old(resources)) &&
        students == (if reply.students then db.students else old(students)) &&
        courses == (if reply.courses then db.courses else old(courses)) &&
        submissions == (if reply.submissions then db.submissions else old(submissions))
    {
      if confirmed {
        db.DeleteCourse(id);
        FetchData(reply);
      }
    }

    /** The "open" button of a library card. */
    method OpenResource(res: Resource) returns (action: OpenAction)
      modifies this`viewingResource
      ensures action == TeacherOpenDecision(res)
      ensures viewingResource == if action == ShowEmbedded then Some(res) else old(viewingResource)
    {
      action := TeacherOpenDecision(res);
      if action == ShowEmbedded {
        viewingResource := Some(res);
      }
    }
  }
}

/** The student dashboard: which resources a student sees, and what opening one
    does. */
module StudentDashboard {
  import opened Types
  import opened Lists
  import opened Remote
  import TeacherDashboard

  /** The rows of the resource table whose audience contains the student, in
      table order. Nothing else is consulted: not the expiry, not the owner. */
  function AssignedTo(table: seq<Resource>, studentId: string): (r: seq<Resource>)
    ensures forall x :: x in r <==> x in table && studentId in x.assignedStudentIds
    ensures forall x :: multiset(r)[x] == if studentId in x.assignedStudentIds then multiset(table)[x] else 0
  {
    Filter(table, (x: Resource) => studentId in x.assignedStudentIds)
  }

  /** A resource that is assigned to the student is listed even after its
      expiry time has passed. */
  lemma ExpiredStillListed(table: seq<Resource>, studentId: string, r: Resource, now: int)
    requires r in table && studentId in r.assignedStudentIds
    requires r.expiresAt.Some? && r.expiresAt.value <= now
    ensures r in AssignedTo(table, studentId)
  {
  }

  /** Listing respects the table's order: the list of a concatenation is the
      concatenation of the lists. */
  lemma AssignedToAppend(a: seq<Resource>, b: seq<Resource>, studentId: string)
    ensures AssignedTo(a + b, studentId) == AssignedTo(a, studentId) + AssignedTo(b, studentId)
  {
    FilterAppend(a, b, (x: Resource) => studentId in x.assignedStudentIds);
  }

  /** A newly published resource shows up for exactly the students it was
      assigned to, after everything that was listed before. */
  lemma PublishedResourceListing(table: seq<Resource>, row: Resource, studentId: string)
    ensures studentId in row.assignedStudentIds ==>
              AssignedTo(table + [row], studentId) == AssignedTo(table, studentId) + [row]
    ensures studentId !in row.assignedStudentIds ==>
              AssignedTo(table + [row], studentId) == AssignedTo(table, studentId)
  {
    AssignedToAppend(table, [row], studentId);
    assert [row][1..] == [];
  }

  /** Opening a resource: the embedded viewer exactly for an HTML_GAME whose
      HTML is present and non-empty, otherwise its url in a new window (null
      for an HTML_GAME without HTML). */
  function OpenDecision(res: Resource): (a: OpenAction)
    ensures a == ShowEmbedded <==>
              res.kind == HtmlGame && res.htmlContent.Some? && res.htmlContent.value != ""
    ensures a.OpenExternal? ==> a.url == res.url
  {
    if res.kind == HtmlGame && res.htmlContent.Some? && res.htmlContent.value != "" then ShowEmbedded
    else OpenExternal(res.url)
  }

  /** The student's and the teacher's "open" buttons disagree exactly on an
      HTML_GAME without HTML, which the teacher opens in the viewer. */
  lemma OpenDecisionsDiffer(res: Resource)
    ensures OpenDecision(res) != TeacherDashboard.TeacherOpenDecision(res) <==>
              res.kind == HtmlGame && (res.htmlContent.None? || res.htmlContent.value == "")
  {
  }

  /** On a table holding only rows published from the teacher's form, every
      row a student sees has an audience and the content field its kind calls
      for; a listed link resource always opens a present url, and the two
      "open" buttons agree on every listed row whose HTML is non-empty. */
  lemma ListedPublishedRowsOpen(table: seq<Resource>, studentId: string)
    requires forall r :: r in table ==> TeacherDashboard.Publishable(r)
    ensures forall r :: r in AssignedTo(table, studentId) ==> TeacherDashboard.Publishable(r)
    ensures forall r :: r in AssignedTo(table, studentId) && r.kind != HtmlGame ==>
              r.url.Some? && OpenDecision(r) == OpenExternal(r.url)
    ensures forall r :: r in AssignedTo(table, studentId) && r.kind == HtmlGame && r.htmlContent != Some("") ==>
              OpenDecision(r) == TeacherDashboard.TeacherOpenDecision(r) == ShowEmbedded
  {
    forall r | r in AssignedTo(table, studentId)
      ensures TeacherDashboard.Publishable(r)
    {
      assert r in table;
    }
  }

  class Dashboard {
    const user: User
    const db: Tables

    var activeTab: string
    var resources: seq<Resource>
    var submissions: seq<Submission>
    var loading: bool
    var viewingResource: Option<Resource>

    constructor (user: User, db: Tables)
      ensures this.user == user && this.db == db
      ensures activeTab == "dashboard" && resources == [] && submissions == []
      ensures !loading && viewingResource.None?
    {
      this.user, this.db := user, db;
      activeTab := "dashboard";
      resources, submissions := [], [];
      loading, viewingResource := false, None;
    }

    /** The request is under way. */
    method BeginFetch()
      modifies this`loading
      ensures loading
    {
      loading := true;
    }

    /** The request has come back: with the assigned rows when it `answered`
        with data, otherwise the list held so far is kept. */
    method CompleteFetch(answered: bool)
      modifies this`resources, this`loading
      ensures !loading
      ensures resources == if answered then AssignedTo(db.resources, user.id) else old(resources)
    {
      if answered {
        resources := AssignedTo(db.resources, user.id);
      }
      loading := false;
    }

    method FetchStudentData(answered: bool)
      modifies this`resources, this`loading
      ensures !loading
      ensures resources == if answered then AssignedTo(db.resources, user.id) else old(resources)
      ensures forall r :: r in resources ==> user.id in r.assignedStudentIds || (!answered && r in old(resources))
    {
      BeginFetch();
      CompleteFetch(answered);
    }

    /** Shows the resource in the viewer or returns what a new window gets;
        the list of resources is untouched. */
    method HandleOpenResource(res: Resource) returns (action: OpenAction)
      modifies this`viewingResource
      ensures action == OpenDecision(res)
      ensures viewingResource == if action == ShowEmbedded then Some(res) else old(viewingResource)
    {
      action := OpenDecision(res);
      if action == ShowEmbedded {
        viewingResource := Some(res);
      }
    }
  }
}

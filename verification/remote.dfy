/** An in-memory stand-in for the four remote tables the dashboards read and
    write. Each remote call becomes one plain operation on a sequence; the row
    id and creation time the remote service assigns are supplied by the caller. */
module Remote {
  import opened Types
  import opened Lists

  /** The resource table without every row whose id is `id`. */
  function WithoutResource(rows: seq<Resource>, id: string): (r: seq<Resource>)
    ensures forall x :: x in r <==> x in rows && x.id != id
    ensures forall x: Resource :: x.id != id ==> multiset(r)[x] == multiset(rows)[x]
  {
    Filter(rows, (x: Resource) => x.id != id)
  }

  /** Deleting an id that no row carries leaves the table as it was. */
  lemma DeleteOfMissingIdKeepsTable(rows: seq<Resource>, id: string)
    requires forall x :: x in rows ==> x.id != id
    ensures WithoutResource(rows, id) == rows
  {
    FilterKeepsAll(rows, (x: Resource) => x.id != id);
  }

  /** Deleting keeps the surviving rows in their order. */
  lemma DeletePreservesOrder(a: seq<Resource>, b: seq<Resource>, id: string)
    ensures WithoutResource(a + b, id) == WithoutResource(a, id) + WithoutResource(b, id)
  {
    FilterAppend(a, b, (x: Resource) => x.id != id);
  }

  function WithoutStudent(rows: seq<User>, id: string): (r: seq<User>)
    ensures forall x :: x in r <==> x in rows && x.id != id
    ensures forall x: User :: x.id != id ==> multiset(r)[x] == multiset(rows)[x]
  {
    Filter(rows, (x: User) => x.id != id)
  }

  function WithoutCourse(rows: seq<Course>, id: string): (r: seq<Course>)
    ensures forall x :: x in r <==> x in rows && x.id != id
    ensures forall x: Course :: x.id != id ==> multiset(r)[x] == multiset(rows)[x]
  {
    Filter(rows, (x: Course) => x.id != id)
  }

  class Tables {
    var resources: seq<Resource>
    var students: seq<User>
    var courses: seq<Course>
    var submissions: seq<Submission>

    constructor ()
      ensures resources == [] && students == [] && courses == [] && submissions == []
    {
      resources, students, courses, submissions := [], [], [], [];
    }

    method InsertResource(row: Resource)
      modifies this`resources
      ensures resources == old(resources) + [row]
    {
      resources := resources + [row];
    }

    /** Deletes every resource row with this id, whoever owns it. */
    method DeleteResource(id: string)
      modifies this`resources
      ensures resources == WithoutResource(old(resources), id)
    {
      resources := WithoutResource(resources, id);
    }

    method InsertStudent(row: User)
      modifies this`students
      ensures students == old(students) + [row]
    {
      students := students + [row];
    }

    method DeleteStudent(id: string)
      modifies this`students
      ensures students == WithoutStudent(old(students), id)
    {
      students := WithoutStudent(students, id);
    }

    method InsertCourse(row: Course)
      modifies this`courses
      ensures courses == old(courses) + [row]
    {
      courses := courses + [row];
    }

    method DeleteCourse(id: string)
      modifies this`courses
      ensures courses == WithoutCourse(old(courses), id)
    {
      courses := WithoutCourse(courses, id);
    }
  }
}

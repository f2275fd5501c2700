# Resource assignment in the EDUCA-BM dashboards

A teacher publishes learning resources: videos, documents and interactive
HTML activities. Each one goes to a chosen list of students, optionally with
an expiry. Students see the resources assigned to them. This project models
the rules behind that, in Dafny:

- how the teacher's publication form becomes a resource record: the audience
  guard, the expiry computed from the chosen duration, the single content
  field chosen by the type, and the form reset after a successful insert;
- the teacher's list operations: toggling a student in the audience, deleting
  a resource, course or student after confirmation, registering a course or a
  student, and the refresh that lists resources newest first;
- the student's side: the visible list is exactly the assigned resources, and
  opening a resource either shows the embedded viewer or opens the resource's
  url.

Modules, one per source file plus two helpers:

- `Types` (`types.dfy`) holds the records and enumerations: `Role`,
  `ResourceType`, `SubmissionStatus`, `User`, `Resource`, `Course`,
  `Submission` and `Message`. Each enumeration also has its stored spelling
  and the parser for it. A resource has one `teacherId` and a list of
  assigned student ids. Its `htmlContent` and `expiresAt` are optional, and so
  is its `url`, because the code stores null there for an HTML game. A course
  has one `teacherId`. A user's `courseId` is optional.
- `Lists` (`lists.dfy`) holds `Filter`, the array filter both dashboards use,
  with its order and membership lemmas.
- `Remote` (`remote.dfy`) is an in-memory stand-in for the four remote tables
  (`resources`, `students`, `courses`, `submissions`). It is a class whose
  sequence fields the insert and delete methods reassign.
- `TeacherDashboard` (`teacher.dfy`) holds the pure publication and selection
  rules and a `Dashboard` class. The class has the component's state fields,
  and its methods update those fields and the tables.
- `StudentDashboard` (`student.dfy`) holds the visibility filter, the open
  decision and the student's `Dashboard` class.

Inputs from the outside world are parameters:

- The clock (`Date.now()`) is `now`, in integer milliseconds.
- The confirmation dialog is `confirmed`.
- Whether an insert succeeded is `insertOk`.
- Whether each select came back with data is a `Replies` value (teacher) or
  `answered` (student).
- The id and `created_at` the remote table assigns to a new row are `rowId`
  and `createdAt`.

## Behaviour as the code has it

The model follows the code where the code differs from the intended design of
the system:

- A student's list is not narrowed by expiry. An assigned resource whose
  `expires_at` has passed is still listed and can be opened
  (`StudentDashboard.ExpiredStillListed`).
- Deleting a resource does not compare its `teacher_id` with the current user.
  The teacher's refresh lists every teacher's resources.
- Submissions are only loaded. No operation changes a submission's status.
- Publication checks only the audience. An empty title is not rejected by the
  code. A content/kind mismatch cannot arise, because the kind alone decides
  which content field is filled.
- The expiry is relative to the client clock `now`, not to the `created_at`
  the table assigns. So "expires after creation" is not guaranteed; only
  "expires after `now`" is.
- `types.ts` declares `url` as a required string, yet an HTML game is
  inserted with a null url. The model's `url` is therefore optional.
- The teacher's own "open" button sends every HTML game to the viewer. The
  student's button does so only when the HTML is non-empty
  (`StudentDashboard.OpenDecisionsDiffer`).

## Model

| member | source | states |
|---|---|---|
| Types.ParseRole | types.ts:2 | a stored role is exactly "TEACHER" or "STUDENT"; any other string is not a role |
| Types.RoleRoundTrip | types.ts:2 | every role reads back as itself from its stored spelling, which is one of the two literals |
| Types.ParseResourceType | types.ts:15 | a resource type is exactly one of "VIDEO", "DOCUMENT", "HTML_GAME" |
| Types.ResourceTypeRoundTrip | types.ts:15 | every resource type reads back as itself from its stored spelling |
| Types.ParseStatus | types.ts:43 | a submission status is only ever "PENDING" or "REVIEWED" |
| Types.StatusRoundTrip | types.ts:43 | every status reads back as itself from its stored spelling |
| Lists.Filter | views/TeacherDashboard.tsx:282 | the result holds exactly the elements that pass the test, each as often as in the input, and is no longer than the input |
| Lists.FilterAppend | views/TeacherDashboard.tsx:282 | filtering distributes over concatenation, so the kept elements stay in their original order |
| Lists.FilterKeepsAll | views/TeacherDashboard.tsx:282 | a list whose elements all pass is returned unchanged |
| Remote.WithoutResource | views/TeacherDashboard.tsx:94 | deleting by id removes every row with that id and keeps every other row with its multiplicity |
| Remote.DeleteOfMissingIdKeepsTable | views/TeacherDashboard.tsx:94 | deleting an id no row carries leaves the table unchanged |
| Remote.DeletePreservesOrder | views/TeacherDashboard.tsx:94 | the surviving rows keep their relative order |
| Remote.WithoutStudent | views/TeacherDashboard.tsx:352 | deleting a student removes exactly the rows with that id |
| Remote.WithoutCourse | views/TeacherDashboard.tsx:370 | deleting a course removes exactly the rows with that id |
| Remote.Tables.InsertResource | views/TeacherDashboard.tsx:81 | the resource table gains the row at its end and nothing else changes |
| Remote.Tables.DeleteResource | views/TeacherDashboard.tsx:94 | the resource table loses exactly the rows with the id |
| Remote.Tables.InsertStudent | views/TeacherDashboard.tsx:110-116 | the student table gains the row at its end |
| Remote.Tables.DeleteStudent | views/TeacherDashboard.tsx:352 | the student table loses exactly the rows with the id |
| Remote.Tables.InsertCourse | views/TeacherDashboard.tsx:101 | the course table gains the row at its end |
| Remote.Tables.DeleteCourse | views/TeacherDashboard.tsx:370 | the course table loses exactly the rows with the id |
| TeacherDashboard.ExpiresAt | views/TeacherDashboard.tsx:68 | unlimited gives no expiry; 24, 48 and 168 hours give now + 86 400 000, 172 800 000 and 604 800 000 ms, always strictly after now |
| TeacherDashboard.BuildResource | views/TeacherDashboard.tsx:70-79 | title, description and kind are copied; the owner is the current user; the audience is the selection unchanged; html is set and url is null exactly for HTML_GAME, and url is set otherwise; the expiry is ExpiresAt of the duration at now, hence none exactly for unlimited and strictly after now otherwise |
| TeacherDashboard.PublishedRowIsPublishable | views/TeacherDashboard.tsx:64-81 | a row inserted from a non-empty selection has an audience and exactly the content field its kind calls for |
| TeacherDashboard.ToggleSelection | views/TeacherDashboard.tsx:282 | checking appends the id; unchecking removes every occurrence of it and keeps every other id as often as before |
| TeacherDashboard.UncheckPreservesOrder | views/TeacherDashboard.tsx:282 | unchecking keeps the remaining ids in their original order |
| TeacherDashboard.UncheckAbsentIsIdentity | views/TeacherDashboard.tsx:282 | unchecking an id that is not selected changes nothing |
| TeacherDashboard.CheckThenUncheck | views/TeacherDashboard.tsx:281-282 | checking then unchecking an unselected student restores the selection |
| TeacherDashboard.InsertNewestFirst | views/TeacherDashboard.tsx:48 | inserting into a newest-first list gives a newest-first list with one more copy of the row |
| TeacherDashboard.NewestFirst | views/TeacherDashboard.tsx:48 | the listing is ordered by created_at descending and is a permutation of the table |
| TeacherDashboard.NewStudentRow | views/TeacherDashboard.tsx:110-116 | a registered student always has role STUDENT; an empty course choice is stored as null, any other as that course id |
| TeacherDashboard.TeacherOpenDecision | views/TeacherDashboard.tsx:172 | the teacher's open button uses the viewer exactly for HTML_GAME, otherwise opens the url |
| TeacherDashboard.Dashboard.constructor | views/TeacherDashboard.tsx:17-39 | the initial state: dashboard tab, empty lists and forms, VIDEO, 24 hours, nothing selected |
| TeacherDashboard.Dashboard.FetchData | views/TeacherDashboard.tsx:45-62 | after a refresh loading is false; each copy is replaced by its table when the select returned data and kept otherwise; resources come newest first |
| TeacherDashboard.Dashboard.AddResource | views/TeacherDashboard.tsx:64-90 | an empty selection is refused and changes nothing; a failed insert changes nothing; a successful one appends the built row, refreshes, clears title, description, url, html and selection, returns to the dashboard tab, and keeps type and duration; the table invariant is preserved |
| TeacherDashboard.Dashboard.ToggleStudent | views/TeacherDashboard.tsx:282 | the selection becomes the toggled selection and nothing else changes |
| TeacherDashboard.Dashboard.DeleteResource | views/TeacherDashboard.tsx:92-97 | unconfirmed, nothing changes; confirmed, exactly the rows with the id are removed, whoever owns them, and the view is refreshed |
| TeacherDashboard.Dashboard.AddCourse | views/TeacherDashboard.tsx:99-106 | on success a course with the form's name and the current user as owner is appended and the name is cleared; on failure nothing changes |
| TeacherDashboard.Dashboard.AddStudent | views/TeacherDashboard.tsx:108-124 | on success a STUDENT row is appended and name, email and password are cleared while the course choice is kept; on failure nothing changes |
| TeacherDashboard.Dashboard.DeleteStudent | views/TeacherDashboard.tsx:352 | confirmed, exactly the student rows with the id are removed and all four copies are refreshed; otherwise nothing changes |
| TeacherDashboard.Dashboard.DeleteCourse | views/TeacherDashboard.tsx:370 | confirmed, exactly the course rows with the id are removed, the student table is untouched and all four copies are refreshed; otherwise nothing changes |
| TeacherDashboard.Dashboard.OpenResource | views/TeacherDashboard.tsx:172 | an HTML_GAME is put in the viewer; any other resource's url is returned for a new window |
| StudentDashboard.AssignedTo | views/StudentDashboard.tsx:27-30 | a resource is listed exactly when it is in the table and its assigned ids contain the student, each as often as in the table |
| StudentDashboard.ExpiredStillListed | views/StudentDashboard.tsx:27-32 | an assigned resource whose expiry has passed is still listed |
| StudentDashboard.AssignedToAppend | views/StudentDashboard.tsx:27-30 | the listing keeps the table's order (the model's choice for an unordered select) |
| StudentDashboard.PublishedResourceListing | views/StudentDashboard.tsx:27-30 | a newly published row appears at the end of the list of exactly the students it was assigned to and leaves other students' lists unchanged |
| StudentDashboard.OpenDecision | views/StudentDashboard.tsx:36-42 | the viewer is used exactly when the type is HTML_GAME and the html is present and non-empty; otherwise the resource's url is opened |
| StudentDashboard.ListedPublishedRowsOpen | views/StudentDashboard.tsx:27-42 | when every stored row was published from the teacher's form, every listed row has an audience and its kind's content field, a listed link resource opens a present url, and the two open buttons agree on listed HTML games with non-empty html |
| StudentDashboard.OpenDecisionsDiffer | views/StudentDashboard.tsx:37 | the student's and the teacher's open buttons disagree exactly on an HTML_GAME without html |
| StudentDashboard.Dashboard.constructor | views/StudentDashboard.tsx:14-18 | the initial state: dashboard tab, no resources, not loading, no viewer |
| StudentDashboard.Dashboard.BeginFetch | views/StudentDashboard.tsx:25 | loading is true while the request runs |
| StudentDashboard.Dashboard.CompleteFetch | views/StudentDashboard.tsx:32-33 | loading becomes false; the list becomes the assigned rows when data came back and is kept otherwise |
| StudentDashboard.Dashboard.FetchStudentData | views/StudentDashboard.tsx:24-34 | after the fetch loading is false and every listed resource is assigned to the student, unless no data came back and the old list was kept |
| StudentDashboard.Dashboard.HandleOpenResource | views/StudentDashboard.tsx:36-42 | the viewer holds the resource exactly when the open decision is the viewer; the resource list is never changed |

## Left out

- The remote query client is not part of this model. Each table is a
  sequence, and each insert, delete or select is one operation on it. A
  remote failure is only "the insert failed" or "the select returned no
  data".
- An exception thrown inside the teacher's refresh is only logged by the
  code. The model's refresh does not throw; each select returns data or not.
- The refreshes after publishing, deleting and registering are not awaited.
  The model runs each refresh to completion at the point it is started. Its
  interleaving with later state updates and with other requests is not
  modelled.
- The browser's form validation is not modelled. This covers `required` on
  the title, url, html and registration fields, and `type="url"`. The model
  accepts empty strings wherever the code itself does.
- TeacherDashboard.ExpiresAt: does not model the RangeError that
  `toISOString` raises for times beyond ±8.64e15 ms, since times are kept as
  integer milliseconds rather than ISO strings. Date display formatting is
  left out too.
- The duration is the enumeration {24 h, 48 h, 168 h, unlimited}, not the
  select's string parsed with `parseInt`.
- TeacherDashboard.NewestFirst: rows with the same `created_at` come back in
  an order the remote service does not specify. The model picks one order,
  and its contract promises only "sorted newest first and a permutation".
- The student's select has no order clause, so the order of a student's list
  is unspecified. The model lists rows in table order; that is its own choice,
  and the "order" and "at the end" statements of
  `StudentDashboard.AssignedToAppend` and
  `StudentDashboard.PublishedResourceListing` are about that choice, not about
  the program.
- Alert and confirm dialogs are left out. Their outcome is a parameter or a
  returned outcome value; the message texts are not modelled.
- Form field setters are plain assignments to the public fields. The viewer
  close buttons reset `viewingResource` to none the same way. The mount-time
  refresh is left to the caller of the constructor.
- Rendering, styling, icons and the iframe HTML template are left out. The
  navigation layout (components/Layout.tsx), login (views/LoginView.tsx) and
  session persistence (App.tsx) are not part of this model either.
- Messages are declared as a record only. No code in the modelled files sends
  or reads them.

/** The parent dashboard: the parent's profile, a picker over the students
    linked to the parent, and the details of the chosen student. */
module ParentDashboard {
  import opened Common
  import opened Display

  datatype ParentProfile = ParentProfile(firstName: string, lastName: string, email: string)

  datatype StudentProfile = StudentProfile(id: string, firstName: string, lastName: string, gradeLevel: int)

  /** A grade document with its identifier. */
  datatype Grade = Grade(id: string, courseName: string, score: int, letterGrade: string)

  /** The three sample grades shown when the student has none. */
  const MockGrades: seq<Grade> := [
    Grade("mock-g1", "Biology", 91, "A-"),
    Grade("mock-g2", "World History", 84, "B"),
    Grade("mock-g3", "Algebra II", 88, "B+")
  ]

  /** The three sample attendance records, for the three days before
      today; `dateOf(k)` is the date `k` days ago, read from the clock. */
  function MockAttendance(dateOf: nat -> string): seq<AttendanceRecord>
  {
    [ AttendanceRecord("mock-a1", dateOf(1), Present),
      AttendanceRecord("mock-a2", dateOf(2), Tardy),
      AttendanceRecord("mock-a3", dateOf(3), Present) ]
  }

  /** The grades of the chosen student unchanged, or the three sample grades. */
  function DisplayGrades(grades: Option<seq<Grade>>): (r: seq<Grade>)
    ensures HasRows(grades) ==> r == grades.value
    ensures !HasRows(grades) ==> r == MockGrades && |r| == 3
  {
    WithFallback(grades, MockGrades)
  }

  /** The first `min(5, n)` attendance records in stored order, or the
      three sample records when there are none. */
  function DisplayAttendance(attendance: Option<seq<AttendanceRecord>>, dateOf: nat -> string)
    : (r: seq<AttendanceRecord>)
    ensures 0 < |r| <= MaxAttendanceRows
    ensures HasRows(attendance) ==> r <= attendance.value
    ensures HasRows(attendance) && |attendance.value| >= MaxAttendanceRows ==> |r| == MaxAttendanceRows
    ensures HasRows(attendance) && |attendance.value| < MaxAttendanceRows ==> r == attendance.value
    ensures !HasRows(attendance) ==> r == MockAttendance(dateOf) && |r| == 3
  {
    RecentAttendance(attendance, MockAttendance(dateOf))
  }

  /** What `StudentDetails` renders. */
  datatype DetailsView =
    | DetailsLoading
    | ProfileUnavailable
    | Details(profile: StudentProfile, grades: seq<Grade>, attendance: seq<AttendanceRow>)

  /** `StudentDetails`: a spinner while any of its three reads is loading,
      a notice when the profile is missing, else the two tables. */
  function StudentDetails(isProfileLoading: bool, areGradesLoading: bool, isAttendanceLoading: bool,
                          profile: Option<StudentProfile>, grades: Option<seq<Grade>>,
                          attendance: Option<seq<AttendanceRecord>>, dateOf: nat -> string): (v: DetailsView)
    ensures v == DetailsLoading <==> isProfileLoading || areGradesLoading || isAttendanceLoading
    ensures v == ProfileUnavailable <==>
      !(isProfileLoading || areGradesLoading || isAttendanceLoading) && profile.None?
    ensures v.Details? ==>
      profile == Some(v.profile) && v.grades == DisplayGrades(grades) &&
      v.attendance == AttendanceRows(DisplayAttendance(attendance, dateOf))
  {
    if isProfileLoading || areGradesLoading || isAttendanceLoading then DetailsLoading
    else if profile.None? then ProfileUnavailable
    else Details(profile.value, DisplayGrades(grades), AttendanceRows(DisplayAttendance(attendance, dateOf)))
  }

  /** The default-selection effect: when students have loaded and nothing
      is selected (`null` or `""`), pick the first student; a selection
      that is already made is never replaced. */
  function DefaultSelection(students: Option<seq<StudentProfile>>, selected: Option<string>): (r: Option<string>)
    ensures Truthy(selected) ==> r == selected
    ensures !Truthy(selected) && HasRows(students) ==> r == Some(students.value[0].id)
    ensures !Truthy(selected) && !HasRows(students) ==> r == selected
  {
    if HasRows(students) && !Truthy(selected) then Some(students.value[0].id) else selected
  }

  /** Running the effect again changes nothing: the selection is settled. */
  lemma DefaultSelectionSettles(students: Option<seq<StudentProfile>>, selected: Option<string>)
    ensures DefaultSelection(students, DefaultSelection(students, selected)) == DefaultSelection(students, selected)
  {
  }

  /** The students card: the no-students notice, or the picker (showing the
      selected id, `""` when there is none) and the chosen student's
      details when an id is selected. */
  datatype StudentsSection =
    | NoStudents
    | Picker(options: seq<StudentProfile>, value: string, detailsFor: Option<string>)

  datatype ParentView = Loading | NoParentProfile | Portal(parent: ParentProfile, section: StudentsSection)

  /** The page body. */
  function View(isUserLoading: bool, isProfileLoading: bool, areStudentsLoading: bool,
                parentProfile: Option<ParentProfile>, students: Option<seq<StudentProfile>>,
                selected: Option<string>): (v: ParentView)
    ensures v == Loading <==> isUserLoading || isProfileLoading || areStudentsLoading
    ensures v == NoParentProfile <==>
      !(isUserLoading || isProfileLoading || areStudentsLoading) && parentProfile.None?
    ensures v.Portal? ==> parentProfile == Some(v.parent)
    ensures v.Portal? ==> (v.section == NoStudents <==> !HasRows(students))
    ensures v.Portal? && v.section.Picker? ==>
      students == Some(v.section.options) &&
      v.section.value == (if selected.Some? then selected.value else "") &&
      (v.section.detailsFor.Some? <==> Truthy(selected)) &&
      (v.section.detailsFor.Some? ==> selected == v.section.detailsFor)
  {
    if isUserLoading || isProfileLoading || areStudentsLoading then Loading
    else if parentProfile.None? then NoParentProfile
    else if !HasRows(students) then Portal(parentProfile.value, NoStudents)
    else
      Portal(parentProfile.value,
             Picker(students.value,
                    if selected.Some? then selected.value else "",
                    if Truthy(selected) then selected else None))
  }

  /** Once the default selection has run over a loaded list whose first
      student has an id, that student's details are the ones shown. */
  lemma FirstStudentShownByDefault(parent: ParentProfile, students: seq<StudentProfile>)
    requires |students| > 0 && students[0].id != ""
    ensures View(false, false, false, Some(parent), Some(students), DefaultSelection(Some(students), None))
         == Portal(parent, Picker(students, students[0].id, Some(students[0].id)))
  {
  }

  /** The page's redirect effect: once the user has loaded, a visitor
      without a user is sent to the parent login page. */
  function RedirectWhenSignedOut(isUserLoading: bool, user: Option<User>): (r: Option<Route>)
    ensures r.Some? <==> !isUserLoading && user.None?
    ensures r.Some? ==> r.value == ParentLogin && Path(r.value) == "/parent-login"
  {
    if !isUserLoading && user.None? then Some(ParentLogin) else None
  }

  /** The page's `selectedStudentId` state. */
  class Selection {
    var selectedStudentId: Option<string>

    /** `useState<string | null>(null)`. */
    constructor ()
      ensures selectedStudentId == None
    {
      selectedStudentId := None;
    }

    /** One run of the default-selection effect over the loaded students. */
    method SelectDefault(students: Option<seq<StudentProfile>>)
      modifies this
      ensures selectedStudentId == DefaultSelection(students, old(selectedStudentId))
      ensures Truthy(old(selectedStudentId)) ==> selectedStudentId == old(selectedStudentId)
    {
      if HasRows(students) && !Truthy(selectedStudentId) {
        selectedStudentId := Some(students.value[0].id);
      }
    }

    /** The picker's `onValueChange`: the parent chooses a student. */
    method Choose(id: string)
      modifies this
      ensures selectedStudentId == Some(id)
    {
      selectedStudentId := Some(id);
    }
  }
}

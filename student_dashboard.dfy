/** The student dashboard: the signed-in student's profile, grades and
    recent attendance, with sample rows standing in for empty collections. */
module StudentDashboard {
  import opened Common
  import opened Display

  datatype StudentProfile = StudentProfile(firstName: string, lastName: string, email: string, gradeLevel: int)

  /** A grade document with its identifier. */
  datatype Grade = Grade(id: string, courseName: string, term: string, score: int, letterGrade: string)

  /** The four sample grades shown when the student has none. */
  const MockGrades: seq<Grade> := [
    Grade("mock-g1", "Mathematics", "Fall 2024", 92, "A-"),
    Grade("mock-g2", "English Literature", "Fall 2024", 88, "B+"),
    Grade("mock-g3", "Physics", "Fall 2024", 95, "A"),
    Grade("mock-g4", "History", "Fall 2024", 85, "B")
  ]

  /** The five sample attendance records, for today and the four days
      before; `dateOf(k)` is the date `k` days ago, read from the clock. */
  function MockAttendance(dateOf: nat -> string): seq<AttendanceRecord>
  {
    [ AttendanceRecord("mock-a1", dateOf(0), Present),
      AttendanceRecord("mock-a2", dateOf(1), Present),
      AttendanceRecord("mock-a3", dateOf(2), Absent),
      AttendanceRecord("mock-a4", dateOf(3), Present),
      AttendanceRecord("mock-a5", dateOf(4), Tardy) ]
  }

  /** `displayGrades`: the student's grades unchanged, or exactly the four
      sample grades when there are none. */
  function DisplayGrades(grades: Option<seq<Grade>>): (r: seq<Grade>)
    ensures HasRows(grades) ==> r == grades.value
    ensures !HasRows(grades) ==> r == MockGrades && |r| == 4
    ensures |r| > 0
  {
    WithFallback(grades, MockGrades)
  }

  /** `displayAttendance`: the first `min(5, n)` records in stored order,
      or the five sample records when there are none. */
  function DisplayAttendance(attendance: Option<seq<AttendanceRecord>>, dateOf: nat -> string)
    : (r: seq<AttendanceRecord>)
    ensures 0 < |r| <= MaxAttendanceRows
    ensures HasRows(attendance) ==> r <= attendance.value
    ensures HasRows(attendance) && |attendance.value| >= MaxAttendanceRows ==> |r| == MaxAttendanceRows
    ensures HasRows(attendance) && |attendance.value| < MaxAttendanceRows ==> r == attendance.value
    ensures !HasRows(attendance) ==> r == MockAttendance(dateOf)
  {
    RecentAttendance(attendance, MockAttendance(dateOf))
  }

  /** What the page renders. */
  datatype StudentView =
    | Loading
    | NoProfile
    | Overview(profile: StudentProfile, grades: seq<Grade>, attendance: seq<AttendanceRow>)

  /** The page body: a spinner while any of the four reads is loading, the
      no-profile message when the profile is missing, else the two tables. */
  function View(isUserLoading: bool, isProfileLoading: bool, areGradesLoading: bool, isAttendanceLoading: bool,
                profile: Option<StudentProfile>, grades: Option<seq<Grade>>,
                attendance: Option<seq<AttendanceRecord>>, dateOf: nat -> string): (v: StudentView)
    ensures v == Loading <==> isUserLoading || isProfileLoading || areGradesLoading || isAttendanceLoading
    ensures v == NoProfile <==>
      !(isUserLoading || isProfileLoading || areGradesLoading || isAttendanceLoading) && profile.None?
    ensures v.Overview? ==>
      profile == Some(v.profile) && v.grades == DisplayGrades(grades) &&
      v.attendance == AttendanceRows(DisplayAttendance(attendance, dateOf))
  {
    if isUserLoading || isProfileLoading || areGradesLoading || isAttendanceLoading then Loading
    else if profile.None? then NoProfile
    else Overview(profile.value, DisplayGrades(grades), AttendanceRows(DisplayAttendance(attendance, dateOf)))
  }

  /** The page's redirect effect: once the user has loaded, a visitor
      without a user is sent to the student login page. */
  function RedirectWhenSignedOut(isUserLoading: bool, user: Option<User>): (r: Option<Route>)
    ensures r.Some? <==> !isUserLoading && user.None?
    ensures r.Some? ==> r.value == StudentLogin && Path(r.value) == "/student-login"
  {
    if !isUserLoading && user.None? then Some(StudentLogin) else None
  }

  /** The attendance table never has more than five rows, and each row's
      badge is the one its status calls for. */
  lemma AttendanceTableBounded(isUserLoading: bool, isProfileLoading: bool, areGradesLoading: bool,
                               isAttendanceLoading: bool, profile: Option<StudentProfile>,
                               grades: Option<seq<Grade>>, attendance: Option<seq<AttendanceRecord>>,
                               dateOf: nat -> string)
    ensures var v := View(isUserLoading, isProfileLoading, areGradesLoading, isAttendanceLoading,
                          profile, grades, attendance, dateOf);
            v.Overview? ==>
              0 < |v.attendance| <= MaxAttendanceRows &&
              forall i :: 0 <= i < |v.attendance| ==> v.attendance[i].badge == BadgeFor(v.attendance[i].record.status)
  {
  }
}

/** The `/dashboard` page: once the user and both profile documents have
    loaded, it sends the user on to the dashboard of the role they hold. */
module Dashboard {
  import opened Common

  /** Either keep waiting (no navigation), or replace the URL with a route. */
  datatype Decision = Wait | Replace(to: Route)

  /** The redirect effect. A parent profile wins over a student profile;
      a user without any profile, like a visitor without a user, goes home.
      Profiles are documents whose contents this decision never reads. */
  function Redirect<P, S>(isUserLoading: bool, isParentLoading: bool, isStudentLoading: bool,
                          user: Option<User>, parentProfile: Option<P>, studentProfile: Option<S>): (d: Decision)
    ensures d == Wait <==> isUserLoading || isParentLoading || isStudentLoading
    ensures d == Replace(ParentDashboard) <==>
      !isUserLoading && !isParentLoading && !isStudentLoading && user.Some? && parentProfile.Some?
    ensures d == Replace(StudentDashboard) <==>
      !isUserLoading && !isParentLoading && !isStudentLoading && user.Some? && parentProfile.None? && studentProfile.Some?
    ensures d == Replace(Home) <==>
      !isUserLoading && !isParentLoading && !isStudentLoading && (user.None? || (parentProfile.None? && studentProfile.None?))
    ensures d.Replace? ==> d.to == Home || d.to == ParentDashboard || d.to == StudentDashboard
    ensures d.Replace? ==> Path(d.to) == "/" || Path(d.to) == "/parent-dashboard" || Path(d.to) == "/student-dashboard"
  {
    if isUserLoading || isParentLoading || isStudentLoading then Wait
    else if user.None? then Replace(Home)
    else if parentProfile.Some? then Replace(ParentDashboard)
    else if studentProfile.Some? then Replace(StudentDashboard)
    else Replace(Home)
  }

  /** Parent takes priority: once a parent profile exists the student
      profile, present or not, makes no difference. */
  lemma ParentTakesPriority<P, S>(user: User, parent: P, student: S)
    ensures Redirect<P, S>(false, false, false, Some(user), Some(parent), Some(student))
         == Redirect<P, S>(false, false, false, Some(user), Some(parent), None)
         == Replace(ParentDashboard)
  {
  }

  /** Without a user, the profiles are never consulted. */
  lemma NoUserIgnoresProfiles<P, S>(parent: Option<P>, student: Option<S>)
    ensures Redirect(false, false, false, None, parent, student) == Replace(Home)
  {
  }
}

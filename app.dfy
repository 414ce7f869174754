/** The portal's root component: who is logged in, and which page each
    location shows. Locations are hash-router paths; they are matched on their
    non-empty segments. */
module App {

  import opened Types
  import opened Strings

  /** The pages the router can show. */
  datatype Page =
    | Login
    | StudentDashboard
    | StudentGroups
    | StudentGroupDetails(groupId: string)
    | StudentStatistics
    | StudentProfile
    | JoinLecture(lectureId: string)
    | FacultyDashboard
    | LiveLecture
    | FacultyGroups
    | FacultySchedule
    | FacultyAnalytics
    | FacultyProfile

  /** What the router does with a location: show a page, navigate elsewhere,
      or match no route at all (nothing is rendered). */
  datatype View = Show(page: Page) | Redirect(target: string) | NoMatch

  /** The role whose layout a page lives in; the login page has none. */
  function PageRole(p: Page): Option<UserRole>
  {
    match p
    case Login => None
    case StudentDashboard | StudentGroups | StudentGroupDetails(_) | StudentStatistics
      | StudentProfile | JoinLecture(_) => Some(Student)
    case _ => Some(Faculty)
  }

  /** The first path segment of a role's area. */
  function Area(role: UserRole): string
  {
    if role == Student then "student" else "faculty"
  }

  /** The location of a sub-path inside a role's area. */
  function AreaPath(role: UserRole, sub: string): string
  {
    "/" + Area(role) + "/" + sub
  }

  /** Where a layout sends a sub-path it does not know: its relative
      "dashboard", resolved against the layout's base. */
  function DashboardPath(role: UserRole): string
  {
    AreaPath(role, "dashboard")
  }

  /** The sub-routes of the student layout. */
  function StudentRoute(rest: seq<string>): (p: Option<Page>)
    ensures p.Some? ==> PageRole(p.value) == Some(Student)
  {
    if |rest| == 1 && rest[0] == "dashboard" then Some(StudentDashboard)
    else if |rest| == 1 && rest[0] == "groups" then Some(StudentGroups)
    else if |rest| == 2 && rest[0] == "group" then Some(StudentGroupDetails(rest[1]))
    else if |rest| == 1 && rest[0] == "statistics" then Some(StudentStatistics)
    else if |rest| == 1 && rest[0] == "profile" then Some(StudentProfile)
    else if |rest| == 2 && rest[0] == "lecture" then Some(JoinLecture(rest[1]))
    else None
  }

  /** The sub-routes of the faculty layout. */
  function FacultyRoute(rest: seq<string>): (p: Option<Page>)
    ensures p.Some? ==> PageRole(p.value) == Some(Faculty)
  {
    if |rest| == 1 && rest[0] == "dashboard" then Some(FacultyDashboard)
    else if |rest| == 1 && rest[0] == "live" then Some(LiveLecture)
    else if |rest| == 1 && rest[0] == "groups" then Some(FacultyGroups)
    else if |rest| == 1 && rest[0] == "schedule" then Some(FacultySchedule)
    else if |rest| == 1 && rest[0] == "analytics" then Some(FacultyAnalytics)
    else if |rest| == 1 && rest[0] == "profile" then Some(FacultyProfile)
    else None
  }

  function SubRoute(role: UserRole, rest: seq<string>): (p: Option<Page>)
    ensures p.Some? ==> PageRole(p.value) == Some(role)
  {
    match role
    case Student => StudentRoute(rest)
    case Faculty => FacultyRoute(rest)
  }

  /** The route table: "/" is the login page; the paths under "/student" and "/faculty"
      render their layout only for the matching role and otherwise send the
      visitor to "/"; inside a layout an unknown sub-path goes to the
      dashboard. */
  function Resolve(role: Option<UserRole>, segs: seq<string>): (v: View)
    ensures v.Show? && v.page == Login <==> segs == []
    ensures v.Show? && v.page != Login ==> role == PageRole(v.page) && segs[0] == Area(role.value)
    ensures v.Redirect? ==> v.target == "/" || (role.Some? && v.target == DashboardPath(role.value))
  {
    if segs == [] then Show(Login)
    else if segs[0] == "student" || segs[0] == "faculty" then
      (var area := if segs[0] == "student" then Student else Faculty;
       if role != Some(area) then Redirect("/")
       else match SubRoute(area, segs[1..])
         case Some(p) => Show(p)
         case None => Redirect(DashboardPath(area)))
    else NoMatch
  }

  /** The view for a location's path name. */
  function Route(role: Option<UserRole>, pathname: string): View
  {
    Resolve(role, Segments(pathname))
  }

  /** Nobody logged in, or the wrong role: every path of a role's area goes
      back to "/". */
  lemma GuardRedirects(role: Option<UserRole>, area: UserRole, rest: seq<string>)
    requires role != Some(area)
    ensures Resolve(role, [Area(area)] + rest) == Redirect("/")
  {
  }

  /** Inside its own layout, a sub-path the role's table does not know sends
      the visitor to the role's dashboard. */
  lemma UnknownSubPathToDashboard(role: UserRole, rest: seq<string>)
    requires SubRoute(role, rest).None?
    ensures Resolve(Some(role), [Area(role)] + rest) == Redirect(DashboardPath(role))
  {
    assert ([Area(role)] + rest)[1..] == rest;
  }

  /** The path with the given segments. */
  function PathOf(segs: seq<string>): string
  {
    "/" + Join(segs, "/")
  }

  predicate SlashFree(x: string)
  {
    forall i :: 0 <= i < |x| ==> x[i] != '/'
  }

  lemma {:induction false} SplitWithoutSlash(x: string)
    requires SlashFree(x)
    ensures Split(x, "/") == [x]
  {
    if x != [] {
      SplitCons(x, '/');
      SplitWithoutSlash(x[1..]);
      assert [x[0]] + x[1..] == x;
    }
  }

  lemma {:induction false} SegmentsOfJoin(segs: seq<string>)
    requires forall k :: 0 <= k < |segs| ==> segs[k] != [] && SlashFree(segs[k])
    ensures Segments(Join(segs, "/")) == segs
  {
    if |segs| == 0 {
    } else if |segs| == 1 {
      SplitWithoutSlash(segs[0]);
    } else {
      SegmentsOfJoin(segs[1..]);
      SegmentsAtSlash(segs[0], Join(segs[1..], "/"));
      SplitWithoutSlash(segs[0]);
      assert Segments(segs[0]) == [segs[0]];
      assert [segs[0]] + segs[1..] == segs;
    }
  }

  /** Reading back the segments of a path built from non-empty, slash-free
      segments gives those segments. */
  lemma SegmentsOfPath(segs: seq<string>)
    requires forall k :: 0 <= k < |segs| ==> segs[k] != [] && SlashFree(segs[k])
    ensures Segments(PathOf(segs)) == segs
  {
    SegmentsAtSlash("", Join(segs, "/"));
    SegmentsOfJoin(segs);
    assert Segments("") == [];
    assert "" + "/" + Join(segs, "/") == PathOf(segs);
  }

  /** A two-level path inside a role's area reads back as its two segments. */
  lemma AreaPathSegments(role: UserRole, sub: string)
    requires sub != [] && SlashFree(sub)
    ensures Segments(AreaPath(role, sub)) == [Area(role), sub]
  {
    var segs := [Area(role), sub];
    assert segs[1..] == [sub];
    assert Join(segs, "/") == Area(role) + "/" + sub;
    assert AreaPath(role, sub) == PathOf(segs);
    SegmentsOfPath(segs);
  }

  lemma DashboardPathSegments(role: UserRole)
    ensures Segments(DashboardPath(role)) == [Area(role), "dashboard"]
  {
    AreaPathSegments(role, "dashboard");
  }

  /** "/" shows the login page, signed in or not. */
  lemma RootIsLogin(role: Option<UserRole>, path: string)
    requires path == "/"
    ensures Route(role, path) == Show(Login)
  {
    assert path == "" + "/" + "";
    SegmentsAtSlash("", "");
  }

  /** A path "/<area>/<sub>" whose sub-path the role's layout knows is served
      to that role. */
  lemma {:induction false} ServedAt(role: UserRole, path: string, sub: string, page: Page)
    requires path == AreaPath(role, sub)
    requires sub != [] && SlashFree(sub) && SubRoute(role, [sub]) == Some(page)
    ensures Route(Some(role), path) == Show(page) && PageRole(page) == Some(role)
  {
    AreaPathSegments(role, sub);
    assert [Area(role), sub][1..] == [sub];
  }

  /** Every redirect lands on a page: following it once more, with the same
      role, shows something. */
  lemma RedirectsSettle(role: Option<UserRole>, segs: seq<string>)
    requires Resolve(role, segs).Redirect?
    ensures Resolve(role, Segments(Resolve(role, segs).target)).Show?
  {
    var t := Resolve(role, segs).target;
    if t == "/" {
      assert "/" == "" + "/" + "";
      SegmentsAtSlash("", "");
    } else {
      DashboardPathSegments(role.value);
    }
  }

  /** The name the layout's header shows for a role. */
  function UserName(role: UserRole): (name: string)
    ensures name != []
  {
    if role == Student then "John Doe" else "Dr. Robert Chen"
  }

  /** The root component's state: the logged-in role, if any. */
  class Portal {
    var userRole: Option<UserRole>

    constructor ()
      ensures userRole == None
    {
      userRole := None;
    }

    method HandleLogin(role: UserRole)
      modifies this
      ensures userRole == Some(role)
    {
      userRole := Some(role);
    }

    /** Called by the sidebar's Logout button. */
    method HandleLogout()
      modifies this
      ensures userRole == None
      ensures forall area: UserRole, rest: seq<string> :: Resolve(userRole, [Area(area)] + rest) == Redirect("/")
    {
      userRole := None;
    }

    /** What the current location shows. */
    function Visit(pathname: string): View
      reads this
    {
      Route(userRole, pathname)
    }
  }
}

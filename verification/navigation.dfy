/**
 * Client-side routing of `App`: the path `handleLogin` sends each role to,
 * the view `renderView` shows for a (user, path) pair, and the sidebar entries
 * each role is offered.
 */
module Navigation {
  import opened Wrappers
  import opened Accounts

  /** The page components `renderView` can return. */
  datatype View =
    | Landing | Login
    | StudentDashboard | Explore | InterviewPrep | Community | Teams | Applications | Profile | OpportunityDetail
    | CompanyOverview | CampusDrives | TalentPipeline | QuestionBank
    | FacultyDashboard
    | AdminDashboard

  /** A path and the view it selects, one `case` of a role's `switch`. */
  datatype Route = Route(path: string, view: View)

  /** The roles that have their own area of the portal. */
  predicate HasArea(r: Role) {
    r.Student? || r.Company? || r.Faculty? || r.Admin?
  }

  /** Where `handleLogin` sends a user: the role's dashboard, the student's for any unknown role. */
  function LoginPath(r: Role): (p: string)
    ensures r.Admin? ==> p == "/admin/dashboard"
    ensures r.Company? ==> p == "/company/overview"
    ensures r.Faculty? ==> p == "/faculty/dashboard"
    ensures !(r.Admin? || r.Company? || r.Faculty?) ==> p == "/student/dashboard"
    ensures RoleName(r) == "admin" <==> p == "/admin/dashboard"
    ensures RoleName(r) == "company" <==> p == "/company/overview"
    ensures RoleName(r) == "faculty" <==> p == "/faculty/dashboard"
    ensures p != "/" && p != "/login"
  {
    match r
    case Admin => "/admin/dashboard"
    case Company => "/company/overview"
    case Faculty => "/faculty/dashboard"
    case _ => "/student/dashboard"
  }

  /** The view a role falls back to on a path its `switch` does not list (its `default:`). */
  function HomeView(r: Role): (v: View)
    ensures v == Landing <==> !HasArea(r)
    ensures r.Admin? ==> v == AdminDashboard
    ensures HasArea(r) && !r.Admin? ==> Routes(r) != [] && Routes(r)[0] == Route(LoginPath(r), v)
  {
    match r
    case Student => StudentDashboard
    case Company => CompanyOverview
    case Faculty => FacultyDashboard
    case Admin => AdminDashboard
    case Other(_) => Landing
  }

  /** The `case`s of each role's `switch`, in source order. Admin has none: it always sees its dashboard. */
  function Routes(r: Role): seq<Route> {
    match r
    case Student => [
      Route("/student/dashboard", StudentDashboard),
      Route("/student/explore", Explore),
      Route("/student/interview-prep", InterviewPrep),
      Route("/student/community", Community),
      Route("/student/teams", Teams),
      Route("/student/applications", Applications),
      Route("/student/profile", Profile),
      Route("/student/opportunity", OpportunityDetail)]
    case Company => [
      Route("/company/overview", CompanyOverview),
      Route("/company/drives", CampusDrives),
      Route("/company/pipeline", TalentPipeline),
      Route("/company/questions", QuestionBank),
      Route("/company/community", Community),
      Route("/company/analytics", AdminDashboard)]
    case Faculty => [
      Route("/faculty/dashboard", FacultyDashboard),
      Route("/faculty/community", Community),
      Route("/faculty/explore", Explore)]
    case _ => []
  }

  /**
   * The route tables are well formed: only the student, company and faculty
   * `switch`es have cases; no case names "/" or "/login" (which the earlier
   * tests would shadow) or shows the landing page; and no path is listed twice.
   */
  lemma RoutesShape(r: Role)
    ensures Routes(r) == [] <==> !HasArea(r) || r.Admin?
    ensures forall i :: 0 <= i < |Routes(r)| ==>
              Routes(r)[i].path != "/" && Routes(r)[i].path != "/login" && Routes(r)[i].view != Landing
    ensures forall i, j :: 0 <= i < j < |Routes(r)| ==> Routes(r)[i].path != Routes(r)[j].path
  {
  }

  /** Whether some `case` of the role's `switch` names the path. */
  predicate Listed(r: Role, path: string) {
    exists i :: 0 <= i < |Routes(r)| && Routes(r)[i].path == path
  }

  /**
   * `renderView`, written as the source's chain of tests: "/" and "/login"
   * first, then one `switch` per role with its `default:`, admin's dashboard
   * for every other path, and the landing page when there is no user or the
   * role is none of the four.
   */
  function RenderView(user: Option<User>, path: string): (v: View)
    ensures path == "/" ==> v == Landing
    ensures path == "/login" ==> v == Login
    ensures path != "/" && path != "/login" && user.Some? && user.value.role.Admin? ==> v == AdminDashboard
    ensures path != "/" && path != "/login" && (user.None? || !HasArea(user.value.role)) ==> v == Landing
  {
    if path == "/" then Landing
    else if path == "/login" then Login
    else if user.Some? && user.value.role.Student? then
      if path == "/student/dashboard" then StudentDashboard
      else if path == "/student/explore" then Explore
      else if path == "/student/interview-prep" then InterviewPrep
      else if path == "/student/community" then Community
      else if path == "/student/teams" then Teams
      else if path == "/student/applications" then Applications
      else if path == "/student/profile" then Profile
      else if path == "/student/opportunity" then OpportunityDetail
      else StudentDashboard
    else if user.Some? && user.value.role.Company? then
      if path == "/company/overview" then CompanyOverview
      else if path == "/company/drives" then CampusDrives
      else if path == "/company/pipeline" then TalentPipeline
      else if path == "/company/questions" then QuestionBank
      else if path == "/company/community" then Community
      else if path == "/company/analytics" then AdminDashboard
      else CompanyOverview
    else if user.Some? && user.value.role.Faculty? then
      if path == "/faculty/dashboard" then FacultyDashboard
      else if path == "/faculty/community" then Community
      else if path == "/faculty/explore" then Explore
      else FacultyDashboard
    else if user.Some? && user.value.role.Admin? then AdminDashboard
    else Landing
  }

  /**
   * `renderView` agrees with the route tables, one direction: away from "/"
   * and "/login", each listed path shows the view its route names.
   */
  lemma ListedPathShowsItsView(u: User, i: nat)
    requires i < |Routes(u.role)|
    ensures RenderView(Some(u), Routes(u.role)[i].path) == Routes(u.role)[i].view
  {
    var r := Routes(u.role)[i];
    match u.role
    case Student =>
      if i == 0 { assert r == Route("/student/dashboard", StudentDashboard); }
      else if i == 1 { assert r == Route("/student/explore", Explore); }
      else if i == 2 { assert r == Route("/student/interview-prep", InterviewPrep); }
      else if i == 3 { assert r == Route("/student/community", Community); }
      else if i == 4 { assert r == Route("/student/teams", Teams); }
      else if i == 5 { assert r == Route("/student/applications", Applications); }
      else if i == 6 { assert r == Route("/student/profile", Profile); }
      else { assert r == Route("/student/opportunity", OpportunityDetail); }
    case Company =>
      if i == 0 { assert r == Route("/company/overview", CompanyOverview); }
      else if i == 1 { assert r == Route("/company/drives", CampusDrives); }
      else if i == 2 { assert r == Route("/company/pipeline", TalentPipeline); }
      else if i == 3 { assert r == Route("/company/questions", QuestionBank); }
      else if i == 4 { assert r == Route("/company/community", Community); }
      else { assert r == Route("/company/analytics", AdminDashboard); }
    case Faculty =>
      if i == 0 { assert r == Route("/faculty/dashboard", FacultyDashboard); }
      else if i == 1 { assert r == Route("/faculty/community", Community); }
      else { assert r == Route("/faculty/explore", Explore); }
  }

  /** "/" and "/login" show the same page whoever is signed in. */
  lemma PublicPathsIgnoreUser(u1: Option<User>, u2: Option<User>, path: string)
    requires path == "/" || path == "/login"
    ensures RenderView(u1, path) == RenderView(u2, path)
  {
  }

  /**
   * `renderView` agrees with the route tables, other direction: away from "/"
   * and "/login", a path no `case` of the role lists shows the role's home
   * view (the `default:`).
   */
  lemma UnlistedPathShowsHome(u: User, path: string)
    requires path != "/" && path != "/login"
    requires !Listed(u.role, path)
    ensures RenderView(Some(u), path) == HomeView(u.role)
  {
    var rs := Routes(u.role);
    if u.role.Student? {
      assert rs[0].path != path && rs[1].path != path && rs[2].path != path && rs[3].path != path;
      assert rs[4].path != path && rs[5].path != path && rs[6].path != path && rs[7].path != path;
    } else if u.role.Company? {
      assert rs[0].path != path && rs[1].path != path && rs[2].path != path;
      assert rs[3].path != path && rs[4].path != path && rs[5].path != path;
    } else if u.role.Faculty? {
      assert rs[0].path != path && rs[1].path != path && rs[2].path != path;
    }
  }

  /**
   * Signing in lands every role of the portal on its home view, reached
   * through a listed route (not through the fallback) except for admin, which
   * has none.
   */
  lemma LoginLandsHome(u: User)
    ensures HasArea(u.role) ==> RenderView(Some(u), LoginPath(u.role)) == HomeView(u.role)
    ensures HasArea(u.role) && !u.role.Admin? ==> Listed(u.role, LoginPath(u.role))
  {
    if u.role.Student? { assert Routes(u.role)[0].path == LoginPath(u.role); }
    if u.role.Company? { assert Routes(u.role)[0].path == LoginPath(u.role); }
    if u.role.Faculty? { assert Routes(u.role)[0].path == LoginPath(u.role); }
  }

  /**
   * A user whose role is none of the four is sent to the student dashboard's
   * path on sign-in, yet sees the landing page there: `renderView` has no
   * branch for the role.
   */
  lemma UnknownRoleSeesLanding(u: User)
    requires !HasArea(u.role)
    ensures LoginPath(u.role) == "/student/dashboard"
    ensures RenderView(Some(u), LoginPath(u.role)) == Landing
  {
  }

  /** One sidebar button: its caption and the path it navigates to. */
  datatype NavItem = NavItem(caption: string, path: string)

  /** `navItems[role]`, and the empty list for a role that has no entry. */
  function NavItems(r: Role): seq<NavItem> {
    match r
    case Student => [
      NavItem("Overview", "/student/dashboard"),
      NavItem("Explore Roles", "/student/explore"),
      NavItem("Prep Hub", "/student/interview-prep"),
      NavItem("Teams", "/student/teams"),
      NavItem("Community", "/student/community"),
      NavItem("Applications", "/student/applications"),
      NavItem("Identity", "/student/profile")]
    case Company => [
      NavItem("Commander", "/company/overview"),
      NavItem("Campus Drives", "/company/drives"),
      NavItem("Talent Pool", "/company/pipeline"),
      NavItem("Question Bank", "/company/questions"),
      NavItem("Community", "/company/community"),
      NavItem("Analytics", "/company/analytics")]
    case Faculty => [
      NavItem("Faculty Hub", "/faculty/dashboard"),
      NavItem("Opportunities", "/faculty/dashboard"),
      NavItem("Mentorship", "/faculty/community"),
      NavItem("View All Jobs", "/faculty/explore")]
    case Admin => [
      NavItem("Dashboard", "/admin/dashboard"),
      NavItem("Governance", "/admin/dashboard"),
      NavItem("Approvals", "/admin/dashboard")]
    case Other(_) => []
  }

  /**
   * Exactly the four roles have sidebar entries, every entry has a caption,
   * and the first entry leads to the path `handleLogin` lands the role on.
   */
  lemma NavItemsShape(r: Role)
    ensures NavItems(r) != [] <==> HasArea(r)
    ensures NavItems(r) != [] ==> NavItems(r)[0].path == LoginPath(r)
    ensures forall i :: 0 <= i < |NavItems(r)| ==> NavItems(r)[i].caption != ""
  {
  }

  /** The sidebar shown: the signed-in role's entries, none when signed out. */
  function Sidebar(user: Option<User>): (items: seq<NavItem>)
    ensures user.None? ==> items == []
    ensures user.Some? ==> items == NavItems(user.value.role)
  {
    if user.Some? then NavItems(user.value.role) else []
  }

  /**
   * Every sidebar entry of a student, company or faculty user names a path
   * that role's `switch` lists, so no entry falls through to the default; an
   * admin's entries all show the admin dashboard.
   */
  lemma SidebarEntriesRouted(u: User, i: nat)
    requires i < |Sidebar(Some(u))|
    ensures !u.role.Admin? ==> Listed(u.role, Sidebar(Some(u))[i].path)
    ensures RenderView(Some(u), Sidebar(Some(u))[i].path) != Landing
  {
    var p := Sidebar(Some(u))[i].path;
    var rs := Routes(u.role);
    match u.role
    case Student =>
      if i == 0 { assert rs[0].path == p; }
      else if i == 1 { assert rs[1].path == p; }
      else if i == 2 { assert rs[2].path == p; }
      else if i == 3 { assert rs[4].path == p; }
      else if i == 4 { assert rs[3].path == p; }
      else if i == 5 { assert rs[5].path == p; }
      else { assert rs[6].path == p; }
    case Company =>
      assert rs[i].path == p;
    case Faculty =>
      if i <= 1 { assert rs[0].path == p; }
      else { assert rs[i - 1].path == p; }
    case Admin =>
    case Other(_) =>
  }
}

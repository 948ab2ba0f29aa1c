/**
  The admin half of the route table in src/App.tsx. A path below "/admin/" is
  given as its segments; matching yields the page and the `requiredRole` of
  every `ProtectedRoute` wrapped around it, outermost first. React Router
  matches static segments without regard to case (no route sets
  `caseSensitive`), while a `:id` segment keeps the text as typed.
 */
module AppRoutes {
  import opened Common
  import opened Auth
  import opened RouteGate

  datatype AdminPage =
    | Login
    | Setup
    | Dashboard
    | ProjectList
    | NewProject
    | EditProject(id: string)
    | ProjectTasks(id: string)
    | AdminNotFound

  datatype RouteMatch = RouteMatch(page: AdminPage, gates: seq<string>)

  /** `import.meta.env.VITE_ENABLE_ADMIN_SETUP === "true"`. */
  function SetupEnabled(flag: Option<string>): bool
  {
    flag == Some("true")
  }

  /** The static segments of the admin routes, and everything else. */
  datatype Segment = DashboardSeg | ProjectsSeg | NewSeg | EditSeg | TasksSeg | LoginSeg | SetupSeg | OtherSeg

  /** A typed path segment, compared with the static ones up to case. */
  function Classify(segment: string): Segment
  {
    var l := Lower(segment);
    if l == "dashboard" then DashboardSeg
    else if l == "projects" then ProjectsSeg
    else if l == "new" then NewSeg
    else if l == "edit" then EditSeg
    else if l == "tasks" then TasksSeg
    else if l == "login" then LoginSeg
    else if l == "setup" then SetupSeg
    else OtherSeg
  }

  /** The class of every segment of a path. */
  function Classes(rest: seq<string>): (r: seq<Segment>)
    ensures |r| == |rest|
    ensures forall i :: 0 <= i < |rest| ==> r[i] == Classify(rest[i])
  {
    seq(|rest|, i requires 0 <= i < |rest| => Classify(rest[i]))
  }

  /**
    The routes nested under the admin catch-all route, all inside its outer
    viewer guard, given the classes of the segments and the segments
    themselves (for the `:id` text).
   */
  function MatchInner(segs: seq<Segment>, rest: seq<string>): RouteMatch
    requires |segs| == |rest|
  {
    if segs == [DashboardSeg] then RouteMatch(Dashboard, ["viewer"])
    else if segs == [ProjectsSeg] then RouteMatch(ProjectList, ["viewer", "viewer"])
    else if segs == [ProjectsSeg, NewSeg] then RouteMatch(NewProject, ["viewer", "manager"])
    else if |segs| == 3 && segs[0] == ProjectsSeg && segs[2] == EditSeg then RouteMatch(EditProject(rest[1]), ["viewer", "manager"])
    else if |segs| == 3 && segs[0] == ProjectsSeg && segs[2] == TasksSeg then RouteMatch(ProjectTasks(rest[1]), ["viewer", "viewer"])
    else RouteMatch(AdminNotFound, ["viewer"])
  }

  /** The admin routes over segment classes: setup (when enabled) and login outrank the catch-all route. */
  function MatchClasses(segs: seq<Segment>, rest: seq<string>, setupEnabled: bool): RouteMatch
    requires |segs| == |rest|
  {
    if setupEnabled && segs == [SetupSeg] then RouteMatch(Setup, [])
    else if segs == [LoginSeg] then RouteMatch(Login, [])
    else MatchInner(segs, rest)
  }

  /** The route a path below "/admin/" reaches. */
  function MatchAdmin(rest: seq<string>, setupEnabled: bool): RouteMatch
  {
    MatchClasses(Classes(rest), rest, setupEnabled)
  }

  /**
    Login and setup are reached by their one segment in any case, and they
    alone carry no guard; a project's id is the typed middle segment.
   */
  lemma MatchAdminMeaning(rest: seq<string>, setupEnabled: bool)
    ensures var r := MatchAdmin(rest, setupEnabled);
      && (r.page == Login <==> |rest| == 1 && Lower(rest[0]) == "login")
      && (r.page == Setup <==> setupEnabled && |rest| == 1 && Lower(rest[0]) == "setup")
      && (r.gates == [] <==> r.page == Login || r.page == Setup)
      && (r.page.EditProject? || r.page.ProjectTasks? ==> |rest| == 3 && r.page.id == rest[1])
  {
    var segs := Classes(rest);
    if |rest| == 1 {
      assert segs == [Classify(rest[0])];
    }
  }

  /** Every segment lowercased. */
  function LowerAll(rest: seq<string>): (r: seq<string>)
    ensures |r| == |rest|
    ensures forall i :: 0 <= i < |rest| ==> r[i] == Lower(rest[i])
  {
    seq(|rest|, i requires 0 <= i < |rest| => Lower(rest[i]))
  }

  /** Lowercasing twice is lowercasing once. */
  lemma LowerIdempotent(s: string)
    ensures Lower(Lower(s)) == Lower(s)
  {
    assert forall i :: 0 <= i < |s| ==> Lower(Lower(s))[i] == LowerChar(LowerChar(s[i])) == LowerChar(s[i]);
  }

  /** A route's page with any `:id` text blanked out. */
  function Shape(p: AdminPage): AdminPage
  {
    match p
    case EditProject(_) => EditProject("")
    case ProjectTasks(_) => ProjectTasks("")
    case _ => p
  }

  /**
    The case of the typed path changes neither the page reached nor the
    guards around it; only the `:id` text keeps its case.
   */
  lemma MatchIgnoresCase(rest: seq<string>, setupEnabled: bool)
    ensures MatchAdmin(rest, setupEnabled).gates == MatchAdmin(LowerAll(rest), setupEnabled).gates
    ensures Shape(MatchAdmin(rest, setupEnabled).page) == Shape(MatchAdmin(LowerAll(rest), setupEnabled).page)
  {
    var lowered := LowerAll(rest);
    forall i | 0 <= i < |rest| ensures Classes(lowered)[i] == Classes(rest)[i] {
      ClassifyLower(rest[i]);
    }
    assert Classes(lowered) == Classes(rest);
  }

  /** A segment and its lowercase form fall in the same class. */
  lemma ClassifyLower(s: string)
    ensures Classify(Lower(s)) == Classify(s)
  {
    LowerIdempotent(s);
  }

  /** "/admin/Login" is the ungated login page. */
  lemma MixedCaseLogin(setupEnabled: bool)
    ensures MatchAdmin(["Login"], setupEnabled) == RouteMatch(Login, [])
  {
    assert Classes(["Login"]) == [LoginSeg] by {
      assert Lower("Login") == "login";
    }
  }

  /** "/admin/Projects/New" is the project editor, behind the manager guard. */
  lemma MixedCaseEditor(setupEnabled: bool)
    ensures MatchAdmin(["Projects", "New"], setupEnabled) == RouteMatch(NewProject, ["viewer", "manager"])
  {
    ProjectsNewSegments("Projects", "New");
  }

  /** The two segments of the new-project path, in lower case or capitalised. */
  lemma ProjectsNewSegments(first: string, second: string)
    requires first == "projects" || first == "Projects"
    requires second == "new" || second == "New"
    ensures Classes([first, second]) == [ProjectsSeg, NewSeg]
  {
    assert Lower(first) == "projects";
    assert Lower(second) == "new";
  }

  /** Nested guards: the outermost one that does not render decides. */
  function Access(gates: seq<string>, loading: bool, isAuthenticated: bool, profile: Option<UserProfile>): Decision
  {
    if gates == [] then Render
    else
      var d := Gate(loading, isAuthenticated, profile, Some(gates[0]));
      if d != Render then d else Access(gates[1..], loading, isAuthenticated, profile)
  }

  /** A page renders exactly when every guard around it would render. */
  lemma {:induction false} AccessRendersIffAllGatesRender(gates: seq<string>, loading: bool, isAuthenticated: bool, profile: Option<UserProfile>)
    ensures Access(gates, loading, isAuthenticated, profile) == Render <==>
      forall i :: 0 <= i < |gates| ==> Gate(loading, isAuthenticated, profile, Some(gates[i])) == Render
  {
    if gates != [] {
      AccessRendersIffAllGatesRender(gates[1..], loading, isAuthenticated, profile);
      assert forall i :: 1 <= i < |gates| ==> gates[i] == gates[1..][i - 1];
    }
  }

  /** Every admin page other than login and setup sits under the outer viewer guard. */
  lemma EveryAdminPageBehindViewer(rest: seq<string>, setupEnabled: bool)
    ensures var m := MatchAdmin(rest, setupEnabled);
      m.page != Login && m.page != Setup ==> m.gates != [] && m.gates[0] == "viewer"
  {
  }

  /** The project editor requires "manager" on top of the outer guard. */
  lemma EditorRequiresManager(rest: seq<string>, setupEnabled: bool)
    ensures var m := MatchAdmin(rest, setupEnabled);
      (m.page == NewProject || m.page.EditProject?) ==> m.gates == ["viewer", "manager"]
    ensures MatchAdmin(["projects", "new"], setupEnabled).page == NewProject
  {
    ProjectsNewSegments("projects", "new");
  }

  /** The project list and a project's task page require "viewer". */
  lemma ListsRequireViewer(rest: seq<string>, setupEnabled: bool)
    ensures var m := MatchAdmin(rest, setupEnabled);
      (m.page == ProjectList || m.page.ProjectTasks?) ==> m.gates == ["viewer", "viewer"]
  {
  }

  /** "/admin/setup" is a route only when the flag is the string "true"; otherwise it is an unknown admin page. */
  lemma SetupOnlyWhenEnabled(rest: seq<string>, flag: Option<string>)
    ensures MatchAdmin(rest, SetupEnabled(flag)).page == Setup ==> flag == Some("true")
    ensures flag == Some("true") ==> MatchAdmin(["setup"], SetupEnabled(flag)) == RouteMatch(Setup, [])
    ensures flag != Some("true") ==> MatchAdmin(["setup"], SetupEnabled(flag)) == RouteMatch(AdminNotFound, ["viewer"])
  {
    assert Classes(["setup"]) == [SetupSeg] by {
      assert Lower("setup") == "setup";
    }
  }

  /** The login page is reached with no guard at all, so it renders in every session state. */
  lemma LoginUngated(setupEnabled: bool, loading: bool, isAuthenticated: bool, profile: Option<UserProfile>)
    ensures MatchAdmin(["login"], setupEnabled) == RouteMatch(Login, [])
    ensures Access(MatchAdmin(["login"], setupEnabled).gates, loading, isAuthenticated, profile) == Render
  {
    assert Classes(["login"]) == [LoginSeg] by {
      assert Lower("login") == "login";
    }
  }

  /** With a signed-in profile, the editor renders exactly for managers and admins. */
  lemma EditorAccessIsManager(rest: seq<string>, setupEnabled: bool, profile: Option<UserProfile>)
    requires var p := MatchAdmin(rest, setupEnabled).page; p == NewProject || p.EditProject?
    ensures Access(MatchAdmin(rest, setupEnabled).gates, false, true, profile) == Render <==> HasRole(profile, Manager)
  {
    var gates := MatchAdmin(rest, setupEnabled).gates;
    AccessRendersIffAllGatesRender(gates, false, true, profile);
    GateAgreesWithHasRole(profile, Viewer);
    GateAgreesWithHasRole(profile, Manager);
  }
}

/**
 * The state `App` owns and its handlers: sign-in and sign-out, `navigate`,
 * the prepend-style `addOpportunity` and `addPost`, the opportunity the detail
 * page shows, and the two forms that feed the lists (a faculty member's new
 * opportunity and a community post). Ids come from the wall clock in the
 * source and are parameters here.
 */
module Portal {
  import opened Wrappers
  import opened Text
  import opened Accounts
  import opened Navigation

  /** Who published an opportunity. */
  datatype Source = FromCompany | FromFaculty

  /** An opportunity card: the fields the core writes or reads (display-only fields are left out). */
  datatype Opportunity = Opportunity(
    id: int, company: string, role: string, kind: string, description: string,
    skillsRequired: seq<string>, matchScore: int, source: Source)

  /** A community post. */
  datatype Post = Post(
    id: int, author: string, role: string, title: string, content: string,
    likes: nat, comments: nat, tags: seq<string>)

  /** The state `App` keeps: path, user, selected opportunity, sidebar, and the two lists. */
  datatype App = App(
    path: string, user: Option<User>, selectedId: Option<int>, sidebarOpen: bool,
    opportunities: seq<Opportunity>, posts: seq<Post>)

  /** `[x, ...xs]`: the new item first, every old item after it in its old order. */
  function Prepend<T>(x: T, xs: seq<T>): (r: seq<T>)
    ensures |r| == |xs| + 1
    ensures r[0] == x
    ensures forall i :: 0 <= i < |xs| ==> r[i + 1] == xs[i]
  {
    [x] + xs
  }

  /** The items of `items` added one after another, each with `Prepend`. */
  function PrependEach<T>(items: seq<T>, xs: seq<T>): seq<T>
    decreases |items|
  {
    if items == [] then xs else PrependEach(items[1..], Prepend(items[0], xs))
  }

  /** The items in reverse order. */
  function Reverse<T>(s: seq<T>): (r: seq<T>)
    ensures |r| == |s|
    ensures forall i :: 0 <= i < |s| ==> r[i] == s[|s| - 1 - i]
  {
    if s == [] then [] else Reverse(s[1..]) + [s[0]]
  }

  /** Adding items one at a time leaves the newest on top: the list reads newest first, then the old list. */
  lemma {:induction false} PrependEachReverses<T>(items: seq<T>, xs: seq<T>)
    ensures PrependEach(items, xs) == Reverse(items) + xs
    decreases |items|
  {
    if items != [] {
      var rest := items[1..];
      PrependEachReverses(rest, Prepend(items[0], xs));
      assert PrependEach(items, xs) == Reverse(rest) + ([items[0]] + xs);
      assert Reverse(items) == Reverse(rest) + [items[0]];
      assert Reverse(rest) + ([items[0]] + xs) == (Reverse(rest) + [items[0]]) + xs;
    }
  }

  /** `addOpportunity`: the new opportunity goes first; nothing else in the state changes. */
  function AddOpportunity(app: App, o: Opportunity): (a: App)
    ensures |a.opportunities| == |app.opportunities| + 1
    ensures a.opportunities[0] == o && a.opportunities[1..] == app.opportunities
    ensures a.(opportunities := app.opportunities) == app
  {
    app.(opportunities := Prepend(o, app.opportunities))
  }

  /** `addPost`: the new post goes first; nothing else in the state changes. */
  function AddPost(app: App, p: Post): (a: App)
    ensures |a.posts| == |app.posts| + 1
    ensures a.posts[0] == p && a.posts[1..] == app.posts
    ensures a.(posts := app.posts) == app
  {
    app.(posts := Prepend(p, app.posts))
  }

  /** `handleLogin`: the user is recorded and the path moves to the role's landing path. */
  function SignIn(app: App, u: User): (a: App)
    ensures a.user == Some(u) && a.path == LoginPath(u.role)
    ensures HasArea(u.role) ==> RenderView(a.user, a.path) == HomeView(u.role)
    ensures a.(user := app.user, path := app.path) == app
  {
    LoginLandsHome(u);
    app.(user := Some(u), path := LoginPath(u.role))
  }

  /** `handleLogout`: no user, and the landing page. */
  function SignOut(app: App): (a: App)
    ensures a.user.None? && a.path == "/" && RenderView(a.user, a.path) == Landing
    ensures a.(user := app.user, path := app.path) == app
  {
    app.(user := None, path := "/")
  }

  /**
   * `navigate(p, id)`: the path changes, the selection changes only when an id
   * is given, and the sidebar closes.
   */
  function Navigate(app: App, p: string, id: Option<int>): (a: App)
    ensures a.path == p && !a.sidebarOpen
    ensures a.selectedId == (if id.Some? then id else app.selectedId)
    ensures a.(path := app.path, selectedId := app.selectedId, sidebarOpen := app.sidebarOpen) == app
  {
    app.(path := p, selectedId := if id.Some? then id else app.selectedId, sidebarOpen := false)
  }

  /** `opportunities.find(o => o.id === id)`: the index of the first opportunity with that id. */
  function FindById(opps: seq<Opportunity>, id: Option<int>): (k: Option<nat>)
    ensures k.Some? ==> k.value < |opps| && Some(opps[k.value].id) == id
    ensures k.Some? ==> forall j :: 0 <= j < k.value ==> Some(opps[j].id) != id
    ensures k.None? ==> forall j :: 0 <= j < |opps| ==> Some(opps[j].id) != id
  {
    if opps == [] then None
    else if Some(opps[0].id) == id then Some(0)
    else
      match FindById(opps[1..], id)
      case None => None
      case Some(k) => Some(k + 1)
  }

  /**
   * The opportunity the detail page shows: the first with the selected id,
   * else the first of the list, else none at all (`undefined`).
   */
  function ActiveOpportunity(opps: seq<Opportunity>, selected: Option<int>): (r: Option<Opportunity>)
    ensures r.None? <==> opps == []
    ensures r.Some? ==> r.value in opps
    ensures (exists j :: 0 <= j < |opps| && Some(opps[j].id) == selected) ==>
              exists k :: 0 <= k < |opps| && r == Some(opps[k]) && Some(opps[k].id) == selected
                          && forall j :: 0 <= j < k ==> Some(opps[j].id) != selected
    ensures (forall j :: 0 <= j < |opps| ==> Some(opps[j].id) != selected) && opps != [] ==> r == Some(opps[0])
  {
    match FindById(opps, selected)
    case Some(k) => Some(opps[k])
    case None => if opps != [] then Some(opps[0]) else None
  }

  /** A freshly added opportunity is the one the detail page shows once it is selected. */
  lemma AddedOpportunityIsActive(app: App, o: Opportunity)
    ensures ActiveOpportunity(AddOpportunity(app, o).opportunities, Some(o.id)) == Some(o)
  {
  }

  /**
   * `skills.split(',').map(s => s.trim())`: one skill per comma-separated
   * piece, in order, each trimmed and free of commas; one more skill than
   * there are commas.
   */
  function ParseSkills(skills: string): (r: seq<string>)
    ensures |r| == |Split(skills, ',')| == multiset(skills)[','] + 1
    ensures forall i :: 0 <= i < |r| ==> IsTrimmed(r[i]) && ',' !in r[i]
    ensures forall i :: 0 <= i < |r| ==> r[i] == Trim(Split(skills, ',')[i])
  {
    SplitCount(skills, ',');
    var pieces := Split(skills, ',');
    TrimAll(pieces)
  }

  /** Each string trimmed, in order. */
  function TrimAll(pieces: seq<string>): (r: seq<string>)
    ensures |r| == |pieces|
    ensures forall i :: 0 <= i < |r| ==> r[i] == Trim(pieces[i]) && IsTrimmed(r[i])
    ensures forall i :: 0 <= i < |r| && ',' !in pieces[i] ==> ',' !in r[i]
  {
    var r := seq(|pieces|, i requires 0 <= i < |pieces| => Trim(pieces[i]));
    assert forall i :: 0 <= i < |r| && ',' !in pieces[i] ==> ',' !in r[i] by {
      forall i | 0 <= i < |r| && ',' !in pieces[i] ensures ',' !in r[i] {
        TrimAddsNothing(pieces[i], ',');
      }
    }
    r
  }

  /** An empty skills field gives one empty skill, not an empty list. */
  lemma EmptySkillsGiveOneEmptySkill()
    ensures ParseSkills("") == [""]
  {
    assert Split("", ',') == [""];
    assert Trim("") == "";
  }

  /**
   * Typing skills separated by commas, with any white space around them, gives
   * back exactly those skills.
   */
  lemma {:induction false} ParseSkillsOfJoin(padded: seq<string>)
    requires |padded| >= 1
    requires forall i :: 0 <= i < |padded| ==> ',' !in padded[i]
    ensures ParseSkills(Join(padded, ',')) == TrimAll(padded)
  {
    SplitJoin(padded, ',');
  }

  /** Trimmed skills without commas survive a join and a parse unchanged. */
  lemma SkillsRoundTrip(skills: seq<string>)
    requires |skills| >= 1
    requires forall i :: 0 <= i < |skills| ==> ',' !in skills[i] && IsTrimmed(skills[i])
    ensures ParseSkills(Join(skills, ',')) == skills
  {
    ParseSkillsOfJoin(skills);
    forall i | 0 <= i < |skills| ensures Trim(skills[i]) == skills[i] {
      TrimOfTrimmed(skills[i]);
    }
  }

  /** The faculty form's fields. */
  datatype OpportunityForm = OpportunityForm(role: string, kind: string, description: string, skills: string)

  /** The form as it opens and after a post: empty, with "Research" preselected. */
  const BlankOpportunityForm := OpportunityForm("", "Research", "", "")

  /** The opportunity `handlePost` builds from the form: the faculty's fixed fields plus the form's. */
  function FacultyOpportunity(form: OpportunityForm, id: int): (o: Opportunity)
    ensures o.id == id && o.role == form.role && o.kind == form.kind && o.description == form.description
    ensures o.source == FromFaculty && o.company == "Dept. of CS (Faculty)" && o.matchScore == 99
    ensures |o.skillsRequired| == multiset(form.skills)[','] + 1
  {
    Opportunity(id, "Dept. of CS (Faculty)", form.role, form.kind, form.description,
                ParseSkills(form.skills), 99, FromFaculty)
  }

  /** `handlePost`: the new opportunity goes to the top of the list and the form is reset. */
  function PostFacultyOpportunity(app: App, form: OpportunityForm, id: int): (r: (App, OpportunityForm))
    ensures r.0 == AddOpportunity(app, FacultyOpportunity(form, id))
    ensures r.0.opportunities[0].skillsRequired == ParseSkills(form.skills)
    ensures r.1 == BlankOpportunityForm
  {
    (AddOpportunity(app, FacultyOpportunity(form, id)), BlankOpportunityForm)
  }

  /** The community form's fields. */
  datatype PostDraft = PostDraft(title: string, content: string)

  /**
   * "Post to Community": with a title and content both non-empty, a post by
   * "You" goes to the top and the form empties; otherwise nothing changes.
   */
  function SubmitPost(app: App, draft: PostDraft, id: int): (r: (App, PostDraft))
    ensures draft.title != "" && draft.content != "" ==>
              && r.0.posts == [Post(id, "You", "User", draft.title, draft.content, 0, 0, ["Discussion"])] + app.posts
              && r.0.(posts := app.posts) == app
              && r.1 == PostDraft("", "")
    ensures draft.title == "" || draft.content == "" ==> r == (app, draft)
  {
    if draft.title != "" && draft.content != "" then
      (AddPost(app, Post(id, "You", "User", draft.title, draft.content, 0, 0, ["Discussion"])), PostDraft("", ""))
    else (app, draft)
  }
}

/**
 * Client code that drives the store through several requests and states, as assertions,
 * what the handlers' contracts alone guarantee about the sequence.
 */
module Scenarios {
  import opened Wrappers
  import opened Auth
  import opened Server

  const Alice := Identity(1, "alice@example.org")
  const Bob := Identity(2, "bob@example.org")

  /** A store with two users and a toy password check: a digest is `"hash:"` followed by the password. */
  method NewStore() returns (st: Store)
    ensures fresh(st) && st.Valid()
    ensures st.projects == map[] && st.scenes == map[]
    ensures st.users == map[1 := User(1, Alice.email, "hash:pw1"), 2 := User(2, Bob.email, "hash:pw2")]
    ensures st.passwordMatches == ToyMatches && st.verifyToken == ToyVerify && !st.publishedDefault
  {
    var users := map[1 := User(1, Alice.email, "hash:pw1"), 2 := User(2, Bob.email, "hash:pw2")];
    st := new Store(users, ToyVerify, ToyMatches, ToySign, false);
  }

  function ToyMatches(password: string, digest: string): bool
  {
    digest == "hash:" + password
  }

  /** Only one token verifies, and it carries Alice's identity. */
  function ToyVerify(token: string): Option<Identity>
  {
    if token == "alice-token" then Some(Alice) else None
  }

  function ToySign(u: Identity): string
  {
    "token-for-" + u.email
  }

  function Info(title: string, slug: string): ProjectInfo
  {
    ProjectInfo(title, slug, "", Some("client"), Some("secret"))
  }

  function Content(n: int): SceneContent
  {
    SceneContent(n, "INT. STAIRWAY - NIGHT", "", "", "", "", "")
  }

  /** Alice's project with two scenes, numbered 2 and then 1. */
  method TwoScenes() returns (st: Store, pid: ProjectId, a: Scene, b: Scene)
    ensures fresh(st) && st.Valid() && st.OwnsProject(Alice.id, pid)
    ensures a.id != b.id && st.scenes == map[a.id := a, b.id := b]
    ensures a == Scene(a.id, pid, Content(2)) && b == Scene(b.id, pid, Content(1))
  {
    st := NewStore();
    var p := st.CreateProject(Alice, Info("X", "x"));
    pid := p.value.id;
    var s2 := st.CreateScene(Alice, pid, Content(2));
    var s1 := st.CreateScene(Alice, pid, Content(1));
    a, b := s2.value, s1.value;
  }

  /** Scenes created as 2 then 1 are listed as 1 then 2. */
  method SceneOrder() {
    var st, pid, a, b := TwoScenes();
    var listed := st.ListScenes(Alice, pid);
    var rows := listed.value;
    var among := st.ScenesAmong(st.scenes.Keys, pid);
    assert st.scenes.Keys == {a.id, b.id};
    assert a in among && b in among;
    assert forall x | x in among :: x == a || x == b;
    assert among == {a, b};
    assert multiset(rows) == multiset{a, b};
    assert |rows| == 2;
    assert rows[0] in multiset(rows) && rows[1] in multiset(rows);
    assert rows[0] != rows[1] by { assert multiset(rows)[a] == 1; }
    assert BySceneNumber(rows[0]) <= BySceneNumber(rows[1]);
    assert rows == [b, a];
  }

  /** A second project with a taken slug is refused with 400, whoever asks, and the first stays as it was. */
  method DuplicateSlug() {
    var st := NewStore();
    var first := st.CreateProject(Alice, Info("X", "x"));
    var before := st.projects;
    assert st.SlugTaken("x");
    var second := st.CreateProject(Bob, Info("Y", "x"));
    assert second == Fail(400, SlugExists);
    assert st.projects == before && st.projects[first.value.id] == first.value;
  }

  /** Updating one project to another's slug is accepted, so slugs stop being distinct. */
  method UpdateDuplicatesSlug() {
    var st := NewStore();
    var a := st.CreateProject(Alice, Info("A", "a"));
    var b := st.CreateProject(Alice, Info("B", "b"));
    assert st.DistinctSlugs();
    var u := st.UpdateProject(Alice, b.value.id, Info("B", "a"), false);
    assert u.Ok?;
    assert st.projects[a.value.id].info.slug == st.projects[b.value.id].info.slug;
    assert !st.DistinctSlugs();
  }

  /** Alice's one unpublished project with slug `x`. */
  method OneProject() returns (st: Store, pid: ProjectId)
    ensures fresh(st) && st.Valid() && st.projects.Keys == {pid}
    ensures st.projects[pid].userId == Alice.id && st.projects[pid].info == Info("X", "x")
    ensures !st.projects[pid].isPublished
  {
    st := NewStore();
    var p := st.CreateProject(Alice, Info("X", "x"));
    pid := p.value.id;
  }

  /** A new project is not public. */
  method PrivateByDefault() {
    var st, pid := OneProject();
    var shown := st.PublicRead("x");
    assert shown == Fail(404, ProjectNotFound);
  }

  /** A project is public while published and answers 404 again once unpublished. */
  method PublishToggle() {
    var st, pid := OneProject();
    var on := st.UpdateProject(Alice, pid, Info("X", "x"), true);
    var shown := st.PublicRead("x");
    assert st.PublishedAt(pid, "x");
    assert shown.Ok? && shown.value.project == PublicProject(pid, "X", "x", "");
    var off := st.UpdateProject(Alice, pid, Info("X", "x"), false);
    assert st.projects.Keys == {pid} && !st.projects[pid].isPublished;
    shown := st.PublicRead("x");
    assert shown == Fail(404, ProjectNotFound);
  }

  /** Another user can neither read, change nor delete a project; each attempt answers 404 and nothing changes. */
  method CrossTenant() {
    var st := NewStore();
    var p := st.CreateProject(Alice, Info("X", "x"));
    var pid := p.value.id;
    var before := st.projects;
    var g := st.GetProject(Bob, pid);
    var u := st.UpdateProject(Bob, pid, Info("Mine", "mine"), true);
    var d := st.DeleteProject(Bob, pid);
    var missing := st.GetProject(Bob, pid + 1);
    assert g == u == missing == Fail(404, ProjectNotFound) && d == Fail(404, ProjectNotFound);
    assert st.projects == before;
  }

  /** After a project with scenes is deleted, neither its scene list nor its public page can be reached. */
  method DeleteHides() {
    var st := NewStore();
    var p := st.CreateProject(Alice, Info("X", "x"));
    var pid := p.value.id;
    var on := st.UpdateProject(Alice, pid, Info("X", "x"), true);
    var s := st.CreateScene(Alice, pid, Content(1));
    var d := st.DeleteProject(Alice, pid);
    assert st.projects == map[] && st.scenes == map[];
    var listed := st.ListScenes(Alice, pid);
    var shown := st.PublicRead("x");
    assert listed == Fail(404, ProjectNotFound) && shown == Fail(404, ProjectNotFound);
  }

  /** An unknown email and a wrong password get the same answer. */
  method UnknownEmailLikeWrongPassword() {
    var st := NewStore();
    assert st.users.Keys == {1, 2};
    var unknown := st.Login("mallory@example.org", "pw1");
    assert "hash:pw1" != "hash:guess" by { assert "hash:pw1"[5] != "hash:guess"[5]; }
    var wrong := st.Login(Alice.email, "guess");
    assert unknown == Fail(401, InvalidCredentials) && wrong == Fail(401, InvalidCredentials);
  }

  /** A wrong current password is refused and leaves the digest alone. */
  method WrongCurrentPassword() {
    var st := NewStore();
    assert !ToyMatches("guess", "hash:pw1") by { assert "hash:pw1"[5] != "hash:guess"[5]; }
    var refused := st.ChangePassword(Alice, "guess", "hash:new");
    assert refused == Fail(401, CurrentPasswordIncorrect) && st.users[1].passwordHash == "hash:pw1";
  }

  /** After a password change only the new password logs in. */
  method PasswordChange() {
    var st := NewStore();
    assert ToyMatches("pw1", "hash:pw1");
    var changed := st.ChangePassword(Alice, "pw1", "hash:new");
    assert changed.Ok? && st.users[1] == User(1, Alice.email, "hash:new") && st.users[2] == User(2, Bob.email, "hash:pw2");
    assert st.users.Keys == {1, 2};
    assert ToyMatches("new", "hash:new");
    assert !ToyMatches("pw1", "hash:new") by { assert "hash:new"[5] != "hash:pw1"[5]; }
    var previous := st.Login(Alice.email, "pw1");
    assert previous.Fail?;
    var current := st.Login(Alice.email, "new");
    assert current.Ok? && current.value.user == Alice;
  }

  const NoSearch := (clientId: string, secret: string, query: string) => None

  /** Without a header a request is turned away with 401 before any table is touched. */
  method MissingHeader() {
    var st := NewStore();
    var r := st.Serve(None, PostProject(Info("X", "x")), NoSearch);
    assert r == Fail(401, NoTokenProvided) && st.projects == map[];
  }

  /** A scheme with nothing after its space counts as no token at all. */
  method EmptyToken() {
    var st := NewStore();
    EmptySecondWordRejected("Bearer", "", st.verifyToken);
    assert "Bearer" + " " + "" == "Bearer ";
    var r := st.Serve(Some("Bearer "), PostProject(Info("X", "x")), NoSearch);
    assert r == Fail(401, NoTokenProvided) && st.projects == map[];
  }

  /** A token that does not verify is refused with 403. */
  method ForgedToken() {
    var st := NewStore();
    WellFormedHeader("Bearer", "forged", "");
    assert "Bearer" + " " + "forged" + "" == "Bearer forged";
    assert "forged" != "alice-token";
    var r := st.Serve(Some("Bearer forged"), PostProject(Info("X", "x")), NoSearch);
    assert r == Fail(403, InvalidToken) && st.projects == map[];
  }

  /** The scheme word is never looked at: `Basic` works as well as `Bearer`. */
  method AnyScheme() {
    WellFormedHeader("Basic", "alice-token", "");
    assert "Basic" + " " + "alice-token" + "" == "Basic alice-token";
    assert Authenticate(Some("Basic alice-token"), ToyVerify) == Authorized(Alice);
  }
}

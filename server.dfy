/**
 * The backend's data store and route handlers (server.js), as an in-memory state machine.
 * The three tables `users`, `projects` and `scenes` are maps from id to row; each handler
 * is a method that answers either `Ok` with the JSON payload or `Fail` with the status code
 * and the `error` string, and changes the tables only as its SQL statement does.
 */
module Server {
  import opened Wrappers
  import opened Auth
  import opened Tracks
  import opened Ordering

  type UserId = nat
  type ProjectId = nat
  type SceneId = nat

  /** A handler's answer: status 200 with a payload, or an error status with its message. */
  datatype Reply<T> = Ok(value: T) | Fail(status: nat, error: string)

  const InvalidCredentials := "Invalid credentials"
  const CurrentPasswordIncorrect := "Current password is incorrect"
  const PasswordUpdated := "Password updated successfully"
  const ServerError := "Server error"
  const ProjectNotFound := "Project not found"
  const SlugExists := "A project with this slug already exists"
  const ProjectDeleted := "Project deleted successfully"
  const SceneNotFound := "Scene not found"
  const SceneDeleted := "Scene deleted successfully"
  const CredentialsMissing := "Spotify credentials not configured for this project"
  const SearchFailed := "Spotify search failed"

  /** A row of `users`; `passwordHash` is the bcrypt digest. */
  datatype User = User(id: UserId, email: string, passwordHash: string)

  /** The project columns the owner supplies on create and replaces on update. */
  datatype ProjectInfo = ProjectInfo(
    title: string,
    slug: string,
    description: string,
    spotifyClientId: Option<string>,
    spotifyClientSecret: Option<string>)

  /** A row of `projects` (`SELECT *`): the owner's view, credentials included. */
  datatype Project = Project(id: ProjectId, userId: UserId, info: ProjectInfo, isPublished: bool, createdAt: nat)

  /** A row of the owner's project list: no owner id and no credentials. */
  datatype ProjectSummary = ProjectSummary(
    id: ProjectId, title: string, slug: string, description: string, isPublished: bool, createdAt: nat)

  /** The project part of the public page: no owner id and no credentials. */
  datatype PublicProject = PublicProject(id: ProjectId, title: string, slug: string, description: string)

  /** The seven scene columns the owner writes; they are also exactly what the public page shows of a scene. */
  datatype SceneContent = SceneContent(
    sceneNumber: int,
    sceneHeading: string,
    sceneText: string,
    songTitle: string,
    songArtist: string,
    spotifyTrackId: string,
    spotifyAlbumArtUrl: string)

  /** A row of `scenes`. */
  datatype Scene = Scene(id: SceneId, projectId: ProjectId, content: SceneContent)

  datatype PublicPage = PublicPage(project: PublicProject, scenes: seq<SceneContent>)

  datatype LoginReply = LoginReply(token: string, user: Identity)

  /** A row of the project list: the columns `id, title, slug, description, is_published, created_at`. */
  function Summarize(p: Project): (r: ProjectSummary)
  {
    ProjectSummary(p.id, p.info.title, p.info.slug, p.info.description, p.isPublished, p.createdAt)
  }

  /** The public view of a project: the columns `id, title, slug, description`. */
  function Publicize(p: Project): (r: PublicProject)
  {
    PublicProject(p.id, p.info.title, p.info.slug, p.info.description)
  }

  function Contents(rows: seq<Scene>): (cs: seq<SceneContent>)
    ensures |cs| == |rows|
    ensures forall i :: 0 <= i < |rows| ==> cs[i] == rows[i].content
  {
    if rows == [] then [] else [rows[0].content] + Contents(rows[1..])
  }

  /** `ORDER BY created_at DESC` as an ascending key. */
  function NewestFirst(p: ProjectSummary): (key: int)
  {
    -(p.createdAt as int)
  }

  /** `ORDER BY scene_number`. */
  function BySceneNumber(s: Scene): (key: int)
  {
    s.content.sceneNumber
  }

  /** JavaScript falsiness of a text column: NULL or the empty string. */
  predicate Falsy(v: Option<string>)
  {
    v.None? || v.value == ""
  }

  /** The list row depends on the listed columns only: neither the owner nor the credentials show in it. */
  lemma SummaryOmitsPrivateColumns(p: Project, q: Project)
    ensures Summarize(p) == Summarize(q) <==>
      && p.id == q.id && p.createdAt == q.createdAt && p.isPublished == q.isPublished
      && p.info.title == q.info.title && p.info.slug == q.info.slug && p.info.description == q.info.description
  {
  }

  /** The public view depends on the four public columns only: not on owner, credentials, flag or time. */
  lemma PublicOmitsPrivateColumns(p: Project, q: Project)
    ensures Publicize(p) == Publicize(q) <==>
      p.id == q.id && p.info.title == q.info.title && p.info.slug == q.info.slug && p.info.description == q.info.description
  {
  }

  /** An admin route, as the middleware passes it on after authentication. */
  datatype Request =
    | PostChangePassword(currentPassword: string, newHash: string)
    | GetProjects
    | GetProject(id: ProjectId)
    | PostProject(info: ProjectInfo)
    | PutProject(id: ProjectId, info: ProjectInfo, isPublished: bool)
    | DeleteProjectById(id: ProjectId)
    | GetScenes(projectId: ProjectId)
    | PostScene(projectId: ProjectId, content: SceneContent)
    | PutScene(id: SceneId, content: SceneContent)
    | DeleteSceneById(id: SceneId)
    | PostSpotifySearch(query: string, projectId: ProjectId)

  /** The JSON payload of a successful admin route. */
  datatype Body =
    | Message(text: string)
    | ProjectList(summaries: seq<ProjectSummary>)
    | ProjectRow(project: Project)
    | SceneList(rows: seq<Scene>)
    | SceneRow(scene: Scene)
    | TrackList(tracks: seq<Track>)

  function Lift<T>(r: Reply<T>, wrap: T -> Body): (b: Reply<Body>)
    ensures b.Fail? <==> r.Fail?
    ensures r.Fail? ==> b == Fail(r.status, r.error)
  {
    match r
    case Ok(v) => Ok(wrap(v))
    case Fail(status, error) => Fail(status, error)
  }

  class Store {
    var users: map<UserId, User>
    var projects: map<ProjectId, Project>
    var scenes: map<SceneId, Scene>
    /** Stands for `created_at`: every insert takes the current value and advances it. */
    var clock: nat
    var nextProjectId: ProjectId
    var nextSceneId: SceneId

    /** `jwt.verify` with the process's secret: the identity a valid, unexpired token carries. */
    const verifyToken: string -> Option<Identity>
    /** `bcrypt.compare(password, digest)`. */
    const passwordMatches: (string, string) -> bool
    /** `jwt.sign` with the process's secret and a seven-day expiry. */
    const signToken: Identity -> string
    /** The schema's default for `is_published`, which the insert does not set. */
    const publishedDefault: bool

    ghost predicate Valid()
      reads this
    {
      && (forall k :: k in users ==> users[k].id == k)
      && (forall a, b :: a in users && b in users && a != b ==> users[a].email != users[b].email)
      && (forall k :: k in projects ==> projects[k].id == k && k < nextProjectId && projects[k].createdAt < clock)
      && (forall a, b :: a in projects && b in projects && a != b ==> projects[a].createdAt != projects[b].createdAt)
      && (forall k :: k in scenes ==> scenes[k].id == k && k < nextSceneId && scenes[k].projectId in projects)
    }

    /** No two projects share a slug. Create keeps this; update does not check it. */
    ghost predicate DistinctSlugs()
      reads this
    {
      forall a, b :: a in projects && b in projects && a != b ==> projects[a].info.slug != projects[b].info.slug
    }

    /** `WHERE id = $1 AND user_id = $2` on projects. */
    predicate OwnsProject(uid: UserId, id: ProjectId)
      reads this
      ensures OwnsProject(uid, id) ==> id in projects
      ensures OwnsProject(uid, id) ==> Summarize(projects[id]) in SummariesAmong(projects.Keys, uid)
    {
      id in projects && projects[id].userId == uid
    }

    /** `scenes s JOIN projects p ON s.project_id = p.id WHERE s.id = $1 AND p.user_id = $2`. */
    predicate OwnsScene(uid: UserId, id: SceneId)
      reads this
      ensures OwnsScene(uid, id) ==> id in scenes && scenes[id].projectId in projects
      ensures OwnsScene(uid, id) ==> scenes[id] in ScenesAmong(scenes.Keys, scenes[id].projectId)
    {
      id in scenes && OwnsProject(uid, scenes[id].projectId)
    }

    /** `SELECT id FROM projects WHERE slug = $1` finds a row. */
    predicate SlugTaken(slug: string)
      reads this
    {
      exists k :: k in projects && projects[k].info.slug == slug
    }

    /** `WHERE slug = $1 AND is_published = true` holds of project `k`. */
    predicate PublishedAt(k: ProjectId, slug: string)
      reads this
      ensures PublishedAt(k, slug) ==> k in projects && Publicize(projects[k]).slug == slug
      ensures PublishedAt(k, slug) ==> SlugTaken(slug)
    {
      k in projects && projects[k].info.slug == slug && projects[k].isPublished
    }

    /** A project has one owner, so at most one user passes the project check. */
    lemma OneProjectOwner(a: UserId, b: UserId, id: ProjectId)
      requires OwnsProject(a, id) && OwnsProject(b, id)
      ensures a == b
    {
    }

    /** A scene has one owner: the owner of its parent project. */
    lemma OneSceneOwner(a: UserId, b: UserId, id: SceneId)
      requires OwnsScene(a, id) && OwnsScene(b, id)
      ensures a == b
    {
    }

    /** The list rows of `uid`'s projects among `keys`. */
    ghost function SummariesAmong(keys: set<ProjectId>, uid: UserId): set<ProjectSummary>
      reads this
    {
      set k | k in keys && k in projects && projects[k].userId == uid :: Summarize(projects[k])
    }

    /** The scenes of project `pid` among `keys`. */
    ghost function ScenesAmong(keys: set<SceneId>, pid: ProjectId): set<Scene>
      reads this
    {
      set k | k in keys && k in scenes && scenes[k].projectId == pid :: scenes[k]
    }

    /** `rows` is `SELECT * FROM scenes WHERE project_id = pid ORDER BY scene_number`: each scene of the project once, by scene number. */
    ghost predicate IsSceneListing(rows: seq<Scene>, pid: ProjectId)
      reads this
    {
      multiset(rows) == multiset(ScenesAmong(scenes.Keys, pid)) && SortedBy(rows, BySceneNumber)
    }

    /** One more project key examined by the project listing. */
    lemma SummariesStep(done: set<ProjectId>, k: ProjectId, uid: UserId)
      requires Valid()
      requires k in projects && k !in done
      ensures var x := Summarize(projects[k]);
              && x !in SummariesAmong(done, uid)
              && (forall y :: y in SummariesAmong(done, uid) ==> y.createdAt != x.createdAt)
              && SummariesAmong(done + {k}, uid) ==
                   if projects[k].userId == uid then SummariesAmong(done, uid) + {x} else SummariesAmong(done, uid)
    {
    }

    /** One more scene key examined by the scene listing. */
    lemma ScenesStep(done: set<SceneId>, k: SceneId, pid: ProjectId)
      requires Valid()
      requires k in scenes && k !in done
      ensures var x := scenes[k];
              && x !in ScenesAmong(done, pid)
              && ScenesAmong(done + {k}, pid) ==
                   if x.projectId == pid then ScenesAmong(done, pid) + {x} else ScenesAmong(done, pid)
    {
    }

    /** The scene listing's loop keeps its rows the project's examined scenes, by scene number. */
    lemma SceneListingStep(rows: seq<Scene>, done: set<SceneId>, k: SceneId, pid: ProjectId)
      requires Valid()
      requires k in scenes && k !in done
      requires multiset(rows) == multiset(ScenesAmong(done, pid))
      requires SortedBy(rows, BySceneNumber)
      ensures var next := if scenes[k].projectId == pid then InsertBy(rows, scenes[k], BySceneNumber) else rows;
              multiset(next) == multiset(ScenesAmong(done + {k}, pid))
    {
      ScenesStep(done, k, pid);
      if scenes[k].projectId == pid {
        MultisetAddFresh(ScenesAmong(done, pid), scenes[k]);
      }
    }

    /** The project listing's loop keeps its rows the caller's examined projects, newest first. */
    lemma ListingStep(rows: seq<ProjectSummary>, done: set<ProjectId>, k: ProjectId, uid: UserId)
      requires Valid()
      requires k in projects && k !in done
      requires multiset(rows) == multiset(SummariesAmong(done, uid))
      requires StrictlySortedBy(rows, NewestFirst) && SortedBy(rows, NewestFirst)
      ensures var next := if projects[k].userId == uid then InsertBy(rows, Summarize(projects[k]), NewestFirst) else rows;
              && multiset(next) == multiset(SummariesAmong(done + {k}, uid))
              && StrictlySortedBy(next, NewestFirst)
    {
      SummariesStep(done, k, uid);
      if projects[k].userId == uid {
        var x := Summarize(projects[k]);
        var before := SummariesAmong(done, uid);
        forall y | y in rows ensures NewestFirst(y) != NewestFirst(x) {
          assert multiset(rows)[y] > 0;
          assert y in before;
        }
        InsertStrict(rows, x, NewestFirst);
        MultisetAddFresh(before, x);
      }
    }

    /** The users are provisioned outside the application; the other tables start empty. */
    constructor (
      initialUsers: map<UserId, User>,
      verifyToken: string -> Option<Identity>,
      passwordMatches: (string, string) -> bool,
      signToken: Identity -> string,
      publishedDefault: bool)
      requires forall k :: k in initialUsers ==> initialUsers[k].id == k
      requires forall a, b :: a in initialUsers && b in initialUsers && a != b ==> initialUsers[a].email != initialUsers[b].email
      ensures Valid()
      ensures users == initialUsers && projects == map[] && scenes == map[]
      ensures this.verifyToken == verifyToken && this.passwordMatches == passwordMatches
      ensures this.signToken == signToken && this.publishedDefault == publishedDefault
    {
      users := initialUsers;
      projects := map[];
      scenes := map[];
      clock := 0;
      nextProjectId := 0;
      nextSceneId := 0;
      this.verifyToken := verifyToken;
      this.passwordMatches := passwordMatches;
      this.signToken := signToken;
      this.publishedDefault := publishedDefault;
    }

    /**
     * POST /api/auth/login (server.js:43-74). An unknown email and a wrong password get the
     * same 401 answer.
     */
    method Login(email: string, password: string) returns (r: Reply<LoginReply>)
      requires Valid()
      ensures r.Ok? <==> exists k :: k in users && users[k].email == email && passwordMatches(password, users[k].passwordHash)
      ensures r.Fail? ==> r == Fail(401, InvalidCredentials)
      ensures r.Ok? ==> var u := r.value.user;
                        && u.id in users && users[u.id].email == email && u.email == email
                        && r.value.token == signToken(u)
    {
      if k :| k in users && users[k].email == email {
        if passwordMatches(password, users[k].passwordHash) {
          var u := Identity(k, email);
          r := Ok(LoginReply(signToken(u), u));
        } else {
          r := Fail(401, InvalidCredentials);
        }
      } else {
        r := Fail(401, InvalidCredentials);
      }
    }

    /**
     * POST /api/auth/change-password (server.js:77-105). `newHash` is what `bcrypt.hash`
     * makes of the new password. When the token's user no longer exists, the source reads a
     * field of an undefined row and answers 500.
     */
    method ChangePassword(caller: Identity, currentPassword: string, newHash: string) returns (r: Reply<string>)
      requires Valid()
      modifies this`users
      ensures Valid()
      ensures caller.id !in old(users) ==> r == Fail(500, ServerError) && users == old(users)
      ensures caller.id in old(users) && !passwordMatches(currentPassword, old(users)[caller.id].passwordHash) ==>
                r == Fail(401, CurrentPasswordIncorrect) && users == old(users)
      ensures caller.id in old(users) && passwordMatches(currentPassword, old(users)[caller.id].passwordHash) ==>
                r == Ok(PasswordUpdated) && users == old(users)[caller.id := old(users)[caller.id].(passwordHash := newHash)]
    {
      if caller.id !in users {
        return Fail(500, ServerError);
      }
      var user := users[caller.id];
      if !passwordMatches(currentPassword, user.passwordHash) {
        return Fail(401, CurrentPasswordIncorrect);
      }
      users := users[caller.id := user.(passwordHash := newHash)];
      r := Ok(PasswordUpdated);
    }

    /**
     * GET /api/admin/projects (server.js:110-122): the caller's projects and no one else's,
     * each once, newest first, without owner id or credentials.
     */
    method ListProjects(caller: Identity) returns (rows: seq<ProjectSummary>)
      requires Valid()
      ensures multiset(rows) == multiset(SummariesAmong(projects.Keys, caller.id))
      ensures forall i, j :: 0 <= i < j < |rows| ==> rows[i].createdAt > rows[j].createdAt
    {
      rows := [];
      var todo := projects.Keys;
      while todo != {}
        invariant todo <= projects.Keys
        invariant multiset(rows) == multiset(SummariesAmong(projects.Keys - todo, caller.id))
        invariant StrictlySortedBy(rows, NewestFirst)
        decreases todo
      {
        var k :| k in todo;
        var done := projects.Keys - todo;
        StrictlySortedIsSorted(rows, NewestFirst);
        ListingStep(rows, done, k, caller.id);
        if projects[k].userId == caller.id {
          rows := InsertBy(rows, Summarize(projects[k]), NewestFirst);
        }
        todo := todo - {k};
        assert projects.Keys - todo == done + {k};
      }
      assert projects.Keys - todo == projects.Keys;
      forall i, j | 0 <= i < j < |rows| ensures rows[i].createdAt > rows[j].createdAt {
        assert NewestFirst(rows[i]) < NewestFirst(rows[j]);
      }
    }

    /** GET /api/admin/projects/:id (server.js:125-141): a missing and a foreign id get the same 404. */
    method GetProject(caller: Identity, id: ProjectId) returns (r: Reply<Project>)
      requires Valid()
      ensures OwnsProject(caller.id, id) ==> r == Ok(projects[id])
      ensures !OwnsProject(caller.id, id) ==> r == Fail(404, ProjectNotFound)
    {
      if OwnsProject(caller.id, id) {
        r := Ok(projects[id]);
      } else {
        r := Fail(404, ProjectNotFound);
      }
    }

    /**
     * POST /api/admin/projects (server.js:144-165): a slug any project already has is refused
     * with 400; otherwise one row owned by the caller is added.
     */
    method CreateProject(caller: Identity, info: ProjectInfo) returns (r: Reply<Project>)
      requires Valid()
      modifies this`projects, this`nextProjectId, this`clock
      ensures Valid()
      ensures old(SlugTaken(info.slug)) ==>
                && r == Fail(400, SlugExists)
                && projects == old(projects) && nextProjectId == old(nextProjectId) && clock == old(clock)
      ensures !old(SlugTaken(info.slug)) ==>
                && r == Ok(Project(old(nextProjectId), caller.id, info, publishedDefault, old(clock)))
                && r.value.id !in old(projects)
                && projects == old(projects)[r.value.id := r.value]
      ensures old(DistinctSlugs()) ==> DistinctSlugs()
    {
      if SlugTaken(info.slug) {
        return Fail(400, SlugExists);
      }
      var p := Project(nextProjectId, caller.id, info, publishedDefault, clock);
      projects := projects[p.id := p];
      nextProjectId := nextProjectId + 1;
      clock := clock + 1;
      r := Ok(p);
    }

    /**
     * PUT /api/admin/projects/:id (server.js:168-189): replaces title, slug, description, both
     * credentials and the published flag of the caller's project; id, owner and creation time
     * stay. The slug is not checked against the other projects.
     */
    method UpdateProject(caller: Identity, id: ProjectId, info: ProjectInfo, isPublished: bool) returns (r: Reply<Project>)
      requires Valid()
      modifies this`projects
      ensures Valid()
      ensures !old(OwnsProject(caller.id, id)) ==> r == Fail(404, ProjectNotFound) && projects == old(projects)
      ensures old(OwnsProject(caller.id, id)) ==>
                && r == Ok(old(projects)[id].(info := info, isPublished := isPublished))
                && projects == old(projects)[id := r.value]
    {
      if !OwnsProject(caller.id, id) {
        return Fail(404, ProjectNotFound);
      }
      var p := projects[id].(info := info, isPublished := isPublished);
      projects := projects[id := p];
      r := Ok(p);
    }

    /**
     * DELETE /api/admin/projects/:id (server.js:192-208). The removal of the project's scenes
     * is the schema's cascading foreign key, which the model assumes; the handler itself
     * deletes only the project row.
     */
    method DeleteProject(caller: Identity, id: ProjectId) returns (r: Reply<string>)
      requires Valid()
      modifies this`projects, this`scenes
      ensures Valid()
      ensures !old(OwnsProject(caller.id, id)) ==>
                r == Fail(404, ProjectNotFound) && projects == old(projects) && scenes == old(scenes)
      ensures old(OwnsProject(caller.id, id)) ==>
                && r == Ok(ProjectDeleted)
                && projects == old(projects) - {id}
                && scenes == map k | k in old(scenes) && old(scenes)[k].projectId != id :: old(scenes)[k]
    {
      if !OwnsProject(caller.id, id) {
        return Fail(404, ProjectNotFound);
      }
      projects := projects - {id};
      scenes := map k | k in scenes && scenes[k].projectId != id :: scenes[k];
      r := Ok(ProjectDeleted);
    }

    /** The scenes of project `pid` in scene-number order (the query at server.js:226 and server.js:338). */
    method CollectScenes(pid: ProjectId) returns (rows: seq<Scene>)
      requires Valid()
      ensures IsSceneListing(rows, pid)
    {
      rows := [];
      var todo := scenes.Keys;
      while todo != {}
        invariant todo <= scenes.Keys
        invariant multiset(rows) == multiset(ScenesAmong(scenes.Keys - todo, pid))
        invariant SortedBy(rows, BySceneNumber)
        decreases todo
      {
        var k :| k in todo;
        var done := scenes.Keys - todo;
        SceneListingStep(rows, done, k, pid);
        if scenes[k].projectId == pid {
          rows := InsertBy(rows, scenes[k], BySceneNumber);
        }
        todo := todo - {k};
        assert scenes.Keys - todo == done + {k};
      }
      assert scenes.Keys - todo == scenes.Keys;
    }

    /** GET /api/admin/projects/:projectId/scenes (server.js:213-235). */
    method ListScenes(caller: Identity, pid: ProjectId) returns (r: Reply<seq<Scene>>)
      requires Valid()
      ensures !OwnsProject(caller.id, pid) ==> r == Fail(404, ProjectNotFound)
      ensures OwnsProject(caller.id, pid) ==> r.Ok? && IsSceneListing(r.value, pid)
    {
      if !OwnsProject(caller.id, pid) {
        return Fail(404, ProjectNotFound);
      }
      var rows := CollectScenes(pid);
      r := Ok(rows);
    }

    /** POST /api/admin/projects/:projectId/scenes (server.js:238-263). */
    method CreateScene(caller: Identity, pid: ProjectId, content: SceneContent) returns (r: Reply<Scene>)
      requires Valid()
      modifies this`scenes, this`nextSceneId
      ensures Valid()
      ensures !old(OwnsProject(caller.id, pid)) ==>
                r == Fail(404, ProjectNotFound) && scenes == old(scenes) && nextSceneId == old(nextSceneId)
      ensures old(OwnsProject(caller.id, pid)) ==>
                && r == Ok(Scene(old(nextSceneId), pid, content))
                && r.value.id !in old(scenes)
                && scenes == old(scenes)[r.value.id := r.value]
    {
      if !OwnsProject(caller.id, pid) {
        return Fail(404, ProjectNotFound);
      }
      var s := Scene(nextSceneId, pid, content);
      scenes := scenes[s.id := s];
      nextSceneId := nextSceneId + 1;
      r := Ok(s);
    }

    /**
     * PUT /api/admin/scenes/:id (server.js:266-295): the scene's parent project must be the
     * caller's; the seven content columns are replaced and the parent is kept.
     */
    method UpdateScene(caller: Identity, id: SceneId, content: SceneContent) returns (r: Reply<Scene>)
      requires Valid()
      modifies this`scenes
      ensures Valid()
      ensures !old(OwnsScene(caller.id, id)) ==> r == Fail(404, SceneNotFound) && scenes == old(scenes)
      ensures old(OwnsScene(caller.id, id)) ==>
                && r == Ok(Scene(id, old(scenes)[id].projectId, content))
                && scenes == old(scenes)[id := r.value]
    {
      if !OwnsScene(caller.id, id) {
        return Fail(404, SceneNotFound);
      }
      var s := scenes[id].(content := content);
      scenes := scenes[id := s];
      r := Ok(s);
    }

    /** DELETE /api/admin/scenes/:id (server.js:298-319). */
    method DeleteScene(caller: Identity, id: SceneId) returns (r: Reply<string>)
      requires Valid()
      modifies this`scenes
      ensures Valid()
      ensures !old(OwnsScene(caller.id, id)) ==> r == Fail(404, SceneNotFound) && scenes == old(scenes)
      ensures old(OwnsScene(caller.id, id)) ==> r == Ok(SceneDeleted) && scenes == old(scenes) - {id}
    {
      if !OwnsScene(caller.id, id) {
        return Fail(404, SceneNotFound);
      }
      scenes := scenes - {id};
      r := Ok(SceneDeleted);
    }

    /**
     * GET /api/public/:slug (server.js:324-350), without authentication: only a published
     * project with that slug is shown, with its scenes in scene-number order. When several
     * published projects share the slug, the query's first row is any one of them.
     */
    method PublicRead(slug: string) returns (r: Reply<PublicPage>)
      requires Valid()
      ensures r.Fail? <==> !exists k :: PublishedAt(k, slug)
      ensures r.Fail? ==> r == Fail(404, ProjectNotFound)
      ensures r.Ok? ==> var k := r.value.project.id;
                        && PublishedAt(k, slug)
                        && r.value.project == Publicize(projects[k])
                        && exists rows :: IsSceneListing(rows, k) && r.value.scenes == Contents(rows)
    {
      if k :| k in projects && PublishedAt(k, slug) {
        var rows := CollectScenes(k);
        r := Ok(PublicPage(Publicize(projects[k]), Contents(rows)));
        assert PublishedAt(r.value.project.id, slug);
      } else {
        assert forall k :: !PublishedAt(k, slug);
        r := Fail(404, ProjectNotFound);
      }
    }

    /**
     * POST /api/spotify/search (server.js:353-411). The two provider calls are the parameter
     * `provider`: given the client id, the secret and the query it yields the track items, or
     * None when either call fails. The ownership and credential checks come first and do not
     * depend on it.
     */
    method Search(caller: Identity, query: string, pid: ProjectId,
                  provider: (string, string, string) -> Option<seq<RawTrack>>) returns (r: Reply<seq<Track>>)
      requires Valid()
      ensures !OwnsProject(caller.id, pid) ==> r == Fail(404, ProjectNotFound)
      ensures OwnsProject(caller.id, pid) && (Falsy(projects[pid].info.spotifyClientId) || Falsy(projects[pid].info.spotifyClientSecret)) ==>
                r == Fail(400, CredentialsMissing)
      ensures OwnsProject(caller.id, pid) && !Falsy(projects[pid].info.spotifyClientId) && !Falsy(projects[pid].info.spotifyClientSecret) ==>
                var items := provider(projects[pid].info.spotifyClientId.value, projects[pid].info.spotifyClientSecret.value, query);
                r == if items.None? then Fail(500, SearchFailed) else Ok(NormalizeTracks(items.value))
    {
      if !OwnsProject(caller.id, pid) {
        return Fail(404, ProjectNotFound);
      }
      var info := projects[pid].info;
      if Falsy(info.spotifyClientId) || Falsy(info.spotifyClientSecret) {
        return Fail(400, CredentialsMissing);
      }
      var items := provider(info.spotifyClientId.value, info.spotifyClientSecret.value, query);
      if items.None? {
        r := Fail(500, SearchFailed);
      } else {
        r := Ok(NormalizeTracks(items.value));
      }
    }

    /**
     * An admin request as Express runs it: `authenticateToken` first, then the route's handler.
     * A request without a usable token (401) or with one that does not verify (403) is answered
     * before any handler runs and leaves every table as it was.
     */
    method Serve(header: Option<string>, req: Request,
                 provider: (string, string, string) -> Option<seq<RawTrack>>) returns (r: Reply<Body>)
      requires Valid()
      modifies this`users, this`projects, this`scenes, this`nextProjectId, this`nextSceneId, this`clock
      ensures Valid()
      ensures Authenticate(header, verifyToken).Rejected? ==>
                && r == Fail(Authenticate(header, verifyToken).status, Authenticate(header, verifyToken).error)
                && unchanged(this)
    {
      var auth := Authenticate(header, verifyToken);
      if auth.Rejected? {
        return Fail(auth.status, auth.error);
      }
      var caller := auth.user;
      match req {
        case PostChangePassword(currentPassword, newHash) =>
          var a := ChangePassword(caller, currentPassword, newHash);
          r := Lift(a, (m: string) => Message(m));
        case GetProjects =>
          var rows := ListProjects(caller);
          r := Ok(ProjectList(rows));
        case GetProject(id) =>
          var a := GetProject(caller, id);
          r := Lift(a, (p: Project) => ProjectRow(p));
        case PostProject(info) =>
          var a := CreateProject(caller, info);
          r := Lift(a, (p: Project) => ProjectRow(p));
        case PutProject(id, info, isPublished) =>
          var a := UpdateProject(caller, id, info, isPublished);
          r := Lift(a, (p: Project) => ProjectRow(p));
        case DeleteProjectById(id) =>
          var a := DeleteProject(caller, id);
          r := Lift(a, (m: string) => Message(m));
        case GetScenes(pid) =>
          var a := ListScenes(caller, pid);
          r := Lift(a, (rows: seq<Scene>) => SceneList(rows));
        case PostScene(pid, content) =>
          var a := CreateScene(caller, pid, content);
          r := Lift(a, (s: Scene) => SceneRow(s));
        case PutScene(id, content) =>
          var a := UpdateScene(caller, id, content);
          r := Lift(a, (s: Scene) => SceneRow(s));
        case DeleteSceneById(id) =>
          var a := DeleteScene(caller, id);
          r := Lift(a, (m: string) => Message(m));
        case PostSpotifySearch(query, pid) =>
          var a := Search(caller, query, pid, provider);
          r := Lift(a, (ts: seq<Track>) => TrackList(ts));
      }
    }
  }
}

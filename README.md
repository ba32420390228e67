# Screenplay player: the ownership-checked store behind the admin API

The screenplay player's backend (`screenplay-player/backend/server.js`) is an Express server
over three PostgreSQL tables: users, projects and scenes. An admin logs in with an
email and a password and receives a signed token. Every admin route runs the
`authenticateToken` middleware first. Each route then reads or changes only rows that belong
to the token's user, and any other row answers 404. The one exception is the slug check when a
project is created: it looks at every owner's projects, so its 400 answer tells the caller that
some other project, of any tenant and published or not, already has that slug. One unauthenticated route shows a
*published* project, found by its slug, with its scenes in scene-number order. A proxy route
searches the music provider using the project's own client credentials and reshapes each track
it gets back. The dashboard lower-cases the slug an admin types and turns each run of
whitespace into `-`.

The model in Dafny:

- `Auth` (auth.dfy): the middleware. The token is the truthy second word of
  `authorization.split(' ')`. No token gives 401 `No token provided`; a token the token service
  does not verify gives 403 `Invalid token`.
- `Strings` (strings.dfy): JavaScript's `split` on one character and `join`, with their round trips.
- `Server` (server.dfy): class `Store`, with the three tables as maps keyed by id, an id counter
  per table and a clock for `created_at`. It has one method per route handler. `Store.Valid()`
  is the invariant every handler keeps: ids match keys, emails are unique, every scene's parent
  exists, and creation times are distinct and in the past. `Serve` is the middleware followed by
  dispatch to a handler.
- `Ordering` (ordering.dfy): sorted insertion by a key. The store uses it to build
  `ORDER BY created_at DESC` and `ORDER BY scene_number` results.
- `Tracks` (tracks.dfy): the mapping of the provider's track items.
- `Slug` (slug.dfy): the dashboard's slug normaliser.
- `Scenarios` (scenarios.dfy): client methods that drive a `Store` through request sequences.
  Each asserts what the handlers' contracts guarantee:
  - scenes come back in scene-number order;
  - a taken slug is refused;
  - an update can duplicate a slug;
  - publishing toggles visibility;
  - another tenant's requests answer 404;
  - deletion hides a project's scenes;
  - the password checks behave as described;
  - requests without a valid token are turned away.

Bcrypt, JWT signing and verification, and the schema's `is_published` default are values the
store is constructed with:
- `passwordMatches` stands for `bcrypt.compare`;
- `verifyToken` stands for `jwt.verify` under the server secret;
- `signToken` stands for `jwt.sign`;
- `publishedDefault` is the `is_published` default.

The digest `bcrypt.hash` produces is a parameter of `ChangePassword`. The provider's two HTTP
calls are a function parameter of `Search` and `Serve`.

## Model

| member | source | states |
|---|---|---|
| Auth.BearerToken | screenplay-player/backend/server.js:24-25 | a token, when present, is a non-empty word without spaces; a missing header gives none |
| Auth.Authenticate | screenplay-player/backend/server.js:23-37 | 401 exactly when there is no token; 403 exactly when there is a token that does not verify; otherwise the identity is what verification of that token returns; the 401 message is `No token provided` and the 403 message is `Invalid token` |
| Auth.TokenAfterScheme | screenplay-player/backend/server.js:25 | for `scheme + " " + rest`, the token is the space-free prefix of `rest`, or none when that prefix is empty |
| Auth.NoSpaceNoToken | screenplay-player/backend/server.js:25-29 | a header without a space carries no token |
| Auth.WellFormedHeader | screenplay-player/backend/server.js:25 | `<scheme> <token>`, optionally followed by a space and anything, yields exactly that token |
| Auth.SchemeIgnored | screenplay-player/backend/server.js:25 | the first word is never checked: any two schemes give the same token |
| Auth.EmptySecondWordRejected | screenplay-player/backend/server.js:25-29 | `"Bearer "` and `"Bearer  x"` are rejected with 401 whatever the token service says |
| Strings.Split | screenplay-player/backend/server.js:25 | at least one part; no part contains the separator |
| Strings.JoinSplit | screenplay-player/backend/server.js:25 | joining the parts of a split with the separator gives back the original string |
| Strings.SplitJoin | screenplay-player/backend/server.js:25 | splitting a join of separator-free parts on a one-character separator gives back the parts |
| Strings.Join | screenplay-player/backend/server.js:400 | a join of at least one part is exactly as long as the parts plus one separator between each two neighbours, starts with the first part, and has the separator right after it when there are two or more parts |
| Server.Store.constructor | screenplay-player/backend/server.js:1-16 | the one database pool all handlers share starts with the given users, no projects and no scenes, and satisfies the invariant; users are provisioned off-line (by `create-admin.js`), not through the API |
| Server.Store.Login | screenplay-player/backend/server.js:43-74 | succeeds exactly when some user has that email and the password matches that user's digest; otherwise 401 `Invalid credentials`, the same for an unknown email and a wrong password; the token is the signature of that user's id and email |
| Server.Store.ChangePassword | screenplay-player/backend/server.js:77-105 | 500 when the token's user row is gone; 401 when the current password does not match; otherwise only that user's digest is replaced |
| Server.Store.ListProjects | screenplay-player/backend/server.js:110-122 | every project of the caller exactly once, and no other project, as a summary without owner or credentials, strictly newest first |
| Server.Store.GetProject | screenplay-player/backend/server.js:125-141 | the full row when the caller owns it; 404 otherwise, whether the project is missing or another user's |
| Server.Store.CreateProject | screenplay-player/backend/server.js:144-165 | 400 and no change when any project has the slug; otherwise a new row with a fresh id, the caller as owner, the given fields, the default published flag and a creation time later than all others; distinct slugs stay distinct |
| Server.Store.UpdateProject | screenplay-player/backend/server.js:168-189 | 404 and no change unless the caller owns it; otherwise the six editable columns are replaced and id, owner and creation time are kept; the slug is not checked |
| Server.Store.DeleteProject | screenplay-player/backend/server.js:192-208 | 404 and no change unless the caller owns it; otherwise the project and exactly its scenes are removed |
| Server.Store.CollectScenes | screenplay-player/backend/server.js:225-228 | every scene of the project exactly once, no other scene, ordered by scene number |
| Server.Store.ListScenes | screenplay-player/backend/server.js:213-235 | 404 unless the caller owns the project; otherwise the project's scene listing |
| Server.Store.CreateScene | screenplay-player/backend/server.js:238-263 | 404 and no change unless the caller owns the project; otherwise a new scene with a fresh id under that project |
| Server.Store.UpdateScene | screenplay-player/backend/server.js:266-295 | 404 and no change unless the scene's parent project is the caller's; otherwise the content columns are replaced and the parent is kept |
| Server.Store.DeleteScene | screenplay-player/backend/server.js:298-319 | 404 and no change unless the scene's parent project is the caller's; otherwise exactly that scene is removed |
| Server.Store.PublicRead | screenplay-player/backend/server.js:324-350 | 404 exactly when no published project has the slug; otherwise a published project with that slug, shown as id, title, slug and description, together with its scenes' content columns ordered by scene number |
| Server.SummaryOmitsPrivateColumns | screenplay-player/backend/server.js:113 | two projects give the same list row exactly when those six columns agree, so neither owner nor credentials show |
| Server.PublicOmitsPrivateColumns | screenplay-player/backend/server.js:327 | two projects give the same public view exactly when those four columns agree, so owner, credentials, flag and time do not show |
| Server.Store.OwnsProject | screenplay-player/backend/server.js:127-129 | `id` and `user_id` both match: the project exists and is in the owner's project list |
| Server.Store.OneProjectOwner | screenplay-player/backend/server.js:127-129 | at most one user passes the project ownership check |
| Server.Store.OwnsScene | screenplay-player/backend/server.js:271-275 | the scene exists, its parent project exists, and the scene is in its project's scene listing |
| Server.Store.OneSceneOwner | screenplay-player/backend/server.js:271-275 | at most one user passes the scene ownership check through the parent join |
| Server.Store.PublishedAt | screenplay-player/backend/server.js:326-329 | the project exists, its public view has that slug, and the slug counts as taken for the create check |
| Server.Contents | screenplay-player/backend/server.js:337-339 | one content row per scene, in the same order |
| Server.Store.Search | screenplay-player/backend/server.js:353-411 | 404 unless the caller owns the project; 400 when either credential is null or empty; 500 when the provider fails; otherwise the provider's items, each mapped |
| Server.Store.Serve | screenplay-player/backend/server.js:23-37 | a rejected request answers with the middleware's status and message and leaves every table unchanged |
| Ordering.InsertBy | screenplay-player/backend/server.js:113 | inserting into a sorted sequence keeps it sorted and adds exactly that element |
| Ordering.InsertStrict | screenplay-player/backend/server.js:113 | inserting an element with a new key keeps a strictly sorted sequence strictly sorted, so distinct creation times give a strict newest-first order |
| Ordering.ConsSorted | screenplay-player/backend/server.js:226 | putting an element no larger than the rest in front keeps the sequence sorted |
| Tracks.AlbumArt | screenplay-player/backend/server.js:402 | the album art is never an empty string (`|| null` turns it into null), and when present it is the first image's address |
| Tracks.AlbumArtFirstOnly | screenplay-player/backend/server.js:402 | only the first image is looked at: dropping every later image changes nothing |
| Tracks.NormalizeTracks | screenplay-player/backend/server.js:397 | one track per item, in the provider's order |
| Tracks.ArtistNamesRecoverable | screenplay-player/backend/server.js:400 | when no name contains a comma, splitting the artist field at commas gives the first name and then each further name after one space |
| Tracks.SameTrackSameItem | screenplay-player/backend/server.js:397-404 | two items with at least one artist and no comma in any artist name that map to the same track agree on id, name, album, link and the list of artist names |
| Slug.IsWhitespace | screenplay-player/frontend/src/pages/Dashboard.js:98 | the `\s` class: space, tab, newline and carriage return are in it; the replacement `-` and upper-case letters are not |
| Slug.LowerChar | screenplay-player/frontend/src/pages/Dashboard.js:98 | an upper-case ASCII letter becomes its lower-case partner (code point plus 32); every other character is kept; whitespace stays whitespace |
| Slug.ToLower | screenplay-player/frontend/src/pages/Dashboard.js:98 | same length; each upper-case ASCII letter is replaced by its lower-case partner and every other character kept in place, so no upper-case letter remains and whitespace sits where it was |
| Slug.SkipWhitespace | screenplay-player/frontend/src/pages/Dashboard.js:98 | drops exactly the leading whitespace run |
| Slug.ReplaceWhitespaceRuns | screenplay-player/frontend/src/pages/Dashboard.js:98 | no longer than the input, no whitespace left, every character a `-` or one of the input's |
| Slug.NormalizeSlug | screenplay-player/frontend/src/pages/Dashboard.js:98 | no whitespace and no upper-case ASCII letter, and no longer than the input (with lower-casing taken to be ASCII-only) |
| Slug.ToLowerConcat | screenplay-player/frontend/src/pages/Dashboard.js:98 | lower-casing works character by character, so it distributes over concatenation |
| Slug.SkipAllWhitespace | screenplay-player/frontend/src/pages/Dashboard.js:98 | skipping a whitespace run lands on the first character that follows it |
| Slug.SkipSomeWhitespace | screenplay-player/frontend/src/pages/Dashboard.js:98 | skipping stops inside the first part when that part holds a non-whitespace character |
| Slug.ReplaceNoWhitespace | screenplay-player/frontend/src/pages/Dashboard.js:98 | text without whitespace is left as it is |
| Slug.ReplaceConcat | screenplay-player/frontend/src/pages/Dashboard.js:98 | replacement distributes over a cut that does not fall inside a whitespace run |
| Slug.NormalizeConcat | screenplay-player/frontend/src/pages/Dashboard.js:98 | normalisation distributes over a cut that does not fall inside a whitespace run |
| Slug.NormalizeRun | screenplay-player/frontend/src/pages/Dashboard.js:98 | any non-empty whitespace run becomes a single `-` |
| Slug.NormalizeChar | screenplay-player/frontend/src/pages/Dashboard.js:98 | any other character becomes its lower-case form |
| Slug.NormalizeFixed | screenplay-player/frontend/src/pages/Dashboard.js:98 | text that is already lower-case and free of whitespace is unchanged |
| Slug.NormalizeIdempotent | screenplay-player/frontend/src/pages/Dashboard.js:98 | normalising a normalised slug changes nothing |

## Left out

- Database failures: every handler's `catch` answers 500, with `Server error` except for the search proxy, whose `catch` answers `Spotify search failed`. The model has no failing connection. It keeps two 500 answers: `ChangePassword` for a token whose user row no longer exists, where the source reads a field of an undefined row, and `Search` when the provider fails, answering `Spotify search failed`.
- Bcrypt and JWT are functions the store is constructed with. Token expiry (`7d`, server.js:66) and the secret belong to `verifyToken`; the hash cost belongs to whoever computes `newHash`.
- Server.Store.Search: the provider's two HTTP calls are one function parameter. That leaves out the Basic-auth header with base64 credentials, `encodeURIComponent` of the query and `limit=10`. Any failure of either call is the 500 `Spotify search failed` answer. The mapping at server.js:397-404 also throws, and so answers that same 500, when an item lacks `album`, `album.images`, `artists` or `external_urls`. `RawTrack` always has these fields, so the model cannot express that case.
- Timestamps are a counter, so `created_at` values are distinct and increasing. `updated_at` columns are not modelled.
- Server.Store.DeleteProject: removing the project's scenes is assumed to be a cascading foreign key in the schema, which is not part of this model. The handler deletes only the project row.
- Server.Store.CreateProject: the default of `is_published` in the schema is not part of this model. It is the constant `publishedDefault`.
- Server.Store.CreateProject: the slug check and the insert run as one atomic step. The source runs them as two queries, so concurrent requests can both pass the check.
- Server.Store.UpdateProject: the new slug is not checked against other projects, as in the source. `Scenarios.UpdateDuplicatesSlug` shows that this breaks slug uniqueness. The unique constraint the schema may have is not part of this model.
- Server.Store.PublicRead: when published projects share a slug, the model returns any one of them, since the query's first row is unspecified.
- Slug.LowerChar: lower-cases ASCII letters only. JavaScript's `toLowerCase` also lower-cases other scripts, and those characters are kept as they are. `toLowerCase` can also make a string longer: `İ` (U+0130) becomes `i̇`, two code units. So the "no longer than the input" bound of `Slug.NormalizeSlug` holds for the ASCII model, not for every input of Dashboard.js:98.
- Request bodies: fields other than the two credentials are plain strings. A missing field (`undefined`, stored as NULL) and type coercion of route ids are not modelled; ids are numbers.
- The `/health` route, the React pages other than the slug field, `create-admin.js` and the Express and JSON plumbing are not part of this model.
- Server.Store.Serve: it states the middleware's rejections only. After authorization it runs the chosen handler, whose own contract describes the outcome.

# Lab tasks and accounts backend, modelled in Dafny

The repository is a small web backend with two applications. The labs
application stores lab tasks grouped by topics. It offers a search, a detail
view and two file downloads to any authenticated caller. Creating, updating
and deleting tasks is reserved for administrators. The users application
registers users, logs them in and out through a session, and reports the
logged-in user.

This project models the request handlers of both applications, with the
database replaced by in-memory tables:

- `wrappers.dfy` (module `Wrappers`): `Option` for nullable columns and
  optional parameters, `Result` for error responses.
- `text.dfy` (module `Text`): the case-insensitive substring test behind the
  `icontains` lookup, and Python's `split("/")[-1]` for the download file
  name. Each has a reference definition and a lemma connecting the two.
- `lab_models.dfy` (module `LabModels`): the `Topic` and `LabTask` rows, the
  table invariants (unique topic names, every task's topic exists, ids below
  their counter), the cascade on topic deletion, and the `LabDatabase` class
  that holds both tables.
- `lab_api.dfy` (module `LabApi`): the read handlers as functions over the
  task table, and `create_task`, `update_task`, `delete_task` as methods that
  change a `LabDatabase`.
- `users_api.dfy` (module `UsersApi`): the `Accounts` class, which holds the
  user table and one client's session, with `register_user`, `login_user`,
  `logout_user` as methods and `me` as a function. The `UserOut` projection
  of `core/apps/users/schema.py` is a datatype there.
- `scenarios.dfy` (module `Scenarios`): the repository's test cases replayed
  against the handlers' contracts.

The caller of a labs route is `Option<Identity>`. `None` stands for a
request without a valid token. `Identity` carries the `is_admin` flag the
admin routes check. Password hashing is a function value `hash` fixed when
the `Accounts` object is built. `CheckPassword(hash, stored, raw)` holds when
`stored == hash(raw)`, and no property of `hash` is assumed. The username
normalisation that Django's `create_user` applies before the insert (Unicode
NFKC) is a second function value, `normalize`, of which nothing is assumed
either. The guard of `register_user` checks the name as typed, and the insert
stores the normalised name. So a name that normalises to a stored one passes
the guard and then breaks the unique constraint. The handler does not catch
that error, and the model reports it as `DuplicateUsername` (status 500).
The clock is the `now` parameter of `CreateTask`. The media URL prefix of
stored files is the `mediaUrl` parameter of `FromOrm`. New ids come from
counters in the tables, so an id is never reused.

Where the repository's tests and the code disagree, the model follows the
code. tests/test_users_api.py:47-51, 76-87 and 115-145 expect an access
token, a `refresh_token` cookie, a 201 answer to registration and a
`/refresh` route. core/apps/users/api.py authenticates with a Django session.
It issues no access or refresh tokens and has no `/refresh` route, and
`register_user` answers with the body `{success, user}` (core/apps/users/api.py:51).

All three admin routes refuse a non-administrator with the same 403 text,
`"Not authorized"` (core/apps/labs/api.py:109, 124, 138).

## Model

| member | source | states |
|---|---|---|
| `Text.ContainsIsSubstring` | core/apps/labs/api.py:62 | the recursive substring test holds exactly when the needle stands at some position of the text |
| `Text.IContainsIsOccurrenceIgnoringCase` | core/apps/labs/api.py:62 | `icontains` holds exactly when the query occurs at some position of the text up to ASCII case |
| `Text.Split` | core/apps/labs/api.py:84 | `split` yields at least one piece and no piece contains the separator |
| `Text.JoinSplit` | core/apps/labs/api.py:84 | joining the pieces of a split with the separator gives back the original string |
| `Text.JoinEndsWithLast` | core/apps/labs/api.py:84 | the last piece of a join is a suffix of it, preceded by the separator when there are several pieces |
| `Text.LastSegment` | core/apps/labs/api.py:84 | `name.split("/")[-1]` has no `/`, is a suffix of the name, and is the whole name or follows a `/` |
| `LabModels.TopicStrIdentifiesTopic` | core/apps/labs/models.py:5-9 | in a table with unique topic names, two topics have the same string form exactly when they are the same topic |
| `LabModels.CascadeDelete` | core/apps/labs/models.py:14 | after deleting a topic, a task remains exactly when its topic is another one, and remaining tasks are unchanged |
| `LabModels.CascadeKeepsTopicsExist` | core/apps/labs/models.py:14 | the cascade keeps the foreign key intact: every remaining task's topic is still in the topic table |
| `LabModels.LabDatabase.AddTopic` | core/apps/labs/models.py:4-6 | a taken name is refused with both tables unchanged; otherwise exactly one topic is added under a fresh id, its description defaulting to empty; the invariants are kept |
| `LabModels.LabDatabase.DeleteTopic` | core/apps/labs/models.py:14 | the topic and exactly its tasks are removed, everything else stays, and the invariants are kept |
| `LabApi.RequireAuth` | core/apps/labs/api.py:52 | a request fails as unauthenticated exactly when it carries no identity |
| `LabApi.RequireAdmin` | core/apps/labs/api.py:108-109 | the gate lets a request through exactly when the caller is an authenticated administrator; it answers 401 without an identity and 403 for a non-admin |
| `LabApi.FileUrl` | core/apps/labs/api.py:39-40 | the URL is absent exactly when the file field is empty (NULL or an empty name), and is otherwise the media prefix plus the stored name |
| `LabApi.FromOrm` | core/apps/labs/api.py:32-42 | the wire form copies id, title, description, topic and creation time; each file URL is that file's URL, absent exactly when that file is absent |
| `LabApi.GetTopics` | core/apps/labs/api.py:52-54 | an authenticated caller gets the whole topic table; any other is refused as unauthenticated |
| `LabApi.Search` | core/apps/labs/api.py:59-65 | every result is a row of the task table, unchanged |
| `LabApi.SearchWithoutFilters` | core/apps/labs/api.py:59-65 | with `q` absent or empty and `topic_id` absent or 0, the search returns every task |
| `LabApi.SearchFinds` | core/apps/labs/api.py:61-64 | a task is found exactly when the query occurs, ignoring case, in its title or its description (if a query is given) and its topic is the requested one (if a non-zero topic is given) |
| `LabApi.SearchTasks` | core/apps/labs/api.py:58-65 | the search route refuses callers without an identity and otherwise returns exactly the search result (characterised by `SearchFinds`): unchanged table rows, all of them when no filter is given |
| `LabApi.GetTask` | core/apps/labs/api.py:69-72 | an authenticated caller gets the row with that id, or a not-found error exactly when the id is absent |
| `LabApi.Download` | core/apps/labs/api.py:79-87 | a download fails exactly when the file field is empty; otherwise it is an octet-stream attachment named by the part of the stored name after its last `/` |
| `LabApi.DownloadFile` | core/apps/labs/api.py:76-87 | no identity gives 401 and a missing task gives task-not-found. For an existing task the answer is the download of its file: `"File not found"` exactly when the file is empty, otherwise an octet-stream attachment named by the file's last path segment |
| `LabApi.DownloadSolution` | core/apps/labs/api.py:91-102 | as the file download, for the solution file; an empty solution file gives `"Solution file not found"` |
| `LabApi.CreateTask` | core/apps/labs/api.py:106-117 | a non-admin or an unknown topic gets an error and the task table is unchanged; otherwise exactly one task with the given title, description and topic, no files and the current time is added under a fresh id |
| `LabApi.UpdateTask` | core/apps/labs/api.py:121-131 | a non-admin, a missing task or an unknown topic gets an error and nothing is stored; otherwise only that task changes, taking the new title, description and topic and keeping its files and creation time |
| `LabApi.DeleteTask` | core/apps/labs/api.py:135-141 | a non-admin gets an error and nothing changes; an admin always succeeds, exactly that id is removed, and a later fetch of it is not found |
| `UsersApi.ValidateRegistration` | core/apps/users/api.py:35-43 | a mismatched password pair is reported as such even when the username is taken; a taken username is reported only for a matching pair; otherwise registration may go ahead |
| `UsersApi.Accounts.Me` | core/apps/users/api.py:56-58 | `me` fails as unauthenticated exactly when the session is empty, and otherwise returns the session user's id, username and email |
| `UsersApi.Accounts.Login` | core/apps/users/api.py:14-24 | login succeeds exactly when a user stored under exactly that (normalised) username has a password that checks; both failures give the same `"Invalid credentials"` and leave the session; success puts that user in the session and `me` then returns it |
| `UsersApi.Accounts.Logout` | core/apps/users/api.py:27-30 | logout fails as unauthenticated exactly when nobody is logged in; afterwards the session is empty and `me` fails |
| `UsersApi.Accounts.Register` | core/apps/users/api.py:33-51 | a failing guard is reported in guard order; a name that passes but normalises to a stored one fails at the insert; either failure changes nothing. Success, exactly when neither happens, adds one user with the normalised username and the given email whose password checks against the first password, and logs that user in |

## Left out

- The access/refresh token protocol, its rotation and revocation, and the refresh cookie: no code of the modelled applications implements them.
- Request-body validation by the framework (the 422 responses): a handler is only called with a well-typed payload.
- The CSRF token in the login response (`get_token`, core/apps/users/api.py:22): framework-generated.
- The file contents and the response object of the downloads (core/apps/labs/api.py:80-85): I/O. The model keeps the content type and the file name, not the text of the `Content-Disposition` header.
- The value of `created_at` and its `str()` form: the clock is the `now` parameter and the time stays an integer.
- The order of search results: the model type declares no ordering, so results are a table restricted to the matching ids.
- `Text.IContainsIsOccurrenceIgnoringCase`: case is folded for ASCII letters only, as SQLite's `LIKE` does; a database that folds other letters too is not modelled.
- `LabApi.FromOrm`: the URL of a stored file is the media prefix plus its name; the storage backend's URL quoting is not modelled, and neither is which serializer the framework applies to a returned row.
- The body of a 401 on a missing identity: the framework builds it, and the model gives only its status.
- `LabApi.Status`: a missing task or topic (`DoesNotExist`, core/apps/labs/api.py:71, 78, 93, 111, 126, 129) is modelled as a not-found result and numbered 404, as tests/test_core_api.py:141 and 206 expect. The shown handlers do not turn `DoesNotExist` into a 404 themselves, and the framework's default handlers map only `Http404` to 404. As written, the request may therefore end as a server error.
- `UsersApi.Accounts.Login`: password hashing is a deterministic function; salts, hasher upgrades and the `is_active` check of Django's authentication backend are not modelled.
- `UsersApi.Accounts.Register`: the email is stored as given, because Django's email normalisation is not modelled. Username normalisation is the abstract `normalize`, not NFKC itself. Not modelled: the refusal of an empty username inside `create_user`, and the `except ValidationError` branch (core/apps/users/api.py:52-53), which the modelled insert never reaches.
- The column widths of topic names (100 characters, core/apps/labs/models.py:5) and task titles (200, core/apps/labs/models.py:12): the handlers do not check them, and what happens to longer text depends on the database.
- `LabModels.TopicStr` and `LabModels.TaskStr` are the two `__str__` methods (core/apps/labs/models.py:8-9, 19-20) taken as definitions. They return the name and the title, and carry no contract of their own.
- Session details: the model keeps one client's session as the logged-in user id, without session keys, expiry or the session flush on login.
- The admin UI registrations (core/apps/labs/admin.py, core/apps/users/admin.py): no logic.
- Concurrent requests: each handler runs as one atomic step.

# better-themis judge portal: sessions, submission intake and result redaction

A model of the decision logic in `server.js` of the better-themis contest-judge portal. The
filesystem, the HTTP layer and the real-time channel are abstracted into maps and sequences.
The model covers these parts:

- **Auth**: the account check of `POST /login`. It compares the stored password directly,
  or with `md5(password)` when the account's `changed_pw` flag is set. It also holds the
  in-memory `SessionTable` (session token → user name) that login fills and logout empties.
- **Routes**: the branch chain of the HTTP handler. It decides what each request gets from
  its URL, method, `sessionId` cookie and the session table: a page, a redirect to `/login`
  or `/`, a static asset, the login or logout handler, or a 404. `Handle` runs that decision
  against the session table.
- **Intake**: the `submit` event. It checks the payload and derives the problem name (the
  file name up to its first `.`). It then looks that name up, ignoring case, among the
  directories of the tests folder. An accepted submission is stored as
  `<problem>.cpp` in the user's workspace, and the workspace is created on first use.
- **TestInfo**: `getTestInfo`. It lists the sub-tests (directory entries whose lower-cased
  name starts with `test`, in listing order). It also resolves the problem's configuration
  by get-or-create, with fixed defaults. `readConfig` gives an empty configuration for a
  missing file.
- **Redaction**: the step of the broadcast loop that hides, from a non-admin viewer, the
  `details` and `warnings` of every other user's verdicts.

The server keeps the viewer (`admin`, `username`) in process-wide variables that every
request overwrites. The model instead passes the viewer explicitly as a `Viewer(name,
isAdmin)`. Login returns the viewer it establishes.

Where the code behaves in a way one might not expect, the model follows the code:
- A submission field must be a non-empty string. JavaScript truthiness rejects `""`, not
  only a missing field.
- A session counts only if its token is non-empty and maps to a non-empty user name.
- The defaults for `input_file`/`output_file` are `false`.
- The stored file keeps the problem name as submitted (`a.cpp` for a directory named `A`).
- A broadcast tick is not protected against read failures.
- The `submit` handler checks no session. The workspace written is the one named by the
  payload's `username` (server.js:128, 142), so any connected client can submit as any
  user. `Submit` has no session parameter.

`md5` is a parameter of type `string -> string` that is never interpreted. The random
session id is a parameter of `Login`. Directory listings, `accounts.json`, the config files
and `results.json` are values given to the operations.

## Model

| member | source | states |
|---|---|---|
| `Auth.CheckCredentials` | server.js:78-84 | an account is returned iff the user exists and its `pw` equals `md5(password)` when `changed_pw` is set, the raw password otherwise |
| `Auth.HashedAccountRejectsStoredDigest` | server.js:79-84 | presenting the stored digest of a hashed account as the password fails (unless md5 fixes that digest) |
| `Auth.UnknownUserRejected` | server.js:78-84 | a user name missing from the accounts never logs in |
| `Auth.LoginAcceptsAsWritten` | server.js:78-84 | the login check as written: an own account needs a matching password; a user name that is an inherited property of a JavaScript object passes exactly when the password is missing or null |
| `Auth.PrototypeAccountLogsIn` | server.js:78-84 | the body `{"username": "constructor"}` with no password logs in as written, with no such account; the corrected check refuses that user name with any password |
| `Auth.CheckCredentialsRefinesAsWritten` | server.js:78-84 | with a password present, the corrected check and the written one agree; the corrected check only accepts user names of real accounts |
| `Auth.Authenticated` | server.js:41 | the session check used on `/`, `/home` and `GET /login` (lines 45 and 65): the cookie token is non-empty, is an own key of the table and maps to a non-empty user name |
| `Auth.SessionTable.constructor` | server.js:34 | the session table starts empty |
| `Auth.SessionTable.Login` | server.js:78-97 | succeeds iff the credentials match; success adds exactly `token → user` (one more entry when the token is fresh, every other session unchanged) and returns the token and the account's admin flag; failure returns no token and changes nothing |
| `Auth.SessionTable.Logout` | server.js:98-101 | removes only the presented token; no cookie or an empty one changes nothing; afterwards the token does not authenticate |
| `Routes.Route` | server.js:44-111 | `/` and `/home` redirect to `/login` iff the cookie does not authenticate, and otherwise render the home page for the session's user; `GET /login` redirects to `/` iff it authenticates; POST `/login` and `/logout` go to their handlers; the three assets are served; `/login` with another method and every unknown URL give 404; the home page is only ever rendered for an authenticated request |
| `Routes.Handle` | server.js:38-113 | the response follows the route decision: status 302 only to `/` or `/login`; the login reply is always status 200, with the token exactly when the credentials match; only login and logout change the session table, and only as Login and Logout state |
| `Routes.LoginGrantsAccess` | server.js:44-69 | a session stored for a non-empty token and user name renders the home page on `/` and `/home` and redirects `GET /login` to `/` |
| `Routes.EmptyUserNameNeverAuthenticates` | server.js:45 | a session stored for the empty user name (an account keyed `""` can log in, lines 86-94) never authenticates: `/` and `/home` redirect to `/login` and the login page is served |
| `Routes.LoginVisitLogout` | server.js:44-108 | after a successful login the token opens the home page and is sent away from the login page; after a failed one it does neither; after logout the token redirects to `/login`; the table ends without the token |
| `Routes.AuthenticatedAsWritten` | server.js:41 | the session check as written: an own entry must map to a non-empty name, and any inherited property name also passes |
| `Routes.ForgedPrototypeCookie` | server.js:41-45 | the session check as written accepts the cookie `sessionId=toString` on an empty table; the corrected check rejects it |
| `Routes.AuthenticatedRefinesAsWritten` | server.js:45 | the corrected session check implies the written one, agrees with it on every token that is not an inherited property name, and only admits tokens present in the table |
| `Intake.ProblemName` | server.js:138 | the problem name is a prefix of the file name without a dot, followed by a dot or by the end of the file name |
| `Intake.ProblemNameUnique` | server.js:138 | those three facts determine the name: it is the prefix before the first dot, or the whole name when it has no dot |
| `Intake.Catalog` | server.js:133-137 | a name is in the catalog iff some directory of the listing lower-cases to it; no longer than the listing |
| `Intake.KnownProblem` | server.js:139 | a problem is known iff its lower-cased name is in the catalog, i.e. some directory matches it ignoring case |
| `Intake.Text` | server.js:130 | the three notification texts, for invalid data, unknown problem (line 140) and success (line 146) |
| `Intake.TextDistinct` | server.js:130-146 | the three notification texts are pairwise different |
| `Intake.Validate` | server.js:128-140 | rejected with the invalid-data message iff a field is missing or empty; rejected with the not-found message iff the fields are present and no directory matches the problem name ignoring case; otherwise accepted for `(username, name + ".cpp", content)` |
| `Intake.Store` | server.js:141-145 | the user's workspace exists afterwards and holds `content` under the file name, with no other file added; every other user's workspace is unchanged as a whole; every other file of the user keeps its content; no other user is created |
| `Intake.StoreOverwrites` | server.js:143-145 | two submissions in a row for the same user and problem leave only the second content |
| `Intake.UsersDir.Submit` | server.js:127-147 | emits the text of the notification Validate decides; a rejected submission leaves every workspace unchanged; an accepted one performs exactly Store |
| `TestInfo.Subtests` | server.js:153-156 | an entry is in the sub-test list iff it is in the listing and its lower-cased name starts with `test`; no longer than the listing |
| `TestInfo.SubtestsAppend` | server.js:155-156 | the filter distributes over concatenation of listings, so the list keeps listing order |
| `TestInfo.SubtestsOfNone` | server.js:155-156 | a listing with no `test…` entry gives an empty list |
| `TestInfo.SubtestsSkipConfigFile` | server.js:154-156 | a `config.cfg` entry anywhere in the listing does not change the sub-test list |
| `TestInfo.CollectSubtests` | server.js:153-156 | the push loop builds exactly Subtests of the listing |
| `TestInfo.ReadConfig` | server.js:118-121 | a missing config file reads as the empty configuration, an existing one as its contents |
| `TestInfo.WithDefaultConfig` | server.js:157-170 | get-or-create: an existing config is kept unchanged; an absent one becomes the defaults (`checker` null, `point_per_test` 1, `icpc` false, `time_limit` 1000, `memory_limit` 256, `input_file`/`output_file` false, `selected` true); other problems are untouched |
| `TestInfo.WithDefaultConfigIdempotent` | server.js:157-170 | a second get-or-create changes nothing |
| `TestInfo.ReadAfterCreate` | server.js:157-171 | reading after get-or-create yields the existing configuration or the defaults |
| `TestInfo.TestsDir.GetTestInfo` | server.js:150-173 | returns the sub-test list and the resolved configuration; an existing config is returned and the directory is unchanged; an absent one is created with the defaults and returned |
| `TestInfo.GetTestInfoTwice` | server.js:150-173 | two resolutions of the same problem return the same information, although the second listing holds the `config.cfg` the first call wrote; the tests directory ends as after the first |
| `Redaction.HideVerdict` | server.js:207-208 | a hidden verdict has `details` = `[]`, no `warnings`, and every other field unchanged |
| `Redaction.HideVerdictIdempotent` | server.js:207-208 | hiding a hidden verdict changes nothing |
| `Redaction.Redacted` | server.js:203-211 | the set of users and, per user, the set of problems are unchanged |
| `Redaction.AdminSeesAll` | server.js:203 | an admin viewer gets the results unchanged |
| `Redaction.OthersHidden` | server.js:204-208 | for a non-admin viewer, every verdict of every other user has empty `details` and no `warnings` |
| `Redaction.OwnVerdictsKept` | server.js:206 | the viewer's own verdicts are unchanged |
| `Redaction.OtherFieldsKept` | server.js:207-208 | every verdict field other than `details` and `warnings` is unchanged |
| `Redaction.RedactedIdempotent` | server.js:203-211 | redacting twice equals redacting once |
| `Redaction.Redact` | server.js:203-211 | the nested loops over users and problems compute exactly Redacted |

## Left out

- HTTP server setup, ejs rendering, the bytes of static assets, cookie and query-string parsing, and the exact headers. Responses are abstract values; `Status` gives their codes.
- The `admin`/`username` process-wide variables are not modelled. They leak one user's view to another. The viewer is a parameter of redaction and a result of login. The home page is modelled as rendered for the session's user, without the stale `admin` flag.
- `getAccounts` and the JSON parsing of `accounts.json`, `config.json` and `results.json` are not modelled. Neither is the directory enumeration (`readdirSync`, `statSync`), nor the configured or default directory paths. All of these are given as maps and sequences. The listing order is whatever the given sequence says.
- `Auth.SessionTable.Login`: the random session id of `generateSessionId` (`Math.random`) is the `token` parameter. A token already in the table has its entry overwritten, so the "exactly one new entry" fact is stated for a fresh token only.
- `md5` is an uninterpreted parameter.
- `TestInfo.TestsDir.GetTestInfo`: the INI round trip of `ini.stringify`/`ini.parse` is treated as the identity. In the source, the defaults read back would have their numbers as strings (`"1000"`); configs are abstract key/value records here.
- socket.io connection handling, the `io.emit` broadcasts and the one-second `setInterval` timer are left out. So is the composition of a tick (tests and users listing, the `configs` loop at server.js:197-201); only its redaction step is modelled.
- Crashes are not modelled: malformed JSON in the login body, `config.json` or `results.json`, a missing tests or problem directory, and a failing non-recursive `mkdirSync`.
- `Auth.CheckCredentials`: the corrected check takes the password as a string, so a login body without a password (or with a null one) is not an input of it; only `Auth.LoginAcceptsAsWritten` models that body.
- `submit` payload fields that are not strings are not modelled; they are treated as absent. Neither are loose `!=` comparisons between a numeric stored password and a string, nor verdicts that are not objects.
- Path handling of `path.join` is not modelled. A user name or file name with `/` or `..` is a plain map key here.
- `toLowerCase` folds ASCII letters only; Unicode case mapping is not modelled.
- JSON numbers are integers.

## Findings

| source | as written | input that shows it | evidently intended | confidence | as-written member | corrected member |
|---|---|---|---|---|---|---|
| server.js:41-45 | the session check `sessions[cookies.sessionId]` reads a plain object, so an inherited property such as `toString` or `constructor` is found and truthy | cookie `sessionId=toString` with no one logged in is treated as logged in on `/`, `/home` and `GET /login` | only a token issued by a login authenticates | high, not executed | `Routes.ForgedPrototypeCookie` | `Routes.AuthenticatedRefinesAsWritten` |
| server.js:78-84 | the account lookup `accounts[username]` reads a parsed JSON object, so an inherited property such as `constructor` is a truthy account whose `pw` is undefined, and `undefined != password` is false for a missing or null password | login body `{"username": "constructor"}` with no accounts: the handler stores a session for `constructor` and returns its token | only a user name of `accounts.json` with its password logs in | high, not executed | `Auth.PrototypeAccountLogsIn` | `Auth.CheckCredentialsRefinesAsWritten` |

For the session check, the written form is `Routes.AuthenticatedAsWritten`. The corrected
form is `Auth.Authenticated`, which looks only at the table's own entries. Routing, `Handle`
and `Logout` are all stated in terms of the corrected check. For the login, the written form
is `Auth.LoginAcceptsAsWritten`. The corrected form is `Auth.CheckCredentials`, which accepts
only user names of real accounts. `Login` and `Handle` use the corrected form.

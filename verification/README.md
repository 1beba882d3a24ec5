# Maturity-audit portal: session, API client and backend routes in Dafny

This project models the decision logic at the core of a DevSecOps
maturity-audit web application. The application has a React front end and a
FastAPI back end. Six parts are modelled:

- **The authenticated API client** (`ApiClient`). It attaches a bearer token
  to each call and classifies the answer: a 2xx response, a non-2xx
  response, or a thrown error. On a 401 it refreshes the access token and
  retries the call once.
- **The session coordinator** (`AuthProvider`). It keeps the user and the two
  tokens in React state and in three `localStorage` keys. It copies the tokens
  into the enterprise and personal clients, and reacts to the clients'
  refresh callback. Route gating (`ProtectedRoute`) reads this state.
- **The user routes** (`/api/v1/users`). These cover role parsing, defaults
  and the 404 paths.
- **The user store** (`UserModel`). These are the operations on the `users`
  table.
- **The personal-project routes** (`/api/v1/personal-projects`). These
  validate the input and dispatch to the project model.
- **The maturity-analysis controller** (`MaturityController`). It checks the
  upload's name and files the recommendations by time horizon.

Everything is modelled as pure functions over immutable datatypes:

| file | module | contents |
|---|---|---|
| `optional.dfy` | `Optional` | `Option` |
| `strings.dfy` | `Strings` | JavaScript and Python string operations, written out |
| `json.dfy` | `Json` | JSON values; JavaScript and Python truthiness |
| `http.dfy` | `Http` | backend replies |
| `api_client.dfy` | `ApiClient` | the client |
| `api_client_lemmas.dfy` | `ApiClientProperties` | properties of the client |
| `session.dfy` | `Session` | the session coordinator |
| `session_lemmas.dfy` | `SessionProperties` | properties of the session |
| `user_store.dfy` | `UserStore` | the user store |
| `user_store_lemmas.dfy` | `UserStoreProperties` | properties of the user store |
| `user_routes.dfy` | `UserRoutes` | the user routes |
| `user_routes_lemmas.dfy` | `UserRoutesProperties` | properties of the user routes |
| `personal_projects.dfy` | `PersonalProjects` | the personal-project routes |
| `personal_projects_lemmas.dfy` | `PersonalProjectsProperties` | properties of the personal-project routes |
| `maturity.dfy` | `Maturity` | the maturity-analysis controller |
| `maturity_lemmas.dfy` | `MaturityProperties` | properties of the controller |

Foreign parts of the system are parameters of the model.

- **`fetch`** is a finite script of outcomes. Each fetch consumes one outcome,
  which is either a network failure or a response. A response carries its
  status, its content type, its text and what `res.json()` makes of it. When
  the script runs out, the call never settles (`Hung`).
- **The client's `onTokenRefresh` callback** is recorded as events in the
  run's trace. The session applies those events after the call returns
  (`Session.Deliver`). The client and the provider are kept in step at every
  point, so an earlier delivery would not change what the call does next.
- **`JSON.stringify` and `JSON.parse` of the stored user** form a `UserCodec`.
  A reload restores the user only under a faithful codec (`Session.Faithful`).
- **`hash_password`** is a function parameter.
- **The project model** (`ProjectModel`) is replaced by the answer each call
  gives, passed in as a parameter.
- **The language model, `json.loads` and the spreadsheet parser** are oracle
  parameters.

## Behaviours of the code worth knowing

- **The refresh endpoint is called with `retryCount` 0.**
  `refreshAccessToken` goes through `request` with the default `retryCount` 0
  (frontend/src/lib/api.ts:73-77). A 401 from the refresh endpoint therefore
  opens a nested refresh. The number of refresh fetches in one logical call
  has no bound (`ApiClientProperties.RefreshFetchesUnbounded`), and the
  callback receives `""` once per nested level
  (`ApiClientProperties.SessionExpiresAfterRefusals`). What does hold is that
  the original path is fetched at most twice.
- **Before the load effect runs, `ProtectedRoute` sees no token and
  redirects.** The provider starts signed out and reads storage only in its
  mount effect (`Session.Mount`).
- **There is no guard around `JSON.parse` of the stored user.** A stored user
  entry that does not parse makes the load effect throw (`Session.Mount`
  gives `None`).
- **A missing `access_token` is stored as the text `"undefined"`.** When a
  successful login or register response lacks `access_token` or
  `refresh_token`, `localStorage.setItem` stores `"undefined"`. After a
  reload, that text reads back as a truthy token
  (`SessionProperties.ReloadReadsUndefined`).
- **A failed login or register can still change the session.** Both go
  through the same `request`. When the response is a 401 and a refresh token
  is held, the client first tries a refresh, and that refresh can call the
  callback. So a failed `login` or `register` leaves the provider unchanged
  only when no refresh token is held (`Session.Login`, `Session.Register`).
- **A 400 from the maturity analysis comes out as a 500.** The
  `HTTPException(400)` raised for a bad extension, or for a sheet with no
  axes, is caught by the outer handler. The client receives a 500 whose
  detail is "Erreur lors de l'analyse du fichier: 400: …"
  (`Maturity.AnalyzeMaturityExcel`).

## Model

| member | source | states |
|---|---|---|
| Strings.Includes | frontend/src/lib/api.ts:43 | `includes` is true exactly when the needle occurs at some position of the text |
| Strings.DropTrailingSlash | frontend/src/lib/api.ts:13 | removes a final "/" when present, and otherwise returns the text unchanged; the result is always a prefix of the input |
| Strings.Strip | backend/src/routes/personal_projects.py:21-31 | the result is a contiguous slice of the input whose two margins are all white space, and it neither begins nor ends with white space |
| Strings.StripEmptyIffAllSpace | backend/src/routes/personal_projects.py:21 | `not s.strip()` holds exactly when every character of `s` is white space |
| Strings.StripIdempotent | backend/src/routes/personal_projects.py:31 | stripping an already stripped name changes nothing |
| Json.Member | frontend/src/lib/api.ts:59 | `body?.key` is defined exactly when the body is an object holding that key, and then it is that field |
| Json.Get | backend/src/routes/user.py:19 | `payload.get(key, default)` returns the key's value when the key is present, and the default otherwise |
| Http.SignalReply | backend/src/routes/user.py:26 | the reply has the given status and a body whose only key, "signal", holds the given signal |
| ApiClient.NewClient | frontend/src/lib/api.ts:12-15 | the stored base URL, with "/" put back when the input ended in one, is the input; the project id is kept; no tokens and no callback are held |
| ApiClient.SetProjectId | frontend/src/lib/api.ts:17-19 | sets the project id and changes nothing else |
| ApiClient.SetAuthToken | frontend/src/lib/api.ts:21-23 | sets the access token and changes nothing else |
| ApiClient.SetRefreshToken | frontend/src/lib/api.ts:25-27 | sets the refresh token and changes nothing else |
| ApiClient.SetOnTokenRefresh | frontend/src/lib/api.ts:29-31 | registers the callback and changes nothing else |
| ApiClient.WithBearer | frontend/src/lib/api.ts:39-40 | `Authorization: Bearer <t>` is added exactly when a non-empty token is held; every other caller header keeps its value, and no other key is added |
| ApiClient.ThrownText | frontend/src/lib/api.ts:63-64 | the error text is never empty; it is the thrown message when that message is non-empty |
| ApiClient.ErrorMessage | frontend/src/lib/api.ts:58-59 | the error is the body when the body is a string, else its truthy `signal`, else its truthy `message`, else "Erreur inconnue"; it is falsy only for an empty string body |
| ApiClient.Settle | frontend/src/lib/api.ts:41-64 | the result is Ok exactly for a 2xx whose body reads; its data is parsed JSON when the content type declares JSON and raw text otherwise; a non-2xx response gives Err with that status; anything thrown gives Err with no status and a non-empty message |
| ApiClient.Request | frontend/src/lib/api.ts:37-66 | nothing escapes as a throw; the run consumes a prefix of the script; the run changes only the access token, leaving it at the last one installed; the callback is called only if registered; only the call's own URL and the refresh URL are fetched, the call's URL first; without a refresh token, or on a retry, there is exactly one fetch and its settled answer |
| ApiClient.Install | frontend/src/lib/api.ts:79-82 | after a successful refresh call the client holds the new token and the trace ends with its installation followed by the callback's call; nothing else about the client changes |
| ApiClient.RefreshAccessToken | frontend/src/lib/api.ts:68-85 | with no refresh token it fails with "No refresh token" and fetches nothing; only the refresh URL is fetched; on success the client holds the returned token and the trace ends by installing it and then announcing it to the callback |
| ApiClientProperties.RequestSettles | frontend/src/lib/api.ts:46-62 | when no refresh starts, a call is one fetch and its settled answer |
| ApiClientProperties.RequestRefreshFails | frontend/src/lib/api.ts:46-55 | when a refresh that a 401 started fails, the call ends in "Session expirée" with status 401, after the refresh's own events and one callback call with "" |
| ApiClientProperties.RequestRefreshSucceeds | frontend/src/lib/api.ts:46-50 | when a refresh that a 401 started succeeds, the call is retried exactly once with `retryCount` 1, by the refreshed client, and answers what the retry answered |
| ApiClientProperties.RefreshPassesFailure | frontend/src/lib/api.ts:73-84 | a refresh whose request does not succeed answers exactly what that request answered, and leaves the client as that request left it |
| ApiClientProperties.RefreshInstalls | frontend/src/lib/api.ts:79-84 | a refresh whose request succeeds sets the access token to the returned one, then calls the callback with it, and returns the request's result |
| ApiClientProperties.OriginalPathFetchedAtMostTwice | frontend/src/lib/api.ts:46-50 | whatever the transport answers, one logical call fetches its own path at most twice |
| ApiClientProperties.RefreshFailureChain | frontend/src/lib/api.ts:46-77 | when the refresh endpoint answers `k` times 401 and then refuses, the refresh endpoint is fetched `k + 1` times, the callback receives "" `k` times, and the client comes back unchanged |
| ApiClientProperties.SessionExpiresAfterRefusals | frontend/src/lib/api.ts:46-77 | seen from one call: after a 401, `k` nested 401s and a refusal, the call ends in "Session expirée" with status 401; the refresh endpoint is fetched `k + 1` times and the callback receives "" `k + 1` times |
| ApiClientProperties.RefreshFetchesUnbounded | frontend/src/lib/api.ts:73-77 | for every bound `n` there is a transport script under which one call fetches the refresh endpoint more than `n` times |
| ApiClientProperties.AllFetchesCounted | frontend/src/lib/api.ts:41 | a trace of `n` fetches of one URL counts `n` fetches of it |
| ApiClientProperties.GrantedRefresh | frontend/src/lib/api.ts:68-85 | a refresh answered with a token consumes one outcome, fetches the refresh endpoint once, then installs the token and announces it; the client changes only in its access token |
| ApiClientProperties.RefreshThenRetry | frontend/src/lib/api.ts:46-81 | with an expired token and a working refresh, the call fetches its path, then the refresh endpoint, installs and announces the new token, and refetches its path carrying `Bearer <new token>`; the call returns the retry's settled answer and leaves the client holding the new token |
| ApiClientProperties.LastSetUnassigned | frontend/src/lib/api.ts:80 | a trace with no token assignment leaves the access token as it was |
| ApiClientProperties.RefreshFailureKeepsClient | frontend/src/lib/api.ts:79-84 | a failed refresh in which no nested refresh installed a token leaves the client exactly as it was |
| Session.StoredToken | frontend/src/hooks/use-auth.tsx:28-29 | `getItem(key) \|\| undefined` holds a token exactly when the key is stored with non-empty text, and then it is that text |
| Session.Load | frontend/src/hooks/use-auth.tsx:27-34 | the load throws exactly when a non-empty user entry does not parse; otherwise both tokens are what is stored, with missing or empty entries read as undefined; the user is null exactly when the entry is missing, empty or `null`, and otherwise it is what the entry decodes to |
| Session.Push | frontend/src/hooks/use-auth.tsx:37-42 | afterwards both clients hold exactly the provider's access and refresh tokens; state, storage and the clients' other fields are unchanged |
| Session.Mount | frontend/src/hooks/use-auth.tsx:27-42 | mounting succeeds exactly when loading does; the state is the loaded one; both clients are in step with it and have the callback registered; their base URLs and project ids are kept |
| Session.Logout | frontend/src/hooks/use-auth.tsx:44-51 | the state becomes signed out, the three keys are removed from storage and nothing else is, and both clients drop their tokens |
| Session.HandleTokenRefresh | frontend/src/hooks/use-auth.tsx:54-62 | a non-empty token replaces and persists the access token only; an empty or absent token has exactly the effect of logout; both clients end in step |
| Session.Deliver | frontend/src/hooks/use-auth.tsx:54-68 | a trace without callback calls changes nothing; with at least one call, both clients end in step with the state; the clients' other fields never change |
| Session.Call | frontend/src/lib/api.ts:37-66 | a call through either client answers what that client's request answers; a provider in step, with callbacks registered, stays in step and registered |
| Session.SignIn | frontend/src/hooks/use-auth.tsx:73-78 | both tokens and the user are set; both tokens, as `String` of themselves, and the encoded user are written to their keys; both clients end in step |
| Session.Login | frontend/src/hooks/use-auth.tsx:70-80 | `login` resolves to false exactly when the client call failed; with no refresh token held, a failed login changes nothing; a successful one holds the response's tokens and the user `{user_id: 0, email}`, has written both tokens and the stringified user to storage, and leaves both clients in step |
| Session.Register | frontend/src/hooks/use-auth.tsx:82-92 | `register` resolves to false exactly when the client call failed; with no refresh token held, a failed one changes nothing; a successful one holds the response's tokens and takes the user's `user_id` and `email` from the response, has written both tokens and the stringified user to storage, and leaves both clients in step |
| SessionProperties.MountPersists | frontend/src/hooks/use-auth.tsx:27-34 | right after mounting, reloading storage gives back the state |
| SessionProperties.LogoutIdempotent | frontend/src/hooks/use-auth.tsx:44-51 | logging out twice is the same as logging out once |
| SessionProperties.ReloadAfterLogout | frontend/src/hooks/use-auth.tsx:27-51 | after logout, a reload finds no user and no tokens, whatever the codec |
| SessionProperties.HandleTokenRefreshPersists | frontend/src/hooks/use-auth.tsx:54-62 | if storage and state agreed before the callback, they agree after it |
| SessionProperties.DeliverPersists | frontend/src/hooks/use-auth.tsx:54-62 | any sequence of callback calls keeps storage and state in agreement |
| SessionProperties.CallPersists | frontend/src/lib/api.ts:37-85 | any call through either client, whatever the transport does, keeps storage and state in agreement |
| SessionProperties.ReloadAfterSignIn | frontend/src/hooks/use-auth.tsx:73-78 | with a faithful codec and two non-empty tokens, a reload after signing in restores the same user and tokens |
| SessionProperties.ReloadReadsUndefined | frontend/src/hooks/use-auth.tsx:73-75 | a sign-in without an access token stores "undefined": the pages are gated before a reload and shown after one |
| SessionProperties.LoginPersists | frontend/src/hooks/use-auth.tsx:70-80 | from a persisted provider, a failed login stays persisted; a successful login returning two non-empty tokens stays persisted and shows the protected pages |
| SessionProperties.RegisterPersists | frontend/src/hooks/use-auth.tsx:82-92 | from a persisted provider, a failed registration stays persisted; a successful one returning two non-empty tokens stays persisted and shows the protected pages |
| SessionProperties.SessionEndsAfterRefusedRefresh | frontend/src/hooks/use-auth.tsx:54-61 | after any chain of refused refreshes, the caller sees "Session expirée" with status 401, the provider is signed out with all three keys removed, and the protected pages redirect |
| SessionProperties.RefreshReachesBothClients | frontend/src/hooks/use-auth.tsx:37-57 | a successful refresh through one client is adopted and persisted by the provider and reaches both clients; the call answers what its retry got |
| SessionProperties.DeliverSnoc | frontend/src/hooks/use-auth.tsx:54-62 | delivering one more event applies the callback when it is a callback call, and otherwise does nothing |
| UserStore.Where | backend/src/models/UserModel.py:29-31 | the selection is exactly the rows that satisfy the condition |
| UserStore.OneOrNone | backend/src/models/UserModel.py:31 | `scalar_one_or_none` fails exactly on more than one row, gives none exactly on no row, and otherwise gives the only row |
| UserStore.GetUserById | backend/src/models/UserModel.py:26-31 | a row that is found has that id and is in the table; none means no row has that id |
| UserStore.GetUserByEmail | backend/src/models/UserModel.py:33-38 | a row that is found has that email and is in the table; none means no row has that email |
| UserStore.CreateUser | backend/src/models/UserModel.py:18-24 | the insert fails exactly on a NULL in a NOT NULL column, or else on an email already taken; otherwise the record is appended with a fresh id that is new to the table, and the constraints still hold |
| UserStore.ListUsers | backend/src/models/UserModel.py:40-45 | a negative offset, then a negative limit, is an error; otherwise the page is at most `page_size` consecutive rows from offset `(page-1)*page_size`, and it is short only at the end of the table |
| UserStore.Merge | backend/src/models/UserModel.py:55-57 | each field takes the given value when one is given (not `None`) and otherwise keeps its value |
| UserStore.Replace | backend/src/models/UserModel.py:55-58 | only the row with the record's id is replaced |
| UserStore.UpdateUser | backend/src/models/UserModel.py:47-60 | an unknown id gives none and changes nothing; otherwise the found row is replaced by its merge with the patch and every other row is kept; a unique violation means the merged email belongs to another row; the constraints are preserved |
| UserStore.DeleteUser | backend/src/models/UserModel.py:62-71 | returns true exactly when a row has the id; the rows left are exactly the other rows; false changes nothing; the constraints are preserved |
| UserStore.WhereKeepsDistinct | backend/src/models/db_schemes/minirag/schemes/user.py:18-26 | a selection from rows with distinct ids and emails still has distinct ids and emails |
| UserStoreProperties.WhereAtMostOne | backend/src/models/UserModel.py:29-31 | when at most one row meets a condition, the selection has at most one row |
| UserStoreProperties.WhereNone | backend/src/models/UserModel.py:29-31 | when no row meets a condition, the selection is empty |
| UserStoreProperties.IdMatchesAtMostOne | backend/src/models/db_schemes/minirag/schemes/user.py:18 | in a table that keeps its constraints, at most one row has a given id |
| UserStoreProperties.LookupsSucceed | backend/src/models/UserModel.py:26-38 | on a table that keeps its constraints, neither lookup raises |
| UserStoreProperties.RowIsFound | backend/src/models/UserModel.py:26-38 | every row of such a table is found by its id, and by its email |
| UserStoreProperties.CreateThenGet | backend/src/models/UserModel.py:18-31 | a created user is found by its new id |
| UserStoreProperties.MergeIdempotent | backend/src/models/UserModel.py:55-57 | applying the same fields twice is the same as applying them once |
| UserStoreProperties.UpdateIdempotent | backend/src/models/UserModel.py:47-60 | repeating a successful update returns the same record and leaves the table as it was |
| UserStoreProperties.WhereSplits | backend/src/models/UserModel.py:65-69 | the rows with an id and the rows without it together account for the whole table |
| UserStoreProperties.DeleteRemovesOne | backend/src/models/UserModel.py:62-71 | deleting an existing id removes exactly one row; the id is then unknown and a second delete returns false |
| UserStoreProperties.PagesCoverTable | backend/src/models/UserModel.py:40-45 | the first `n` pages of a positive page size, concatenated, are the table's first `n * size` rows, under one fixed scan order |
| UserRoutes.ParseRole | backend/src/routes/user.py:19-26 | a missing role is no role; a parsed role is named by the value (its value, or its upper-cased name); the role is invalid exactly when no role is named |
| UserRoutes.NewProfile | backend/src/routes/user.py:28-34 | the role defaults to USER; a truthy `password` is hashed into `password_hash`; otherwise `password_hash` is taken as given; the email is taken as given |
| UserRoutes.CreateUserEndpoint | backend/src/routes/user.py:15-36 | an invalid role gives 400 `invalid_user_role` and creates nothing; the reply is 201 exactly when the insert succeeds; on 201 exactly one row is appended, built from the payload, and the reply carries its id and email; otherwise the table is unchanged |
| UserRoutes.View | backend/src/routes/user.py:45-51 | the view has exactly the five public keys, and the role is shown by its value |
| UserRoutes.GetUserEndpoint | backend/src/routes/user.py:39-51 | 404 `user_not_found` exactly when no row has the id; a 200 shows a row with that id |
| UserRoutes.ListUsersEndpoint | backend/src/routes/user.py:54-67 | 200 exactly when the page query succeeds, with one view per listed row, in order |
| UserRoutes.UpdatePatch | backend/src/routes/user.py:73-83 | `password_hash` is forwarded as given (the plain `password` is never hashed); the role is forwarded only when one was parsed |
| UserRoutes.UpdateUserEndpoint | backend/src/routes/user.py:70-90 | an invalid role gives 400 before the store is touched; an unknown id gives 404 and no change; otherwise the store's update is answered with `user_update_success` |
| UserRoutes.DeleteUserEndpoint | backend/src/routes/user.py:93-99 | 404 with no change for an unknown id; 204 with no body only when the row existed, after which exactly the other rows remain |
| UserRoutesProperties.UpperValueIsName | backend/src/models/db_schemes/minirag/schemes/user.py:9-12 | upper-casing a role's value gives its name |
| UserRoutesProperties.NamesOneRole | backend/src/routes/user.py:24 | no value names two roles |
| UserRoutesProperties.ParseRoleExact | backend/src/routes/user.py:24 | the parse yields a role exactly when the value names that role |
| UserRoutesProperties.AnyCaseNamesRole | backend/src/routes/user.py:24 | any spelling whose upper case is a role's name parses to that role |
| UserRoutesProperties.MixedCaseAdmin | backend/src/routes/user.py:22-24 | "Admin" parses to ADMIN |
| UserRoutesProperties.LongWordNamesNoRole | backend/src/routes/user.py:23-26 | a word longer than nine characters is an invalid role |
| UserRoutesProperties.NonStringNamesNoRole | backend/src/routes/user.py:23-26 | a non-null value that is not a string is an invalid role |
| UserRoutesProperties.UpdateIgnoresPassword | backend/src/routes/user.py:73-78 | a `password` key in an update payload changes neither the reply nor the table |
| UserRoutesProperties.UpdateUnknownUser | backend/src/routes/user.py:87-89 | on a table that keeps its constraints, updating an unknown id with an acceptable role gives 404 and no change |
| UserRoutesProperties.CreateThenFetch | backend/src/routes/user.py:15-51 | a created user can be fetched back, and shows the role it was created with (USER by default) |
| PersonalProjects.ProjectJson | backend/src/routes/personal_projects.py:42-49 | a project is shown with exactly its six keys |
| PersonalProjects.CreateRoute | backend/src/routes/personal_projects.py:13-59 | 400 exactly when the name is missing, falsy or all white space; the model is called only for a string name with a non-space character, and then with the stripped name, the description as given and `user_id` defaulting to 1; 201 exactly when that call returns; any 500 carries `project_creation_error` |
| PersonalProjects.ListRoute | backend/src/routes/personal_projects.py:61-92 | the model is asked for the given user's projects (default 1); 200 exactly when it answers, with one entry per project, in order; an exception gives 500 `projects_list_error` |
| PersonalProjects.GetRoute | backend/src/routes/personal_projects.py:94-130 | 404 `project_not_found` exactly when no project is found; a found project is returned; an exception gives 500 `project_fetch_error` |
| PersonalProjects.UpdateCall | backend/src/routes/personal_projects.py:138-144 | exactly the name and description keys present in the payload are forwarded, as given |
| PersonalProjects.UpdateRoute | backend/src/routes/personal_projects.py:132-175 | 404 exactly when the model reports no project; an updated project is returned; an exception gives 500 `project_update_error` |
| PersonalProjects.DeleteRoute | backend/src/routes/personal_projects.py:177-210 | the project is looked up first; delete is called exactly when it was found; 404 exactly when it was not; 200 exactly when it was found and deleted; any 500 carries `project_delete_error` |
| PersonalProjectsProperties.CreatedNameIsStripped | backend/src/routes/personal_projects.py:21-31 | the name handed to the model is non-empty and already stripped |
| PersonalProjectsProperties.ExplicitNullOwnerForwarded | backend/src/routes/personal_projects.py:33 | only an absent `user_id` defaults to 1; an explicit null is forwarded |
| PersonalProjectsProperties.UpdateIgnoresOtherKeys | backend/src/routes/personal_projects.py:138-144 | keys other than the two editable ones never reach the update call |
| PersonalProjectsProperties.UpdateAcceptsBlankName | backend/src/routes/personal_projects.py:138-144 | an update's name is not validated: a blank name is forwarded, and the update succeeds when the model returns a project |
| PersonalProjectsProperties.DeleteMissingNeverDeletes | backend/src/routes/personal_projects.py:184-192 | deleting a missing project gives 404 after one lookup, and delete is never called |
| Maturity.TempSuffix | backend/src/controllers/MaturityController.py:33 | the suffix is ".csv" exactly when the lower-cased name ends in ".csv", and ".xlsx" otherwise |
| Maturity.Standard | backend/src/controllers/MaturityController.py:145-153 | the entry describes the opportunity, in `medium_term` with priority "medium" |
| Maturity.DefaultRecommendations | backend/src/controllers/MaturityController.py:157-179 | `short_term` and `long_term` are empty; `medium_term` has one entry per opportunity, in input order, each describing its opportunity with timeline `medium_term`, priority "medium" and the default advice |
| Maturity.Abridged | backend/src/controllers/MaturityController.py:229 | a response of at most 200 characters is kept; a longer one becomes its first 200 characters followed by "..." |
| Maturity.FallbackRec | backend/src/controllers/MaturityController.py:225-230 | the fallback has exactly four keys: the generic analysis action, `medium_term`, "medium", and the abridged response |
| Maturity.ParseLlmResponse | backend/src/controllers/MaturityController.py:216-230 | it raises exactly when there is no text; text that parses to an object yields its "recommendations" (an empty list when that key is absent); any other text yields the single fallback recommendation |
| Maturity.Append | backend/src/controllers/MaturityController.py:131-132 | the entry is appended to the named bucket, and the other buckets are unchanged |
| Maturity.FileRec | backend/src/controllers/MaturityController.py:129-140 | a raise keeps the buckets; a filed rec has "action" and an explicit bucket timeline, is filed in that bucket, and its priority defaults to "medium"; a missing "timeline", or a bucket timeline without "action", raises; earlier entries stay in place |
| Maturity.FileAll | backend/src/controllers/MaturityController.py:129-140 | the loop only appends: earlier entries stay, every new entry describes the opportunity, and every entry sits in the bucket its timeline names |
| Maturity.GrowsInTurn | backend/src/controllers/MaturityController.py:129-140 | appending in two steps is appending |
| Maturity.FileValue | backend/src/controllers/MaturityController.py:126-140 | iterating any parsed value only appends entries about the opportunity, each in the bucket its timeline names |
| Maturity.Rescue | backend/src/controllers/MaturityController.py:142-153 | the `except` branch appends exactly one `medium_term` entry about the opportunity, and nothing else changes |
| Maturity.Advise | backend/src/controllers/MaturityController.py:115-153 | one opportunity's pass keeps every earlier entry, adds only entries about that opportunity, keeps every entry in its timeline's bucket, and falls back to one default entry when the model gives no text |
| Maturity.Gather | backend/src/controllers/MaturityController.py:113-155 | every filed entry sits in the bucket its timeline names and describes one of the opportunities |
| Maturity.GenerateRecommendations | backend/src/controllers/MaturityController.py:98-155 | with no LLM factory the result is exactly the default recommendations; in every case each entry sits in the bucket its timeline names |
| Maturity.Summaries | backend/src/controllers/MaturityController.py:66-75 | one summary per axis, in order, with that axis's name, definition and question count |
| Maturity.AnalyzeMaturityExcel | backend/src/controllers/MaturityController.py:20-96 | every failure is a 500 whose detail starts "Erreur lors de l'analyse du fichier: "; a bad extension is the re-wrapped 400; a report comes exactly from an accepted name whose sheet parses with at least one axis, and then `total_axes` is the axis count, each `questions_count` is its axis's question count, and the recommendations are the generated ones |
| MaturityProperties.UnparsableReplyFilesGenericAction | backend/src/controllers/MaturityController.py:216-230 | model text that does not parse to an object files one `medium_term` entry whose recommendation is the generic analysis action |
| MaturityProperties.MissingTimelineFallsBack | backend/src/controllers/MaturityController.py:130-153 | a recommendation without "timeline" raises, and the opportunity gets the fallback entry |
| MaturityProperties.MissingActionFallsBack | backend/src/controllers/MaturityController.py:137-153 | a recommendation with a bucket timeline but no "action" raises, and the opportunity gets the fallback entry |
| MaturityProperties.UnknownTimelineSkipped | backend/src/controllers/MaturityController.py:130-131 | a timeline that names no bucket files nothing and raises nothing |
| MaturityProperties.EarlierEntriesSurvive | backend/src/controllers/MaturityController.py:129-153 | when a good recommendation is followed by a malformed one, the good one stays filed and the fallback entry is added after it |
| MaturityProperties.AcceptedSuffix | backend/src/controllers/MaturityController.py:25-33 | every accepted name is handed to the parser with ".xlsx" exactly when, lower-cased, it ends in ".xlsx" or ".xls", and with ".csv" otherwise |
| MaturityProperties.ExtensionExamples | backend/src/controllers/MaturityController.py:25-33 | upper-case extensions are accepted: ".CSV" gets the ".csv" suffix and ".XLS" the ".xlsx" suffix; ".TXT" is refused |

## Left out

- I/O, clocks and randomness are left out. This covers `fetch`, `localStorage` and the network, which are parameters. It also covers the temporary file's write and removal, uuid generation and timestamps. A project's `created_at` and `updated_at` are optional texts given by the project model.
- Concurrency is not modelled: two calls that refresh at once, and React's render and effect timing. Effects are applied synchronously, right after the state change that triggers them.
- A client's callback calls are applied after its call returns, not in the middle of it. Without concurrency, this does not change the outcome.
- The `ApiClient` endpoints other than `login` and `register` are not modelled (file upload, projects, conversations, `refreshTokenApi`). Each one is a `request` with a fixed path, and `ApiClient.Request` covers them.
- `ApiClient.IssuedToken` and `Session.Credentials`: a token that is not a JSON string, such as a number, is treated as absent. The source would use `String()` of it.
- `Session.Load`: the `user_id` and `email` of the stored user are whatever the codec yields. Their types are not checked, since the source does not check them either.
- `hash_password` is a parameter of the model. A non-string `password` that is truthy, and that the hash would reject, is not modelled.
- The database driver is not modelled: sessions, commits, and column type checks beyond NOT NULL and UNIQUE. The user table is a sequence of rows in scan order.
- UserStore.ListUsers: the page query has no ORDER BY, so PostgreSQL promises no order common to two page queries. The model reads every page from one fixed scan order.
- UserStoreProperties.PagesCoverTable: the pages tile the table only under that one fixed scan order; with the real database, two page queries can overlap or skip rows.
- UserStore.Replace: an updated row keeps its position in the scan order only in the model. In PostgreSQL an UPDATE writes a new row version, which can move to another place in a scan.
- `UserStore.CreateUser`: a failed insert does not consume an id. PostgreSQL's sequence would advance even on failure. Ids stay fresh in both cases.
- The relationship cascades that run on delete (projects, chunks, assets, conversations) are not modelled.
- The project model's own behaviour is not modelled: its queries, and `total_pages` and `total_projects` of the list query. Its answers are parameters of the routes.
- `ProjectModel.create_instance` is left out. This is the call each route makes before its logic, and it can raise. The 500 it would produce is the same one the modelled exceptions produce.
- The spreadsheet parser `ExcelMaturityParser` is a parameter of the model. Its `parse_records` output (`flat_records`) is left out, because it is passed through unread.
- The language model and `json.loads` are parameters, and the prompt text is left out. `get_provider` raising outside the per-opportunity `try` is not modelled.
- Floating point is left out: `global_score`, `average_score`, `max_score` and every `round(...)`.
- `PersonalProjects.TypeName` names an integral JSON number `int`. Python would say `float` for a number written with a decimal point, which the JSON value here cannot tell apart.
- FastAPI's request validation (422 replies for a malformed path, query or body) happens before the routes and is not modelled.
- `Strings.Upper` and `Strings.Lower` cover only the characters that matter for the comparisons made: the role names, and the `.xlsx`, `.xls` and `.csv` extensions. They do not implement Python's full case mapping.

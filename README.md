# Student assist front end: the logic under the pages

This project models the stateful logic of four pages of the student-assist
React front end, and proves properties of that logic:

- **AdminDashboard** (the admin CRUD console). It loads four collections: users, support
  entries, resources and financial-aid resources. It shows them in tables
  whose cells fall back to `-`. It edits a record through a modal form, and
  dispatches save and delete on an entity-kind tag to the backend's
  endpoints, then refetches the affected collection.
- **StudentDashboard**: three searchable lists, the append-only chat
  log, the pending and settled texts of the AI-ask panel and of the PDF
  summary panel, and logout.
- **Login**: the client-side check, the request, the session record
  kept in `localStorage` under `"user"`, and the role-to-route rule, applied
  both after a login and on mount.
- **Register**: the required-field check, the role that is always
  `"student"`, and how the reply is reported.

Every network call is an input. A `Response` is either `Answered(ok, body)` or
`Threw`, where `Threw` covers a failed `fetch` and a body that is not JSON.
The list loaders issue plain GETs and return the URL they fetch. Every other
request a page sends is returned as a `Request` (method, URL and JSON body);
the PDF upload's multipart body holds only the file, which the upload
methods return beside the request. JavaScript values are
modelled by `Js.Value`, which covers truthiness, `||`, property access that
throws on `null`/`undefined`, `String()` of a value and `String.prototype.trim`.

Each page is a `class Page`. Its fields are the component's `useState`
cells. It also holds an `Env` with four fields:
- `localStorage`, as a map of parsed records;
- the router's last target;
- the alerts shown so far;
- the App's user.

In the Login, Register and StudentDashboard handlers that change state
both before and after their `await`, the handler is split at the `await`
into two methods: the first is the synchronous part, which returns the
request, and the second applies the settled reply; a third method runs both
in sequence. The list loaders and the admin `handleSave` and `handleDelete`,
whose changes all follow the reply, are single methods that take the
replies as parameters. Frames are by field, so each method's `modifies`
clause also states what does not change. The module-name search box has
no setter because the page never calls `setModuleSearch`, so the PDF
loader always reads the name the page started with.

A backend that sometimes answers a list request with a bare object would
want that object wrapped into a one-element list. The code does not do
this, and the model follows the code:
- the admin loaders store a truthy non-array as it is
  (`src/pages/AdminDashboard.jsx:74`);
- the student loaders replace it with `[]`
  (`src/pages/StudentDashboard.jsx:81`).

The wrapping rule appears only as the corrected member of a finding below.

## Model

| member | source | states |
|---|---|---|
| Js.NatText | src/pages/AdminDashboard.jsx:151 | a numeric id is written as a non-empty string of decimal digits, one digit exactly below ten, with no leading zero (only 0 starts with `0`), as `String(n)` writes it |
| Js.NatTextRoundTrip | src/pages/AdminDashboard.jsx:191 | the text an id is interpolated as reads back as the same number |
| Js.BlankIff | src/pages/StudentDashboard.jsx:141 | `!s.trim()` holds exactly when every character of `s` is JavaScript whitespace |
| Login.RouteFor | src/pages/Login.jsx:49 | the target is `/admin` exactly when the role is the string `"admin"`, and `/student` for every other role, a missing one included |
| Login.RestoreRoute | src/pages/Login.jsx:20-25 | on mount there is no redirect exactly when the stored record is falsy; any truthy record goes to the dashboard of its `role` property, so a stored object goes to its role's dashboard and a truthy non-object goes to `/student` |
| Login.LoginOutcome | src/pages/Login.jsx:41-53 | signed in exactly on an OK reply with a non-null body; the record is exactly the token and role; a refusal with any non-null body shows its `detail` or "Login failed"; a throw or a null body shows "Server error" |
| Login.SessionRecord | src/pages/Login.jsx:46 | the stored record is an object with exactly the keys `token` and `role`, holding the given values, and no `email` |
| Login.LoginRequest | src/pages/Login.jsx:32-39 | a POST to the login URL whose body has exactly the keys email and password, holding the typed values |
| Login.Page.constructor | src/pages/Login.jsx:15-17 | the form starts with empty email and password and `loading` false |
| Login.RestoreAgreesWithLogin | src/pages/Login.jsx:20-49 | after a login, the mount-time rule on the stored record picks the same dashboard as the login did |
| Login.Page.OnMount | src/pages/Login.jsx:20-25 | navigates to the restored route when there is one and leaves the route alone otherwise |
| Login.Page.Submit | src/pages/Login.jsx:28-29 | an empty email or password alerts, sends nothing and leaves `loading`; otherwise it sets `loading` and sends exactly the two credentials |
| Login.Page.Complete | src/pages/Login.jsx:31-56 | on sign-in the stored record, the App's user and the route are the outcome's record and route, with no alert; on refusal nothing but one alert changes; `loading` ends false |
| Login.Page.HandleLogin | src/pages/Login.jsx:27-57 | the whole handler: validation without side effects beyond the alert, otherwise the request and the outcome above, and `loading` false at the end |
| Register.RegisterRequest | src/pages/Register.jsx:28-35 | a POST to the register URL whose body has exactly the keys name, email, password and role, holding the typed name, email and password and the given role |
| Register.RegisterOutcome | src/pages/Register.jsx:37-47 | registered exactly on an OK reply; a refusal with any non-null body shows its `detail` or "Registration failed"; a throw or a refusal with a null body shows "Server error" |
| Register.Page.constructor | src/pages/Register.jsx:16-20 | the form starts empty with role `"student"`, the one value the select offers |
| Register.Page.SelectRole | src/pages/Register.jsx:161 | any choice from the select leaves the role `"student"` |
| Register.Page.Submit | src/pages/Register.jsx:23-26 | nothing is sent exactly when name, email or password is empty, and then the one alert is shown; otherwise `loading` is set and the request carries role `"student"` |
| Register.Page.Complete | src/pages/Register.jsx:37-50 | success alerts the success text and goes to `/login`; refusal alerts its message and stays; `loading` ends false |
| Register.Page.HandleRegister | src/pages/Register.jsx:22-51 | the whole handler, as the two parts above composed |
| StudentDashboard.SearchUrl | src/pages/StudentDashboard.jsx:77-78 | the URL extends the base, by exactly `?q=` and the encoded term, and only when the term is non-empty |
| StudentDashboard.QueryPresentIff | src/pages/StudentDashboard.jsx:104-105 | the resource and financial-aid URLs hold a query exactly when a search term was given, whatever the encoder does |
| StudentDashboard.PdfsUrlFor | src/pages/StudentDashboard.jsx:90-92 | `/module/` and the unencoded module name are appended only for a non-empty name |
| StudentDashboard.Page.constructor | src/pages/StudentDashboard.jsx:42-58 | every search, input and panel text starts empty, every list starts `[]`, and no file is chosen |
| StudentDashboard.ListAfter | src/pages/StudentDashboard.jsx:79-85 | a thrown load keeps the list; a reply replaces it by the body when that is an array and by `[]` otherwise |
| StudentDashboard.CoerceList | src/pages/StudentDashboard.jsx:81 | an array is kept as it is and anything else becomes the empty list |
| StudentDashboard.ListAfterIdempotent | src/pages/StudentDashboard.jsx:79-85 | a repeated load with the same reply changes nothing more; a failed load leaves the list unchanged |
| StudentDashboard.ChatEmail | src/pages/StudentDashboard.jsx:142 | the email sent is the stored record's truthy `email`; for a record with a missing or falsy `email`, or no record at all, it is the fallback address |
| StudentDashboard.ChatEmailAfterLogin | src/pages/StudentDashboard.jsx:142 | the record a login stores has no email, so the chat sends the fallback address |
| StudentDashboard.ChatRequest | src/pages/StudentDashboard.jsx:148-152 | a POST to the chat URL whose body has exactly the keys email and question, holding the given email and the typed text |
| StudentDashboard.ChatAfter | src/pages/StudentDashboard.jsx:140-161 | one send keeps the log as a prefix; a blank input adds nothing; otherwise exactly the student's text and then the bot's message are appended |
| StudentDashboard.BotMessage | src/pages/StudentDashboard.jsx:153-159 | the bot's message is the body's `answer` whatever the status, for any non-null body; the apology when the request or the parse threw or the body is `null` |
| StudentDashboard.StudentTextsOfTurn | src/pages/StudentDashboard.jsx:143-155 | one send adds the typed text to the student's messages exactly when it is not blank |
| StudentDashboard.ConverseGrows | src/pages/StudentDashboard.jsx:140-161 | over any session the log keeps its old prefix and grows by two messages per non-blank input |
| StudentDashboard.ConverseStudentTexts | src/pages/StudentDashboard.jsx:140-161 | over any session the student's messages are the earlier ones followed by the non-blank inputs, in order |
| StudentDashboard.ConverseAppendsEveryQuestion | src/pages/StudentDashboard.jsx:140-161 | over any session the log keeps its old prefix, grows by two per non-blank input, and its student messages are exactly the non-blank inputs, in order |
| StudentDashboard.AskAnswer | src/pages/StudentDashboard.jsx:172-177 | the settled AI text is never falsy: for any non-null body its truthy `answer`, else the placeholder; the error text when the call threw or the body is `null` |
| StudentDashboard.SummaryText | src/pages/StudentDashboard.jsx:197-202 | the settled summary is never falsy: for any non-null body its truthy `summary`, else the placeholder; the error text when the call threw or the body is `null` |
| StudentDashboard.LogoutEndsSession | src/pages/StudentDashboard.jsx:64-68 | after logout the login page's mount check finds no session |
| StudentDashboard.Page.FetchResources | src/pages/StudentDashboard.jsx:75-86 | fetches the search URL; the list becomes the coerced reply, or stays and one alert is shown when the call threw |
| StudentDashboard.Page.FetchPdfs | src/pages/StudentDashboard.jsx:88-100 | fetches the module URL; the list becomes the coerced reply, or stays with the PDF alert |
| StudentDashboard.Page.SearchResources | src/pages/StudentDashboard.jsx:217-226 | the Search button loads the resources for the term typed in the search box |
| StudentDashboard.Page.SearchFinancialAid | src/pages/StudentDashboard.jsx:279-288 | the Search button loads the financial-aid resources for the term typed in its search box |
| StudentDashboard.Page.FetchFinancialAidResources | src/pages/StudentDashboard.jsx:102-113 | fetches the search URL; the list becomes the coerced reply, or stays with the financial-aid alert |
| StudentDashboard.Page.OnMount | src/pages/StudentDashboard.jsx:115-119 | the mount fetches the unfiltered resources, the PDFs for the current module name and the unfiltered financial aid, in that order; the three lists each take their own load, and the alerts of the loads that threw appear in call order |
| StudentDashboard.Page.StartChat | src/pages/StudentDashboard.jsx:141-152 | a blank input changes nothing; otherwise one student message with the original text is logged, the box is cleared, and that text is sent |
| StudentDashboard.Page.FinishChat | src/pages/StudentDashboard.jsx:153-159 | exactly one bot message is appended |
| StudentDashboard.Page.SendChatMessage | src/pages/StudentDashboard.jsx:140-161 | the log after a send is the chat step of the old log, and something is sent exactly when the input was not blank |
| StudentDashboard.Page.StartAsk | src/pages/StudentDashboard.jsx:164-171 | a blank prompt sends nothing and leaves the panel; otherwise the panel shows "Thinking..." and the prompt is sent |
| StudentDashboard.Page.FinishAsk | src/pages/StudentDashboard.jsx:172-177 | the panel shows the settled AI text |
| StudentDashboard.Page.HandleAiAsk | src/pages/StudentDashboard.jsx:163-178 | a request goes out exactly for a non-blank prompt, and it is a POST of `{prompt}` to the AI URL; the panel ends on the settled AI text |
| StudentDashboard.Page.StartUpload | src/pages/StudentDashboard.jsx:181-196 | with no file nothing changes and nothing is sent; otherwise the first file is kept, the panel shows the pending text, and that file is posted to the summary URL |
| StudentDashboard.Page.FinishUpload | src/pages/StudentDashboard.jsx:197-202 | the panel shows the settled summary |
| StudentDashboard.Page.HandlePdfUpload | src/pages/StudentDashboard.jsx:180-203 | the whole upload: no file is a no-op that sends nothing; otherwise the first file is kept and posted to the summary URL, and the panel ends on the settled summary |
| StudentDashboard.Page.Logout | src/pages/StudentDashboard.jsx:64-68 | the session key is removed and nothing else in the store changes; the App's user is cleared and the route is `/login` |
| AdminDashboard.DetailUrlInjective | src/pages/AdminDashboard.jsx:190-197 | two detail URLs are equal only for the same kind and the same id |
| AdminDashboard.TableTag | src/pages/AdminDashboard.jsx:393-415 | the tag each table is rendered with is recognised by the delete chain only for support and financial aid |
| AdminDashboard.TagsAndSectionKeys | src/pages/AdminDashboard.jsx:393-415 | the table tag equals the sidebar key exactly for support and financial aid; for users and resources the sidebar key is the tag plus `s` |
| AdminDashboard.KindOfTag | src/pages/AdminDashboard.jsx:173-176 | the save refetch chain recognises exactly the four table tags, one kind each |
| AdminDashboard.KindOfDeleteTag | src/pages/AdminDashboard.jsx:201-204 | the delete refetch chain recognises exactly the four sidebar keys, one kind each |
| AdminDashboard.LoadStep | src/pages/AdminDashboard.jsx:70-116 | a thrown load keeps the list; a reply stores the body when it is truthy and `[]` otherwise; a list that was truthy stays truthy |
| AdminDashboard.StoredList | src/pages/AdminDashboard.jsx:74 | a truthy response is stored as it is, an array or not, and a falsy one as `[]`; the stored list is never falsy |
| AdminDashboard.Cell | src/pages/AdminDashboard.jsx:243 | a cell shows the truthy field or `-`, never a falsy value, and throws exactly for a `null` or `undefined` row; any other row that is not an object shows `-`, since property lookups do not reach the prototype chain (see "## Left out") |
| AdminDashboard.Table | src/pages/AdminDashboard.jsx:240-244 | the table renders exactly when the list is an array with no `null`/`undefined` row, one row per item and one cell per column |
| AdminDashboard.Opened | src/pages/AdminDashboard.jsx:126-131 | the modal opens on the kind and the item, with the form equal to the item or empty |
| AdminDashboard.Closed | src/pages/AdminDashboard.jsx:133-137 | closing clears the item and the form whatever the prior state, and keeps the kind |
| AdminDashboard.Changed | src/pages/AdminDashboard.jsx:139-141 | one form field takes the new value and every other field is unchanged |
| AdminDashboard.ChangedCoherent | src/pages/AdminDashboard.jsx:139-141 | a change in an open modal keeps the invariant that a closed modal holds no item and no edits |
| AdminDashboard.CloseForgetsEdits | src/pages/AdminDashboard.jsx:126-141 | after open, change and close, the modal is the same as after opening an empty form and closing it |
| AdminDashboard.SaveRequest | src/pages/AdminDashboard.jsx:146-170 | PUT exactly when an item is being edited, the form is the body, and the URL is `""` exactly for an unknown kind |
| AdminDashboard.SaveTargetsEndpoint | src/pages/AdminDashboard.jsx:147-164 | create goes to the kind's collection URL; edit goes to the record's detail URL, except that the user URL has an extra slash |
| AdminDashboard.UserEditUrlHasDoubleSlash | src/pages/AdminDashboard.jsx:151 | the user edit URL differs from the user's detail URL |
| AdminDashboard.SaveRequestFixed | src/pages/AdminDashboard.jsx:149-164 | every known kind goes to its collection URL on create and to the record's detail URL on edit |
| AdminDashboard.DeleteRequest | src/pages/AdminDashboard.jsx:189-199 | a DELETE to the detail URL of a recognised tag, or to `""` |
| AdminDashboard.DeleteMissesUserAndResourceRows | src/pages/AdminDashboard.jsx:190-204 | the tags the users and resources tables pass give URL `""` and no refetch; the other two tables reach their detail URLs |
| AdminDashboard.DeleteRequestFixed | src/pages/AdminDashboard.jsx:189-197 | dispatching on the table tags, every table's delete reaches the record's detail URL |
| AdminDashboard.FixedEditAndDeleteAgree | src/pages/AdminDashboard.jsx:149-197 | with both corrections, editing a row and deleting it address the same detail URL, for every table |
| AdminDashboard.AfterSave | src/pages/AdminDashboard.jsx:166-178 | a thrown save leaves the modal as it was; any reply, whatever its status, closes it and clears the item and the form; the kind stays and coherence is kept |
| AdminDashboard.RefusedSaveLosesForm | src/pages/AdminDashboard.jsx:166-178 | a refused save closes the modal and empties the form, so any edits in it are lost |
| AdminDashboard.AfterSaveFixed | src/pages/AdminDashboard.jsx:166-178 | only an OK reply closes the modal; any other outcome leaves it and its form unchanged |
| AdminDashboard.BareObjectBreaksTable | src/pages/AdminDashboard.jsx:74 | a loaded bare object is stored as it is, and the table then throws |
| AdminDashboard.StoredListFixed | src/pages/AdminDashboard.jsx:74 | the stored list is always an array: an array as it is, a truthy non-array wrapped into one element, a falsy value as `[]` |
| AdminDashboard.FixedListAlwaysRenders | src/pages/AdminDashboard.jsx:240-244 | with the correction, every response that is not an array holding `null`/`undefined` renders |
| AdminDashboard.Page.constructor | src/pages/AdminDashboard.jsx:50-59 | the four lists start empty and the modal starts closed with no kind, no item and an empty form |
| AdminDashboard.Page.FetchList | src/pages/AdminDashboard.jsx:70-116 | fetches the kind's collection URL; only that kind's list changes, to the stored response, or it stays and that kind's alert is shown |
| AdminDashboard.Page.OnMount | src/pages/AdminDashboard.jsx:118-123 | each list takes its own load, and the alerts of the loads that threw appear in call order |
| AdminDashboard.Page.OpenModal | src/pages/AdminDashboard.jsx:126-131 | the modal state becomes the opened state for the kind and item |
| AdminDashboard.Page.CloseModal | src/pages/AdminDashboard.jsx:133-137 | the modal state becomes the closed state of the old one |
| AdminDashboard.Page.HandleChange | src/pages/AdminDashboard.jsx:139-141 | the modal state takes the one-field change and stays coherent |
| AdminDashboard.Page.HandleSave | src/pages/AdminDashboard.jsx:144-183 | the request sent is the save request; a throw alerts, refetches nothing and keeps the modal; any reply refetches exactly the kind's list and closes the modal |
| AdminDashboard.Page.HandleDelete | src/pages/AdminDashboard.jsx:186-209 | a declined confirmation sends nothing and changes nothing; otherwise the delete request is sent, a throw alerts, and a reply refetches only the list of a recognised tag |
| AdminDashboard.Page.Logout | src/pages/AdminDashboard.jsx:64-67 | the session key is removed, nothing else in the store changes, and the route is `/` |

## Left out

- `src/pages/Home.jsx` is not part of this model: it is a static landing page.
- `downloadPdf` (src/pages/StudentDashboard.jsx:121-138) is left out: it works on blobs, object URLs and DOM elements.
- Layout is left out. This covers the JSX, the drawer and section switching (`mobileOpen`, `selected`), chat scrolling, `renderModalFields` and the modal title: none of them changes the modelled state.
- AdminDashboard.Page.OpenModal: the item is a record. An Edit button on a table row that is not an object is not modelled.
- The React child check is left out: a cell whose field is an object makes React throw. AdminDashboard.Cell, AdminDashboard.Table and AdminDashboard.FixedListAlwaysRenders do not model this, so a table they call renderable can still throw on such a row.
- `encodeURIComponent` is a parameter `encode` of the URL builders, because its percent-encoding tables are out of scope.
- Numbers are integers. Floating point and the text of non-integral numbers are not modelled, and property lookups never reach the prototype chain (so a string row's `link` column, a method of every string, reads as `undefined`).
- `localStorage` holds parsed values. The round trip through `JSON.stringify` and `JSON.parse`, which drops `undefined` properties, is not modelled.
- Requests are sequential. Non-awaited refetches are applied right after the request that triggers them, in call order. Interleaving and races between handlers are not modelled.
- `console.error` is left out, because it has no effect on the page state.
- The StudentDashboard page reads the session once per render (src/pages/StudentDashboard.jsx:60). The model reads `localStorage` when the chat message is sent. The two can only differ if the store changes between a render and a send.
- The page classes keep the code as written. `AdminDashboard.Page.HandleSave` and `AdminDashboard.Page.HandleDelete` reproduce the behaviour described under Findings. The corrected behaviour is stated by the `...Fixed` members.

## Findings

| source | as written | input that shows it | evidently intended | confidence | as-written member | corrected member |
|---|---|---|---|---|---|---|
| src/pages/AdminDashboard.jsx:190-204 | `handleDelete` recognises the sidebar keys `"users"` and `"resources"`, but the users and resources tables pass `"user"` and `"resource"` (lines 394 and 407) | Delete on a row of the Users table with id 7: the DELETE goes to `""`, the page's own URL, and nothing is refetched | DELETE to `/auth/7` on the backend, then refetch the users | not executed | AdminDashboard.DeleteMissesUserAndResourceRows | AdminDashboard.DeleteRequestFixed |
| src/pages/AdminDashboard.jsx:151 | the user edit URL has two slashes before `auth` | Saving an edit of the user with id 7 sends PUT to `https://student-assist.onrender.com//auth/7` | PUT to `/auth/7`, as the user delete URL does | not executed; a server that collapses slashes would hide it | AdminDashboard.UserEditUrlHasDoubleSlash | AdminDashboard.SaveRequestFixed |
| src/pages/AdminDashboard.jsx:166-178 | `handleSave` never reads the status, so a refused save closes the modal and loses the edits | A PUT answered with status 400 | report the failure and keep the modal open with its fields | not executed | AdminDashboard.RefusedSaveLosesForm | AdminDashboard.AfterSaveFixed |
| src/pages/AdminDashboard.jsx:74 | the loaders store any truthy response, so a bare object is stored and the table's `data.map` (line 240) throws | A list request answered with the object `{"detail": "..."}` | store a list, with a bare object wrapped into one element | not executed | AdminDashboard.BareObjectBreaksTable | AdminDashboard.StoredListFixed |

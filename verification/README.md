# InternMatch portal core, modelled in Dafny

The InternMatch prototype (`Prototype_skillo_ai.jsx`) is a React front end for a
placement portal used by students, companies, faculty and admins. Almost all of
it is presentation. This project models the few pieces of it that are logic:

- **`callGemini`**, the request client of the chat widget (module `Gemini`). It
  builds one JSON body and posts it up to three times. Between failed attempts it
  waits 1000 ms, then 2000 ms. An ok response's text is returned unchanged, or a
  fixed apology when that text is missing or empty. After three failures it
  returns a fixed "trouble connecting" text. The network is a sequence of
  per-attempt outcomes (`Attempt`), and the waits are recorded, not slept.
- **The chat session of `AIAssistant`** (module `Chat`): the transcript, the text
  box and the `isTyping` flag. `handleSend` is modelled two ways. It is split at
  its `await` into `BeginSend` and `FinishSend`, with typing and pressing send
  possible in between. It is also one atomic step, `HandleSend`, that runs
  `CallGemini`. The model proves the session invariant. The transcript starts
  with the bot's greeting and alternates bot/user. No user message is blank.
  `isTyping` is raised exactly while a reply is awaited.
- **Navigation in `App`** (module `Navigation`): the landing path `handleLogin`
  picks per role, `renderView` as a total function from (user, path) to a view,
  the per-role route tables and their defaults, and the sidebar entries.
- **The App state and its handlers** (module `Portal`): the prepend-style
  `addOpportunity` and `addPost`, sign-in, sign-out and `navigate`. It also covers
  the opportunity the detail page shows, the faculty form's comma-separated
  skills parsing, and the community post guard.
- **`MatchScoreRing`'s colour thresholds** (module `Score`).
- Supporting modules: `Text` (JavaScript's `trim` and one-character `split`,
  with their round trips), `Accounts` (the role and user record), and
  `Wrappers` (`Option`).

Modelling choices:

- Roles are a closed datatype (`Student | Company | Faculty | Admin`) plus
  `Other(name)` for any other string; a subset type keeps the four names out
  of `Other`, so each role string has exactly one role value. A user record with no role behaves like
  `Other("")`.
- `undefined`/`null` values are `Option.None` (see "## Left out" for the one place where the two print differently).
- Wall-clock ids (`Date.now()`) are parameters, or are left out for chat messages.
- What `trim` removes follows ECMAScript's WhiteSpace and LineTerminator sets.

Behaviour of the code worth noting:

- The transcript starts with the bot's greeting and holds 1 + 2k messages
  after k accepted sends.
- A blank input, or a send while a reply is awaited, is silently ignored. No
  error is raised.
- The attempt count (3), the first wait (1000 ms) and the factor (2) are
  constants.
- An ok response without text is not retried. It yields the apology at once.

## Model

| member | source | states |
|---|---|---|
| Gemini.BuildPayload | Prototype_skillo_ai.jsx:16-19 | the body has one content with the prompt as its single part; `systemInstruction` is omitted exactly when the instruction is empty, otherwise it has one part |
| Gemini.PayloadRoundTrip | Prototype_skillo_ai.jsx:16-19 | prompt and instruction can both be read back from the body, the omitted field reading as the empty instruction |
| Gemini.PayloadInjective | Prototype_skillo_ai.jsx:16-19 | two bodies are equal exactly when their prompts and instructions are equal |
| Gemini.TextOrApology | Prototype_skillo_ai.jsx:35 | a present non-empty text passes through unchanged; a missing or empty one becomes "I'm sorry, I couldn't generate a response."; the result is never empty |
| Gemini.Backoff | Prototype_skillo_ai.jsx:22 | the k-th wait is 1000 * 2^k ms, one wait per failed non-final attempt |
| Gemini.RetryFrom | Prototype_skillo_ai.jsx:24-40 | from loop index i, with the waits so far matching the backoff schedule and every earlier attempt failed, the call ends with an outcome characterised by first success or third failure |
| Gemini.CallGemini | Prototype_skillo_ai.jsx:13-42 | at most three attempts; all but the last failed; the last is the first ok one (its text or the apology is returned) or the third failure (the trouble text is returned); waits follow 1000, 2000; the body is the one built from prompt and instruction; the text is never empty |
| Gemini.CallGeminiLoop | Prototype_skillo_ai.jsx:21-41 | the source's `for` loop, with `delay` doubled after each wait and the final failure returning instead of waiting, returns exactly what the functional model returns |
| Gemini.FirstAttemptSucceeds | Prototype_skillo_ai.jsx:26-35 | success on the first attempt: one attempt, no wait, the text unchanged |
| Gemini.EmptyAnswerNotRetried | Prototype_skillo_ai.jsx:32-35 | the first ok response that lacks text ends the call with the apology and no further attempt |
| Gemini.AllAttemptsFail | Prototype_skillo_ai.jsx:36-40 | three failures: three attempts, waits of exactly 1000 and 2000 ms, the trouble text; no error escapes |
| Gemini.ThirdAttemptSucceeds | Prototype_skillo_ai.jsx:24-40 | two failures then text: three attempts, waits 1000 and 2000 ms (ratio 2), the text returned |
| Gemini.ReplyTextOrigin | Prototype_skillo_ai.jsx:35-37 | the caller only ever receives the apology, the trouble text, or the text of one of the first three attempts |
| Gemini.AttemptBudget | Prototype_skillo_ai.jsx:21-39 | never more than three attempts, two waits and 3000 ms of waiting in total |
| Accounts.ParseRole | Prototype_skillo_ai.jsx:1533 | the four role names map to their roles and every other string to `Other`; the role's name is the string read |
| Accounts.RoleOfName | Prototype_skillo_ai.jsx:1533 | a role whose string is one of the four names is that role, so `u.role === 'admin'` and the model's `Admin` agree |
| Accounts.ParseRoleName | Prototype_skillo_ai.jsx:1533 | every role survives being written out as its name and read back |
| Accounts.RoleNameInjective | Prototype_skillo_ai.jsx:1563-1598 | roles with the same name are equal, so comparing role strings tells roles apart |
| Text.Trim | Prototype_skillo_ai.jsx:330 | `trim` leaves a trimmed string no longer than its input, and leaves nothing exactly when the input is blank |
| Text.TrimBounds | Prototype_skillo_ai.jsx:330 | the trimmed string is an infix of the input and what lies on either side of it is blank |
| Text.TrimAddsNothing | Prototype_skillo_ai.jsx:1005 | trimming introduces no character, so a comma-free piece stays comma-free |
| Text.TrimIdempotent | Prototype_skillo_ai.jsx:1005 | trimming twice is trimming once |
| Text.Split | Prototype_skillo_ai.jsx:1005 | `split(',')` always yields at least one piece, and no piece contains the separator (`JoinSplit` and `SplitJoin` pin the pieces down against `Join`) |
| Text.SplitCount | Prototype_skillo_ai.jsx:1005 | `split(',')` yields one more piece than there are commas |
| Text.JoinSplit | Prototype_skillo_ai.jsx:1005 | joining the pieces of a split with the separator gives back the string |
| Text.SplitJoin | Prototype_skillo_ai.jsx:1005 | splitting a join of separator-free pieces gives back the pieces |
| Chat.DisplayName | Prototype_skillo_ai.jsx:320 | the greeting uses the user's name when present and non-empty, and "there" in every other case; never empty |
| Chat.Greeting | Prototype_skillo_ai.jsx:320 | the opening message starts "Hi " followed by the display name, and ends with the sparkles emoji |
| Chat.RoleLabel | Prototype_skillo_ai.jsx:1704 | the role the widget is given is the user's role name, or "guest" when there is no user or the name is empty; never empty |
| Chat.NameField | Prototype_skillo_ai.jsx:339 | `${user?.name}` prints the name when present, and "undefined" when there is no user or no name (even an empty name is printed as is) |
| Chat.Instruction | Prototype_skillo_ai.jsx:337-345 | the instruction sent with every question is never empty |
| Chat.InstructionAlwaysSent | Prototype_skillo_ai.jsx:337-345 | every body the chat posts carries the instruction field, holding exactly the role's instruction |
| Chat.Open | Prototype_skillo_ai.jsx:320-322 | a freshly mounted widget holds exactly one message, the bot's `Greeting` for the user, an empty text box, nothing in flight, and satisfies the session invariant |
| Chat.Type | Prototype_skillo_ai.jsx:376 | typing changes the text box only, also while a reply is awaited |
| Chat.BeginSend | Prototype_skillo_ai.jsx:330-334 | a send with a blank input or while a reply is awaited changes nothing; an accepted one clears the input, appends the untrimmed input as the user's message, keeps the earlier messages, raises `isTyping`, and preserves the invariant |
| Chat.FinishSend | Prototype_skillo_ai.jsx:346-351 | the reply is appended as one bot message after the earlier ones, `isTyping` is lowered whatever the outcome, the text box keeps what was typed meanwhile, and the invariant is preserved |
| Chat.HandleSend | Prototype_skillo_ai.jsx:329-352 | rejected sends change nothing; an accepted send leaves an empty input, `isTyping` lowered, and the transcript grown by exactly the user's message then the bot's reply from `callGemini` with the role's instruction; the invariant is preserved |
| Chat.AppendKeepsShape | Prototype_skillo_ai.jsx:333-346 | appending the message whose turn it is (a non-blank user message after the bot, a bot message after the user) keeps the transcript alternating |
| Chat.BlankInputRejected | Prototype_skillo_ai.jsx:330 | a send is accepted exactly when the input is not blank and no reply is awaited |
| Chat.BusySendIgnored | Prototype_skillo_ai.jsx:330 | while a reply is awaited, pressing send changes nothing |
| Chat.Step | Prototype_skillo_ai.jsx:329-352 | typing, pressing send and a reply arriving each preserve the session invariant |
| Chat.RunPreservesValid | Prototype_skillo_ai.jsx:329-352 | every session reachable by any sequence of those events satisfies the invariant |
| Chat.DoubleSendAppendsOnce | Prototype_skillo_ai.jsx:330-351 | pressing send twice before the reply arrives appends one user message and one reply, both from the first press; the text typed in between stays in the box |
| Chat.ConverseLength | Prototype_skillo_ai.jsx:329-352 | from an idle session, each round with a non-blank text adds exactly two messages and a blank one none; the session ends idle and valid |
| Chat.TranscriptLengthFromOpen | Prototype_skillo_ai.jsx:320-352 | after k accepted questions the transcript holds 1 + 2k messages |
| Navigation.LoginPath | Prototype_skillo_ai.jsx:1533 | role string "admin" goes to /admin/dashboard, "company" to /company/overview, "faculty" to /faculty/dashboard (each exactly for that string), and every other role to /student/dashboard; never to "/" or "/login" |
| Navigation.HomeView | Prototype_skillo_ai.jsx:1562-1598 | the landing page is the fallback exactly for a role without an area; admin's is its dashboard; for the other three roles it is the view of the first `case`, whose path is the role's login path |
| Navigation.RoutesShape | Prototype_skillo_ai.jsx:1562-1596 | only the student, company and faculty `switch`es list paths; none lists "/" or "/login" or shows the landing page, and none lists a path twice |
| Navigation.RenderView | Prototype_skillo_ai.jsx:1559-1599 | "/" shows the landing page and "/login" the login page for everyone; otherwise admin always sees the admin dashboard, and no user or an unknown role sees the landing page |
| Navigation.ListedPathShowsItsView | Prototype_skillo_ai.jsx:1562-1596 | each path a role's `switch` lists shows the view of that `case` |
| Navigation.UnlistedPathShowsHome | Prototype_skillo_ai.jsx:1562-1596 | a path the role's `switch` does not list shows the role's default view |
| Navigation.PublicPathsIgnoreUser | Prototype_skillo_ai.jsx:1560-1561 | "/" and "/login" render the same view whoever is signed in |
| Navigation.LoginLandsHome | Prototype_skillo_ai.jsx:1530-1534 | each of the four roles, sent to its login path, sees its home view there; student, company and faculty reach it through a listed route, admin directly |
| Navigation.UnknownRoleSeesLanding | Prototype_skillo_ai.jsx:1533 | any other role is sent to /student/dashboard yet sees the landing page there |
| Navigation.NavItemsShape | Prototype_skillo_ai.jsx:1602-1631 | exactly the four roles have sidebar entries, each entry has a caption, and the first entry leads to the role's login path |
| Navigation.Sidebar | Prototype_skillo_ai.jsx:1633 | signed out, the sidebar is empty; signed in, it holds the role's entries, none for an unknown role |
| Navigation.SidebarEntriesRouted | Prototype_skillo_ai.jsx:1602-1633 | every sidebar entry of a student, company or faculty user is a listed route, and no entry of any role shows the landing page |
| Portal.Prepend | Prototype_skillo_ai.jsx:1549-1555 | the new item is at index 0, the length grows by one, and every old item sits one place later, unchanged |
| Portal.PrependEachReverses | Prototype_skillo_ai.jsx:1549-1555 | items added one after another end up newest first, above the old list |
| Portal.AddOpportunity | Prototype_skillo_ai.jsx:1549-1551 | the opportunity list gains the new one at the front, the rest unchanged; no other part of the state changes |
| Portal.AddPost | Prototype_skillo_ai.jsx:1553-1555 | the post list gains the new one at the front, the rest unchanged; no other part of the state changes |
| Portal.SignIn | Prototype_skillo_ai.jsx:1530-1534 | the user is recorded and the path becomes the role's login path, where a user of one of the four roles sees that role's home view; nothing else changes |
| Portal.SignOut | Prototype_skillo_ai.jsx:1536-1540 | no user remains, the path becomes "/" and the landing page shows; nothing else changes |
| Portal.Navigate | Prototype_skillo_ai.jsx:1542-1547 | the path changes, the selection changes only when an id is given, the sidebar closes; nothing else changes |
| Portal.FindById | Prototype_skillo_ai.jsx:1572 | `find` returns the first opportunity with the selected id, or nothing when none has it |
| Portal.ActiveOpportunity | Prototype_skillo_ai.jsx:1572 | the detail page shows the first listed opportunity with the selected id when one exists, else the first of the list; nothing only when the list is empty |
| Portal.AddedOpportunityIsActive | Prototype_skillo_ai.jsx:1549-1572 | a just-added opportunity, once selected, is the one the detail page shows |
| Portal.ParseSkills | Prototype_skillo_ai.jsx:1005 | one skill per comma-separated piece, in order, each the trimmed piece; none holds a comma or surrounding white space; one more skill than commas |
| Portal.EmptySkillsGiveOneEmptySkill | Prototype_skillo_ai.jsx:1005 | an empty skills field gives the one-element list `[""]` |
| Portal.ParseSkillsOfJoin | Prototype_skillo_ai.jsx:1005 | comma-joined pieces parse back to the same pieces, trimmed |
| Portal.SkillsRoundTrip | Prototype_skillo_ai.jsx:1005 | trimmed, comma-free skills survive a comma join and a parse unchanged |
| Portal.FacultyOpportunity | Prototype_skillo_ai.jsx:991-1009 | the faculty's opportunity carries the form's role, type and description, the fixed company, score 99 and faculty source, and one skill more than the skills field has commas |
| Portal.PostFacultyOpportunity | Prototype_skillo_ai.jsx:991-1013 | the new opportunity is added at the front with the parsed skills, and the form resets to empty with "Research" selected |
| Portal.SubmitPost | Prototype_skillo_ai.jsx:569-582 | with a non-empty title and content, a post by "You" is added at the front and the draft empties; otherwise nothing changes |
| Score.ScoreColour | Prototype_skillo_ai.jsx:256 | green exactly from 80, amber exactly from 60 to 79, red exactly below 60 |
| Score.StrokeFor | Prototype_skillo_ai.jsx:256 | the ring is stroked #10B981 exactly from 80, #F59E0B exactly from 60 to 79, and #EF4444 exactly below 60 |
| Score.ScoreColourMonotone | Prototype_skillo_ai.jsx:256 | a higher score never gets a worse colour |

## Left out

- The network call, JSON parsing and timers (`fetch`, `response.json()`, `setTimeout`). Each attempt's observable outcome is an input, and the waits are returned as a list.
- The implicit `undefined` return after the retry loop is not modelled. With three attempts, every path returns inside the loop.
- The `catch` branch of `handleSend` (lines 347-348) is not modelled. `callGemini` absorbs every failure, so that branch is unreachable in the model.
- `Date.now()` ids of chat messages are not modelled. Ids of opportunities and posts are parameters. Wall-clock values are neither modelled nor unique.
- Local storage is not modelled: the write in `handleLogin`, the removal in `handleLogout`, and the restore-on-load path with its corrupt-entry removal (lines 1518-1528). This is browser I/O.
- The widget's open/closed flag, scrolling, the loading spinner and `setShowPostModal` are not modelled. They are presentation only.
- `MatchScoreRing`'s radius, circumference and offset arithmetic is not modelled. It is floating point.
- Display-only fields of opportunities and posts (logo, salary, location, rating and so on) are left out.
- The `INITIAL_DATA` fixtures, the `alert()` handlers and the hard-coded dashboard numbers are left out.
- `LoginPage` and the demo credentials are outside the modelled core.
- Portal.FacultyOpportunity: the browser's `required` checks on the faculty form are not modelled. Empty fields are accepted as the handler itself accepts them.
- Score.ScoreColour: scores are whole numbers. A fractional score is compared the same way in the source but is not representable here.
- Gemini.CallGemini: a `text` field that is present but not a string (a number, say) is returned as is by the source; the model's attempt text is a string or absent, so that case is not represented.
- Chat.NameField: the source prints "null" for a name that is `null` and "undefined" for a missing one; both are `None` here and print "undefined".
- Navigation.NavItems: a role string naming an inherited property of JavaScript objects ("constructor", "toString", "__proto__" and so on) makes `navItems[user.role]` a non-array, and rendering the sidebar would then fail. Here every unknown role gets no entries. Such a role can only come from the restored local-storage record, which is not modelled.
- Chat.Greeting: the greeting ends with the sparkles emoji (U+2728). The source file shows it as mis-decoded bytes.

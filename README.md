# A verified model of the Real Society notes-and-assistant app

Real Society is a small web application. An Express server keeps three SQLite
tables (`users`, `notes`, `activities`) and serves a JSON API:

- signup and login with bcrypt-hashed passwords and signed tokens;
- a bearer-token middleware and an admin middleware;
- per-user notes, created, listed newest first and deleted by their owner;
- plan upgrades and profile updates;
- a usage report with Free-plan quotas;
- an activity log whose `AI Chat` entries raise the caller's AI usage counter;
- the admin user list, table counts and user deletion;
- the channel lookup behind the YouTube video list.

A React client sits on top of it. Its pages make small decisions of their own:
- the notes page filters the notes and exports them with secret notes masked;
- the chat page gates sends on the Free quota and builds the context line;
- the admin page searches users;
- the dashboard derives counters and the storage bar;
- the YouTube hub builds subscribe links and shared-video notes;
- the app shell resolves routes and keeps the login session.

The model is written in Dafny as these modules:

- `Base`: options, an order-keeping filter, and pairwise orderings.
- `Text`: the JavaScript string operations the code uses, written out as functions:
  - `toLowerCase`, `includes`, `indexOf`, `split`, `join`, `trim` and `startsWith`;
  - `replace(/\s+/g, …)` and number printing.
- `Schema`: the table rows with their column defaults.
- `Auth`:
  - the two middlewares;
  - bcrypt and JWT as a record of function values. The model assumes only what those libraries promise.
- `Queries`: each SQL statement as a function over the table contents, plus the usage and channel-id computations.
- `Server`:
  - a `Store` class whose fields are the three tables and their AUTOINCREMENT counters;
  - one method per route that changes data, each keeping the store invariant (ids ascending, emails unique);
  - `Serve`, which puts the middleware in front of the routes.
- `NotesPage`, `ChatPage`, `AdminPage`, `DashboardPage`, `YouTubePage`, `AppShell`: the client pages.
  - The pure rules are functions.
  - Page state that handlers update in place (the chat session, the YouTube hub, the app session) is a class with methods.

## Model

| member | source | states |
|---|---|---|
| Base.Filter | src/pages/Notes.tsx:128-132 | the result keeps exactly the elements satisfying the predicate, and is never longer |
| Base.Count | src/pages/Dashboard.tsx:68 | the count of matching elements is at most the length |
| Base.FilterIsSubsequence | src/pages/Notes.tsx:128-132 | a filter result is a subsequence of its input, in input order |
| Base.FilterKeepsAll | src/pages/Notes.tsx:128-132 | filtering with a predicate every element satisfies returns the input unchanged |
| Base.FilterAppend | server.ts:143 | filtering distributes over concatenation |
| Base.FilterPairwise | server.ts:235 | deleting rows keeps a pairwise order such as ascending ids |
| Base.PairwiseAppend | server.ts:21 | appending an element related to all earlier ones keeps a pairwise order |
| Text.Lower | src/pages/Notes.tsx:129 | lower-casing keeps the length and maps each character by the ASCII case rule |
| Text.IndexFrom | server.ts:192 | the result is the first occurrence at or after the start, or none exists |
| Text.IndexOf | server.ts:192 | the result is the first occurrence, or the pattern occurs nowhere |
| Text.ContainsIff | server.ts:192 | `includes` holds exactly when the pattern occurs at some position |
| Text.Contains | src/pages/Notes.tsx:129 | `includes`: holds exactly when `indexOf` finds the pattern |
| Text.ContainsEmpty | src/pages/Notes.tsx:129 | the empty search occurs in every string |
| Text.ContainsChar | server.ts:95 | a one-character pattern occurs exactly where that character is |
| Text.StartsWith | src/pages/YouTube.tsx:140 | `startsWith`: the string begins with the prefix |
| Text.Split | server.ts:95 | a split yields at least one piece, and no piece contains the separator |
| Text.JoinSplit | src/pages/Notes.tsx:56 | joining the pieces of a split with the same separator gives back the string |
| Text.Join | src/pages/Notes.tsx:56 | `join`: the parts in order with the separator between neighbours, and empty text for no parts |
| Text.JoinAppend | src/pages/Notes.tsx:56 | the join of two non-empty lists is the two joins with one separator between them |
| Text.SplitHead | server.ts:193 | the first piece of a split is a separator-free prefix followed by the end or by the separator, and the separator occurs nowhere before its end |
| Text.SplitSecond | server.ts:193 | the second piece is the first piece of the split of the text after the first separator |
| Text.SplitJoin | src/pages/Dashboard.tsx:88 | splitting a join on a one-character separator gives back the parts when none contains it |
| Text.TrimStart | src/pages/Chat.tsx:100 | the result is a suffix that starts with non-whitespace, and everything dropped is whitespace |
| Text.TrimEnd | src/pages/Chat.tsx:100 | the result is a prefix that ends with non-whitespace, and everything dropped is whitespace |
| Text.Trim | src/pages/Chat.tsx:100 | `trim`: leading and trailing whitespace removed |
| Text.TrimEmptyIff | src/pages/Chat.tsx:100 | a text trims to nothing exactly when all its characters are whitespace |
| Text.ReplaceSpaceRunsClean | src/pages/Notes.tsx:235 | replacing whitespace runs with a non-space leaves no whitespace and never lengthens the text |
| Text.ReplaceSpaceRuns | src/pages/Notes.tsx:235 | `replace(/\s+/g, rep)`: each maximal run of whitespace becomes one replacement character |
| Text.ReplaceSpaceRunsPrefix | src/pages/Notes.tsx:235 | a whitespace-free prefix passes through the replacement unchanged |
| Text.ReplaceAroundSpace | src/pages/Notes.tsx:235 | one whitespace character between two whitespace-free strings becomes the replacement character |
| Text.ReplaceBetweenWords | src/pages/Notes.tsx:235 | two words separated by one space come out joined by the replacement character |
| Text.ReplaceBetweenThreeWords | src/pages/Notes.tsx:235 | three words separated by single spaces come out joined by the replacement character |
| Text.NatToString | src/pages/Chat.tsx:54 | a number prints as at least one decimal digit, without a leading zero |
| Text.ParseNatToString | src/pages/Chat.tsx:54 | the printed digits read back as the number |
| Schema.NewUser | server.ts:20-32 | a signup row takes role `user`, plan `Free`, counter 0 and NULL bio, photo and channel by default |
| Schema.EmailTaken | server.ts:22 | the UNIQUE test: some row already has the email |
| Schema.HasUser | server.ts:43 | what `REFERENCES users(id)` demands: some users row has the id |
| Schema.Referenced | server.ts:43-52 | some note or activity refers to the user id, so the user's row cannot be deleted |
| Auth.BearerToken | server.ts:94-96 | the token is a non-empty, space-free piece, and no header means no token |
| Auth.BearerTokenAnyScheme | server.ts:95 | any space-free first word is accepted as the scheme, so the token after it is taken whatever the scheme |
| Auth.BearerTokenNeedsSpace | server.ts:95-96 | a header without a space yields no token |
| Auth.Authenticate | server.ts:93-103 | 401 exactly when there is no token, 403 exactly when the token does not verify, otherwise the verified payload |
| Auth.IssuedTokenPasses | server.ts:93-103 | a signed token sent as `Bearer <token>` passes with the payload it was signed with |
| Auth.AdminGate | server.ts:106-109 | the admin gate passes exactly when the token's role is `admin`, and otherwise answers 403 |
| Queries.FindByEmail | server.ts:126 | the first row with the email is found, and none is found exactly when no row has it |
| Queries.FindById | server.ts:142 | a found row has the id, and none is found only when no row has it |
| Queries.AccountOf | server.ts:131 | the login answer carries the row's id, email, role, plan, counter and channel |
| Queries.SignupAccount | server.ts:118 | the signup answer carries id, email, name and role `user`, but no plan and no counter |
| Queries.SetPlan | server.ts:137 | only the plan column of the caller's row changes |
| Queries.SetProfile | server.ts:166-167 | the caller's row gets the four sent fields, only those columns change, and other rows stay |
| Queries.BumpUsage | server.ts:263 | the caller's counter rises by one, and no other column or row changes |
| Queries.RemoveUser | server.ts:253 | exactly the rows with that id go |
| Queries.UserSummaries | server.ts:241 | one summary per row, in table order, with the selected columns |
| Queries.ProfileOf | server.ts:160-163 | a profile exists exactly when the caller's row exists, and it is that row's id, email, name, bio, photo and role |
| Queries.FindAfterSetProfile | server.ts:167 | after the profile update, looking the caller up finds the same row with the four new columns |
| Queries.ProfileShowsUpdate | server.ts:160-168 | the profile read after an update shows the written name, bio and photo, with the caller's id, email and role unchanged |
| Queries.NotesOf | server.ts:143 | exactly the notes owned by the user |
| Queries.InsertNewest | server.ts:223 | inserting into a newest-first list keeps it newest first and adds exactly that note |
| Queries.SortNewestFirst | server.ts:223 | the result is newest first and a permutation of the input |
| Queries.ListNotes | server.ts:222-225 | exactly the caller's notes, each as often as stored, in non-increasing creation time |
| Queries.ListIsolation | server.ts:222-232 | a note stored for one user never appears in another user's list |
| Queries.NotesOfOtherUnchanged | server.ts:227-232 | a note created by one user leaves every other user's notes as they were |
| Queries.NoteRow | server.ts:229-230 | the stored row is owned by the caller, `is_secret` is 0 or 1, an empty password is NULL, and a missing type is `note` |
| Queries.RemoveNote | server.ts:235 | exactly the rows matching both id and owner go, and the rest keep their order |
| Queries.RemoveNoteNoMatch | server.ts:234-237 | deleting a note the caller does not own, or that does not exist, changes nothing |
| Queries.RemoveNoteAtMostOne | server.ts:35 | with unique ids, a delete removes at most one row |
| Queries.StorageUsedAppend | server.ts:146 | storage used adds up over concatenation |
| Queries.ContentLength | server.ts:146 | `note.content?.length || 0`: the content's length, 0 for NULL |
| Queries.StorageUsed | server.ts:146 | the `reduce` over the notes: the sum of their content lengths |
| Queries.UsageOf | server.ts:141-157 | the report exists exactly when the caller's row does; it carries the stored plan, the content-length sum of the caller's notes and the stored counter; the limits are 10 AI uses and 500 MiB exactly for the `Free` plan, and unlimited AI uses and 10 GiB for any other plan |
| Queries.FindAfterBump | server.ts:262-263 | after the counter update, every id finds the same row, with the counter one higher exactly for the caller |
| Queries.UsageAfterChat | server.ts:257-266 | an `AI Chat` activity raises the caller's reported usage by exactly one and leaves every other user's report unchanged |
| Queries.StorageAfterCreate | server.ts:146 | creating a note adds exactly its content length to its owner's storage and nothing to anyone else's |
| Queries.ExtractChannelIdSpec | server.ts:192-193 | the id is the text after the first `channel/`, up to the next `/` or `channel/` or the end, and contains neither; no `channel/` starts inside it |
| Queries.ExtractChannelId | server.ts:193-194 | the two `split`s: the piece after the first `channel/`, cut at the first `/` |
| Queries.ExtractFromRest | server.ts:193 | the extraction works on the text after the first `channel/` |
| Queries.CutAtSlashOrMarker | server.ts:193 | the head of the two splits is the prefix before the first `/` or `channel/`, and no `channel/` starts inside it |
| Queries.LiftCut | server.ts:193 | facts about a prefix of the remainder, including where `channel/` does not start, carry over to the whole link at that offset |
| Queries.ResolveChannel | server.ts:190-202 | a `channel/` link yields the extracted id; otherwise text with `@` yields the handle search's hit, or itself when the search finds nothing; and text with neither is used as is |
| Queries.VideoSourceFor | server.ts:172-204 | no videos exactly when the caller has no channel, mock videos only without an API key, and a search only with one, on the id `ResolveChannel` gives for the stored channel |
| Server.LoginReply | server.ts:124-132 | 401 "Invalid credentials" exactly when no row has the email or the password does not match; otherwise a token for a matching row |
| Server.SignupThenLogin | server.ts:112-132 | a signup followed by a login with the same credentials is let in as the same id with role `user`, and the token verifies to that payload |
| Server.Admitted | server.ts:93-109 | the request gets past `authenticateToken`, and past `isAdmin` on the admin routes |
| Server.Handled | server.ts:135-266 | each authenticated route's answer and new tables for a verified caller, the specification `Dispatch` and `Serve` are proved against |
| Server.Linked | server.ts:43-52 | every note and activity refers to an existing user |
| Server.AppendAboveKeepsOrder | server.ts:21 | a row with the next AUTOINCREMENT id keeps ids ascending and bounded by the counter |
| Server.SameUsersKeepLinked | server.ts:43-52 | an update that keeps a row for every user id keeps every note and activity pointing at an existing user |
| Server.UnreferencedKeepsLinked | server.ts:252-255 | deleting a user that no note or activity refers to keeps every note and activity pointing at an existing user |
| Server.Store.constructor | server.ts:19-53 | the store starts with empty tables and counters at zero, and satisfies the invariant (ascending ids, unique emails, every note and activity owned by an existing user) |
| Server.Store.Valid | server.ts:20-53 | the store invariant: ids positive, ascending and within their AUTOINCREMENT counter; emails unique; every note and activity owned by an existing user |
| Server.Store.Signup | server.ts:112-122 | a taken email gives 400 and changes nothing; otherwise exactly one row is added with a fresh id and the defaults, and a role-`user` token is issued |
| Server.Store.Upgrade | server.ts:135-139 | only the caller's plan changes, the other tables are untouched, and the answer echoes the plan |
| Server.Store.UpdateProfile | server.ts:165-169 | only the caller's four profile columns change |
| Server.Store.CreateNote | server.ts:227-232 | when the caller has a row, exactly one row owned by the caller is appended, with the next id; without one the foreign key (server.ts:43) refuses the insert, the answer is a 500 and nothing changes; the other tables never change |
| Server.Store.DeleteNote | server.ts:234-237 | only a row matching both id and owner goes, at most one row goes, the answer is success either way, and nothing else changes |
| Server.Store.LogActivity | server.ts:257-266 | when the caller has a row, exactly one activity row is appended and the caller's counter rises exactly when the action is `AI Chat`; without one the foreign key (server.ts:52) refuses the insert, the answer is a 500 and nothing changes; notes never change |
| Server.Store.AdminDeleteUser | server.ts:252-255 | while a note or an activity refers to the user, the foreign keys refuse the delete, the answer is a 500 and nothing changes; otherwise exactly the rows with that id go; notes and activities never change |
| Server.Store.Serve | server.ts:93-266 | a request the token gate stops gets a bare 401 or 403 and changes nothing; a non-admin on an admin route gets 403 and changes nothing; read-only routes change nothing; login answers as its handler; a taken email fails and changes nothing, and a new one appends the user under the next id, which is above every old id, and leaves the notes, activities and their counters alone; every admitted request gets the answer and new tables `Handled` gives for the verified caller's id |
| Server.Store.Dispatch | server.ts:135-266 | each authenticated route answers the caller and changes the tables as `Handled` states: the usage, profile, videos and note list of the caller's own id, the user list and the three table sizes for the admin, and the route's update for the others |
| NotesPage.FilteredNotes | src/pages/Notes.tsx:128-132 | the listed notes are a subsequence of the notes; a note is listed exactly when the search occurs in its lower-cased title or content and the tab is `all`, its type, or `secret` for a secret note |
| NotesPage.MatchesSearch | src/pages/Notes.tsx:129 | the lower-cased search occurs in the lower-cased title or content |
| NotesPage.MatchesFilter | src/pages/Notes.tsx:130 | the tab is `all`, the note's type, or `secret` for a secret note |
| NotesPage.FilteredNotesKeepsAll | src/pages/Notes.tsx:128-132 | an empty search on the `all` tab lists every note |
| NotesPage.ShownTitle | src/pages/Notes.tsx:53 | a secret note shows the mask title, and any other note its own title |
| NotesPage.ShownBody | src/pages/Notes.tsx:54 | a secret note shows the mask body, and any other note its own content |
| NotesPage.ExportBlock | src/pages/Notes.tsx:51-55 | one note's export block: rule, shown title, date, type, rule, then the shown body |
| NotesPage.Blocks | src/pages/Notes.tsx:51-55 | one export block per note, in list order |
| NotesPage.ExportAll | src/pages/Notes.tsx:45-56 | no file exactly when there are no notes |
| NotesPage.ExportOne | src/pages/Notes.tsx:51-56 | a single note exports as its own block |
| NotesPage.ExportAppend | src/pages/Notes.tsx:51-56 | the export of a list is the export of its front, a newline, and the export of its back |
| NotesPage.ExportHidesSecrets | src/pages/Notes.tsx:51-56 | two lists that differ only in their secret notes' titles and contents export the same text |
| NotesPage.NoteFile | src/pages/Notes.tsx:226-230 | the single-note file: shown title, date, type, then the shown body |
| NotesPage.DownloadName | src/pages/Notes.tsx:235 | the shown title with whitespace runs turned into `_`, plus `.txt` |
| NotesPage.DownloadNameShape | src/pages/Notes.tsx:235 | the file name has no whitespace and ends in `.txt` |
| NotesPage.SecretDownloadName | src/pages/Notes.tsx:228-235 | every secret note downloads as `Secret_Note_(Encrypted).txt` |
| NotesPage.NoteFileHidesSecret | src/pages/Notes.tsx:226-235 | neither the single-note file, its name, nor its export block depends on a secret note's title or content |
| NotesPage.AiWrite | src/pages/Notes.tsx:97-106 | refused exactly when the title is empty; otherwise only the content changes, to the generated text |
| ChatPage.RecentTitles | src/pages/Chat.tsx:53 | the titles of the first five notes, or of all of them when there are fewer, with a missing title as empty text |
| ChatPage.ContextLine | src/pages/Chat.tsx:53-54 | the context line: the note count and the recent titles joined with commas |
| ChatPage.ContextLineSeesFirstFive | src/pages/Chat.tsx:53-54 | the context line depends only on the note count and the first five titles |
| ChatPage.ContextLineCount | src/pages/Chat.tsx:54 | the note count can be read back from the context line |
| ChatPage.TextToSend | src/pages/Chat.tsx:99 | a non-empty override is sent, and otherwise the input box |
| ChatPage.IsFree | src/pages/Chat.tsx:103 | there is a user and its plan is `Free` |
| ChatPage.OverFreeLimit | src/pages/Chat.tsx:103 | a Free user whose count is at least ten |
| ChatPage.OnlyFreeUsersLimited | src/pages/Chat.tsx:103-106 | only a Free user is refused on count, and only from ten messages on |
| ChatPage.Bumped | src/pages/Chat.tsx:131 | the stored count becomes the old count plus one, a missing count counting as 0, and nothing else changes |
| ChatPage.History | src/pages/Chat.tsx:114 | the history holds each message's role and text, in order |
| ChatPage.ChatSession.constructor | src/pages/Chat.tsx:23-32 | a new page holds only the greeting, an empty box, and nothing loading |
| ChatPage.ChatSession.LoadContext | src/pages/Chat.tsx:52-55 | the context becomes the context line of the fetched notes, and nothing else changes |
| ChatPage.ChatSession.Type | src/pages/Chat.tsx:247 | the input box takes the typed text, and nothing else changes |
| ChatPage.ChatSession.BeginSend | src/pages/Chat.tsx:97-114 | a send starts exactly when the text is not blank, no send is running, and the user is not over the Free limit; it then appends the user message, clears the box and hands over the prior history; otherwise nothing changes |
| ChatPage.ChatSession.FinishSend | src/pages/Chat.tsx:117-149 | the reply (the apology text when the assistant call failed, src/services/geminiService.ts:18-21) is appended after the user message; only the stored user gets the raised count; the `AI Chat` activity with the sent text is posted; the page's user stays unchanged |
| ChatPage.ChatSession.FinishSendUnposted | src/pages/Chat.tsx:117-149 | when the activity request rejects, the reply is still appended and the stored count still raised, nothing is posted, the error is swallowed and loading ends |
| ChatPage.ChatSession.FinishSendCounted | src/pages/Chat.tsx:129-133 | as `FinishSend`, with the raised count also given to the page's user |
| ChatPage.SendOnce | src/pages/Chat.tsx:97-149 | one complete send as written is accepted exactly when the page's user is under the limit, and leaves that user's count unchanged |
| ChatPage.SendRepeatedly | src/pages/Chat.tsx:103-133 | a Free user starting at zero has every one of any number of sends accepted on one page |
| ChatPage.FreeUserAt | src/pages/Chat.tsx:103-131 | a Free user with count m is refused exactly when m is at least ten, and a send raises the count to m + 1 |
| ChatPage.Granted | src/pages/Chat.tsx:103-106 | the sends let through never exceed those asked for; all are let through unless the count reaches ten; and none pass once ten is exceeded |
| ChatPage.SendOnceCounted | src/pages/Chat.tsx:97-149 | one counted send is accepted exactly below ten messages, and then raises the page user's count by one |
| ChatPage.SendRepeatedlyCounted | src/pages/Chat.tsx:103-133 | with the count carried over, a Free user at c gets exactly the remaining sends up to ten accepted |
| AdminPage.FilteredUsers | src/pages/Admin.tsx:59-62 | fails exactly when some user has no name; otherwise the kept users are a subsequence, kept exactly when the lower-cased search occurs in the lower-cased name or email |
| AdminPage.UserMatches | src/pages/Admin.tsx:60-61 | the lower-cased search occurs in the lower-cased name or email |
| AdminPage.FilteredUsersKeepsAll | src/pages/Admin.tsx:59-62 | an empty search keeps every user when every user has a name |
| AdminPage.HandleDeleteUser | src/pages/Admin.tsx:46-57 | declining sends no request; confirming sends one for that id and reloads exactly when it succeeded |
| DashboardPage.StatsOf | src/pages/Dashboard.tsx:66-71 | the note count, the tasks counted as notes of type `todo` (never more than the notes), and the server's AI usage unchanged |
| DashboardPage.TasksAreTodos | src/pages/Dashboard.tsx:68 | the task count equals the note count exactly when every note is a todo |
| DashboardPage.FilterFullLength | src/pages/Dashboard.tsx:68 | a filter that drops nothing means every element satisfies the predicate |
| DashboardPage.LimitLabel | src/pages/Dashboard.tsx:124 | the label is in GB exactly from 1024 MiB on, and its number times the unit gives back the limit |
| DashboardPage.LimitLabels | src/pages/Dashboard.tsx:124 | the Free limit reads 500 MB and the paid limit 10 GB |
| DashboardPage.BarRed | src/pages/Dashboard.tsx:130 | the used share of the limit is above 0.9 |
| DashboardPage.BarRedIff | src/pages/Dashboard.tsx:130 | the bar is red exactly when more than nine tenths of the limit are used |
| DashboardPage.BarWidth | src/pages/Dashboard.tsx:132 | the width lies between 0 and 100, is 100 exactly when the limit is reached, and is otherwise the used share in percent |
| DashboardPage.UsageLimitPositive | src/pages/Dashboard.tsx:130-132 | a usage report always carries a positive storage limit, so the bar's division is defined |
| DashboardPage.ShowBanner | src/pages/Dashboard.tsx:138 | there is a user and its plan is `Free` |
| DashboardPage.BannerByAccount | src/pages/Dashboard.tsx:138 | after a login the banner shows exactly for a Free user; the account a signup answers with never shows it |
| DashboardPage.ActivityLine | src/pages/Dashboard.tsx:88 | `action: details` for one activity |
| DashboardPage.ActivityText | src/pages/Dashboard.tsx:88 | the activity lines joined with newlines |
| DashboardPage.ActivityLines | src/pages/Dashboard.tsx:88 | one `action: details` line per activity, in order |
| DashboardPage.ActivityTextLines | src/pages/Dashboard.tsx:88 | splitting the summary text at newlines gives back the lines when none contains a newline |
| YouTubePage.SubscribeLink | src/pages/YouTube.tsx:140 | a channel starting with `http` is used verbatim, and any other is appended to the channel URL |
| YouTubePage.HasChannel | src/pages/YouTube.tsx:26 | the user has a non-empty channel |
| YouTubePage.SubscribeLinkRoundTrip | src/pages/YouTube.tsx:140 | the server extracts a bare channel id back from the subscribe link built on it |
| YouTubePage.SharedNote | src/pages/YouTube.tsx:82-86 | the shared note is titled and worded after the video, has type `note`, is not secret, and has no password |
| YouTubePage.YouTubeView.constructor | src/pages/YouTube.tsx:17-23 | the channel box starts with the user's channel or empty text, with no videos, error or flags |
| YouTubePage.YouTubeView.FetchVideos | src/pages/YouTube.tsx:25-41 | nothing happens without a channel; an error keeps the videos and shows the message or the fallback; a missing list becomes empty |
| YouTubePage.YouTubeView.EditChannel | src/pages/YouTube.tsx:118 | only the channel box changes |
| YouTubePage.YouTubeView.SaveChannel | src/pages/YouTube.tsx:47-72 | the body carries the user's fields with the new channel; on success the user differs only in its channel, here and in storage |
| YouTubePage.SaveChannelKeepsProfile | src/pages/YouTube.tsx:58-61 | the saved body, applied by the server, leaves every other column of the caller's row unchanged |
| AppShell.InnerRoute | src/App.tsx:212-222 | each listed path (`/`, `/chat`, `/notes`, `/youtube`, `/pricing`, `/profile`, `/privacy`) opens its own page; the admin page is reached exactly on `/admin` by an admin; every redirect goes home |
| AppShell.Resolve | src/App.tsx:205-227 | with no user, only the login and signup pages show and the rest redirect to login; with a user, those two redirect home; the admin page shows exactly to an admin on `/admin` |
| AppShell.UnknownPathGoesHome | src/App.tsx:213-221 | any path not listed sends a signed-in user home |
| AppShell.Sidebar | src/App.tsx:88-98 | the admin entry is listed exactly for an admin |
| AppShell.SidebarEntriesResolve | src/App.tsx:88-98 | every sidebar entry opens a page for its user, never a redirect |
| AppShell.Session.constructor | src/App.tsx:177-178 | the app starts with no user and the spinner showing |
| AppShell.Session.Restore | src/App.tsx:183-189 | a stored user becomes the current user, and the spinner goes |
| AppShell.Session.SignIn | src/pages/Login.tsx:25-27 | the token and user are stored, and the user becomes current |
| AppShell.Session.Logout | src/App.tsx:66-71 | both storage entries and the current user are cleared, and the login page follows |
| AppShell.LogoutThenReload | src/App.tsx:66-71 | after a logout and a reload, every path other than login and signup leads to the login page |

## Left out

- Password hashing and token signing are foreign libraries. They are parameters, and only `compare(p, hash(p))` and `verify(sign(c)) == Some(c)` are assumed, as preconditions. The model also treats hashing as deterministic, while bcrypt salts each hash.
- The SQL engine, the start-up column migration, and the unused `friends` table are not modelled. Each handler runs atomically, with no interleaving of concurrent requests.
- Foreign keys are taken as enforced, as in the SQLite build that better-sqlite3 bundles. A statement that would break one throws, and Express answers the thrown error with a 500; the model writes that answer as `ServerError`.
- Creation times are a logical clock passed in as `now`. Listing promises only non-increasing `created_at`, because the source orders by a timestamp with second resolution.
- The YouTube Data API requests, the mock video data, and the handle search are not modelled. The handle-search hit is a parameter, and the route is modelled up to the outbound request.
- Signup and login bodies are assumed to have string email and password. A missing field, which would make bcrypt throw, is not modelled.
- The Gemini calls of src/services/geminiService.ts are not modelled:
  - the assistant's reply and the AI-written note text are parameters;
  - `getAIResponse` answers any failure with an apology text, which is a reply like any other;
  - the speech output, smart suggestions, and note and activity summaries are not modelled;
  - the text sent to the summariser is modelled only as far as the activity text.
- Network, `localStorage`, `alert`, `confirm`, timers and Blob downloads are not modelled. Local storage is a field of the page classes, and a request's outcome is a parameter.
- The speech call in Chat.tsx swallows its own errors, so it never fails a send, and it is not modelled.
- Dates are opaque text, and `toLocaleString` is not modelled.
- Number formatting is not modelled:
  - the `toFixed(2)` storage text;
  - the decimal printing of the storage label's number (the label is modelled as a unit and a real amount).
- Lower-casing covers ASCII letters only.
- Lengths count characters, not UTF-16 code units.
- JSON serialises `Infinity` as null, and the model writes it as None.
- The Notes page holds titles and contents as strings. A NULL title or content, which would make its filter throw, is not modelled.
- The chat greeting's text is a parameter.
- The dashboard's hard-coded activity list is not modelled.
- The saving spinner of the YouTube hub and the success timeout are not modelled.
- The Profile, Pricing, Login, Signup and Privacy pages and the banner component are not part of this model:
  - their record updates mirror the server's upgrade and profile overwrites;
  - the one exception is the session update after a login (`AppShell.Session.SignIn`).
- Route matching in the router is exact: case-insensitive matching and trailing slashes are not modelled.
- DashboardPage.BarRed, DashboardPage.BarWidth: use exact real division where the page divides JavaScript doubles. The colour is the same: used and limit are whole numbers, so unless the share is exactly 9/10 it differs from 0.9 by at least 1/(10 x limit), far more than double rounding. When the share is exactly 9/10, both round to the same double. The width may differ from the real value in its last bits.

## Findings

| source | as written | input that shows it | evidently intended | confidence | as-written member | corrected member |
|---|---|---|---|---|---|---|
| src/pages/Chat.tsx:103-133 | the Free-limit check reads the page's `user` property, but the handler writes the raised count only to local storage, so the page's user keeps the count it had when the page opened | a Free user whose count is 0 sends 11 messages on one page: all 11 are accepted | the eleventh send (and every send once ten are counted) is refused with the limit alert | not executed | ChatPage.SendRepeatedly | ChatPage.SendRepeatedlyCounted |

# Valentines Surprise frontend — a Dafny model

This project models the client-side logic of a couples app written in React. It covers:

- a two-player tic-tac-toe played over a socket;
- a one-to-one video call coordinator;
- the shared socket holder;
- the pages for tasks, links, media, the profile and the dashboard;
- the authentication context with its two-step one-time-password sign-in and sign-up wizards;
- the partner-request popup;
- the route guard and the route table.

The model takes the source's own form:

- Components whose handlers update state step by step are classes. Their fields are the component's state and refs; their methods have `modifies` clauses.
- Pure helpers are functions, and lemmas state what the source promises about them.
- Loops over tracks, view URLs and QR payments are methods with loop invariants. Each is proved equal to a specification function: a sequence comprehension for the track loops, a recursive function for the view-URL and QR loops.

Every awaited call becomes a parameter of the handler that makes it: an HTTP request, a socket round trip, media acquisition, or a `confirm` dialog. The parameter carries the call's outcome: `Result` for a value or an error message, `Option`, or `bool`.

Every request that sends data or deletes something is appended to a sequence field with its data (the kiss request, which has none, is counted), and so are alerts shown and navigations requested; contracts state exactly what each handler sends. Read-only fetches are outcome parameters; the media page and the QR-URL effect also record the reads they make.

Modules:

| module | models |
|---|---|
| `Base` | `null`/`undefined`, thrown errors and `\|\|` on strings |
| `Seqs` | `filter`, `map` with a replacement, `slice(0, n)` and removal by key |
| `Text` | `trim`, `split(/[\n,]/)`, `startsWith`, first-occurrence `replace` and capitalisation |
| `Socket` | src/services/socketService.js |
| `TicTacToe` | src/components/games/TicTacToe.jsx |
| `VideoCall` | src/components/VideoCall.jsx |
| `Profile` | src/pages/ProfilePage.jsx |
| `Dashboard` | src/pages/DashboardPage.jsx |
| `Todos` | src/pages/TodoPage.jsx |
| `Media` | src/pages/MediaPage.jsx |
| `Urls` | src/pages/UrlsPage.jsx |
| `Auth` | src/context/AuthContext.jsx |
| `Login` | src/pages/LoginPage.jsx |
| `Signup` | src/pages/SignupPage.jsx |
| `RequestsModal` | src/components/RequestsModal.jsx |
| `ProtectedRoute` | src/components/ProtectedRoute.jsx |
| `App` | src/App.jsx |

## Model

| member | source | states |
|---|---|---|
| Socket.EmitsOn | src/services/socketService.js:19-41 | a guarded emit adds exactly one entry (held socket, event, payload) when a socket is held, and nothing otherwise |
| Socket.KeepOthers | src/services/socketService.js:49-53 | `off(event)` drops every registration of that event on that socket and keeps every other one, in order and with its multiplicity |
| Socket.SocketService.constructor | src/services/socketService.js:1-4 | a new service holds no socket and has sent and registered nothing |
| Socket.SocketService.Connect | src/services/socketService.js:6-10 | with a held socket it returns that socket and creates nothing; otherwise it creates a new socket, stores it and returns it |
| Socket.SocketService.Disconnect | src/services/socketService.js:12-17 | a held socket is disconnected and the field becomes empty; with no socket nothing happens |
| Socket.SocketService.EmitIfConnected | src/services/socketService.js:19-41 | the shared emit guard: one emission on the held socket, or none |
| Socket.SocketService.JoinRoom | src/services/socketService.js:19-23 | emits 'join_room' with the payload exactly when a socket is held; nothing else changes |
| Socket.SocketService.SendMove | src/services/socketService.js:25-29 | emits 'send_move' with the payload exactly when a socket is held; nothing else changes |
| Socket.SocketService.ResetGame | src/services/socketService.js:31-35 | emits 'game_reset' with the payload exactly when a socket is held; nothing else changes |
| Socket.SocketService.SendLocation | src/services/socketService.js:37-41 | emits 'send_location' with the payload exactly when a socket is held; nothing else changes |
| Socket.SocketService.On | src/services/socketService.js:43-47 | registers the handler on the held socket; a silent no-op without one |
| Socket.SocketService.Off | src/services/socketService.js:49-53 | removes every listener of that event name on the held socket, not one handler; a silent no-op without a socket |
| Socket.ConnectLifecycle | src/services/socketService.js:6-17 | two successive connects return the same socket; a connect after a disconnect returns a socket that was never closed before |
| TicTacToe.EmptyBoard | src/components/games/TicTacToe.jsx:8 | the initial board has nine cells, all empty |
| TicTacToe.CalculateWinner | src/components/games/TicTacToe.jsx:131-144 | the scanning loop returns the mark of the first completed line in scan order, or null |
| TicTacToe.WinnerSound | src/components/games/TicTacToe.jsx:131-144 | a mark is returned only if some line holds three copies of it, and that line is the first complete one in scan order |
| TicTacToe.WinnerNoneIffNoLine | src/components/games/TicTacToe.jsx:143 | null is returned exactly when no line is complete, a full board included; there is no draw result |
| TicTacToe.WinnerFromSound | src/components/games/TicTacToe.jsx:134-141 | the scan from any line on returns the mark of the first complete line at or after it |
| TicTacToe.WinnerFromNone | src/components/games/TicTacToe.jsx:134-143 | the scan from any line on finds nothing exactly when no later line is complete |
| TicTacToe.RoleOf | src/components/games/TicTacToe.jsx:19-22 | a user plays X exactly when their id equals `user1`'s id (`_id` when present, else the raw value) |
| TicTacToe.IsMyTurn | src/components/games/TicTacToe.jsx:23 | it is my turn exactly when my mark is the mark to move |
| TicTacToe.TwoPlayersAlternate | src/components/games/TicTacToe.jsx:19-23 | with two distinct users, `user1` plays X and the other O, and at every turn exactly one of them may move |
| TicTacToe.NoWinnerStatus | src/components/games/TicTacToe.jsx:72-80 | with no winner the status reads "Your Turn" exactly on my turn, and otherwise "Waiting for" the mark to move, which is not mine |
| TicTacToe.DrawNeverShown | src/components/games/TicTacToe.jsx:72-80 | the draw message is never shown; a win shows "You Won!" to the winner and "You Lost!" to the other |
| TicTacToe.GameScreen | src/components/games/TicTacToe.jsx:13-15 | the placeholder is shown exactly when the couple or either member is missing (a raw id counts only when non-empty); otherwise the game runs for the couple's room and first member |
| TicTacToe.Game.constructor | src/components/games/TicTacToe.jsx:8-10 | an empty board, X to move, no winner |
| TicTacToe.Game.HandleClick | src/components/games/TicTacToe.jsx:47-62 | an occupied cell, a decided game or an off-turn click changes and sends nothing, and the socket holder's other fields never change; otherwise only that cell gets my mark, the turn flips, the winner is recomputed, and exactly one 'send_move' carries the new board and turn |
| TicTacToe.Game.ResetGame | src/components/games/TicTacToe.jsx:64-70 | sends one 'game_reset' and restores an empty board, X to move, no winner; the socket holder's socket, listeners, creations and closings are unchanged |
| TicTacToe.Game.ReceiveMove | src/components/games/TicTacToe.jsx:29-33 | board and turn are replaced wholesale and the winner is recomputed |
| TicTacToe.Game.ReceiveReset | src/components/games/TicTacToe.jsx:35-39 | an empty board, X to move, no winner |
| TicTacToe.Game.Subscribe | src/components/games/TicTacToe.jsx:25-39 | connects, sends one 'join_room' for the couple's room, and registers the two listeners on the socket held |
| TicTacToe.Game.CleanUp | src/components/games/TicTacToe.jsx:41-44 | removes the 'receive_move' and 'receive_reset' registrations of the captured socket; nothing else changes |
| TicTacToe.SubscribeThenCleanUp | src/components/games/TicTacToe.jsx:25-45 | after mount and cleanup the socket has no game listener, and every other registration is there as often as before |
| TicTacToe.MoveReachesPartner | src/components/games/TicTacToe.jsx:29-33 | a move sent by one player and received by the other leaves both with equal boards, turns and winners, and the mover no longer has the turn |
| VideoCall.StopAll | src/components/VideoCall.jsx:160 | stopping every track ends all of them and keeps their kind and `enabled` flag |
| VideoCall.SetEnabled | src/components/VideoCall.jsx:173-189 | the tracks of one kind get the new `enabled` value; the other tracks are untouched |
| VideoCall.SetEnabledTwice | src/components/VideoCall.jsx:173-189 | toggling twice restores every track |
| VideoCall.StopTracks | src/components/VideoCall.jsx:160 | the in-place loop leaves the array equal to `StopAll` of its old contents |
| VideoCall.EnableTracks | src/components/VideoCall.jsx:175-177 | the in-place loop leaves the array equal to `SetEnabled` of its old contents |
| VideoCall.Call.constructor | src/components/VideoCall.jsx:24-27 | no streams or connection, status 'Initializing...', mic, camera and speaker on |
| VideoCall.Call.SetLocalStream | src/components/VideoCall.jsx:9-12 | the ref and the state take the same stream, so they stay equal |
| VideoCall.Call.CreatePeerConnection | src/components/VideoCall.jsx:116 | installs a new connection for the given peer and changes nothing else |
| VideoCall.Call.OnConnect | src/components/VideoCall.jsx:39-43 | status 'Connected to Server' and exactly one join of the call room |
| VideoCall.Call.OnConnectError | src/components/VideoCall.jsx:45-48 | only the status changes, to the connection error text |
| VideoCall.Call.HandleOffer | src/components/VideoCall.jsx:58-68 | always installs a new connection for the sender, with no check of existing state; with an answer it sends exactly one answer to the sender and marks the call active and 'Connected with Partner' |
| VideoCall.Call.HandleAnswer | src/components/VideoCall.jsx:71-78 | applied, and the call marked active, only when a connection is held; otherwise nothing changes |
| VideoCall.Call.HandleIceCandidate | src/components/VideoCall.jsx:81-89 | dropped without a connection; a failure to add it changes nothing |
| VideoCall.Call.InitiateOneToOneCall | src/components/VideoCall.jsx:135-152 | media is acquired only when no stream is held; if acquisition fails only the status changes and nothing is sent; otherwise a new connection for the target is installed and, when an offer was made, exactly one offer is sent to the target |
| VideoCall.Call.HandleUserConnected | src/components/VideoCall.jsx:91-95 | calls the partner who joined: the same new state as `InitiateOneToOneCall` with the partner as target |
| VideoCall.Call.StartCall | src/components/VideoCall.jsx:118-132 | a no-op with a stream held; otherwise the acquired stream is set and the status is 'Ready to Call', or the camera error is shown |
| VideoCall.Call.EndCall | src/components/VideoCall.jsx:154-166 | no connection (the held one is closed), every local track stopped, both streams cleared, the call inactive and 'Call Ended'; ending an ended call changes nothing |
| VideoCall.Call.HandleUserDisconnected | src/components/VideoCall.jsx:97-103 | ends the call exactly when the id is not this user's own |
| VideoCall.Call.ToggleMic | src/components/VideoCall.jsx:173-180 | nothing without a stream; otherwise every audio track's `enabled` becomes the negated flag and the flag flips, so the tracks agree with it |
| VideoCall.Call.ToggleCamera | src/components/VideoCall.jsx:182-189 | as `ToggleMic`, for the video tracks and the camera flag |
| VideoCall.Call.ToggleSpeaker | src/components/VideoCall.jsx:341 | only the speaker flag flips |
| Profile.TrimAll | src/pages/ProfilePage.jsx:41 | each piece is trimmed, in place, and every result is a trimmed string |
| Profile.TrimAllKeepsClean | src/pages/ProfilePage.jsx:41 | trimming the entries of a clean list changes nothing |
| Profile.ParseLegacy | src/pages/ProfilePage.jsx:39-42 | the parsed legacy list holds only non-empty, trimmed entries; `ParseLegacyJoined` states exactly which |
| Profile.ParseLegacyJoined | src/pages/ProfilePage.jsx:41 | separator-free pieces joined with any mix of newlines and commas parse to the trimmed pieces, the empty ones dropped, in order |
| Profile.LegacyRoundTrip | src/pages/ProfilePage.jsx:41 | a clean list without separators, joined with any mix of newlines and commas, parses back to itself |
| Profile.LoadFavorites | src/pages/ProfilePage.jsx:37-42 | a missing or empty value gives [], a list is kept as is, and legacy text gives exactly `ParseLegacy` of it, a clean list |
| Profile.AddFavorite | src/pages/ProfilePage.jsx:68-75 | blank input changes nothing; otherwise exactly the trimmed text is appended after the unchanged list and the input cleared |
| Profile.RemoveFavorite | src/pages/ProfilePage.jsx:77-82 | exactly that position is deleted and the order kept; an out-of-range index changes nothing |
| Profile.AddKeepsClean | src/pages/ProfilePage.jsx:68-75 | adding keeps a clean list clean, and the added entry is the trimmed input |
| Profile.AppendKeepsClean | src/pages/ProfilePage.jsx:68-75 | a non-empty trimmed entry appended to a clean list keeps it clean |
| Profile.RemoveKeepsClean | src/pages/ProfilePage.jsx:77-82 | removing keeps a clean list clean |
| Profile.RemoveLastEntry | src/pages/ProfilePage.jsx:78-82 | removing the last position of a list that extends another by one entry gives that other list |
| Profile.RemoveUndoesAdd | src/pages/ProfilePage.jsx:68-82 | removing the entry just added gives the list back |
| Profile.TrimJoined | src/pages/ProfilePage.jsx:176 | a non-blank trimmed first name joined by one space to a non-empty trimmed last name trims to that join; with an empty last name it trims to the first name |
| Profile.FullName | src/pages/ProfilePage.jsx:176 | the displayed name never starts or ends with white space; for trimmed names it is the first name, a space and the last name, or the first name alone when there is no last name |
| Profile.OtherMember | src/pages/ProfilePage.jsx:183 | `user2` when `user1` is me, `user1` otherwise |
| Profile.OtherMemberIsPartner | src/pages/ProfilePage.jsx:183 | when I am one of two distinct members, the other one is chosen, never me |
| Profile.GetPartnerInfo | src/pages/ProfilePage.jsx:171-193 | null without a couple; a pending couple gives the trimmed invite name and email; otherwise the other member's card, or null when that member is missing |
| Profile.ProfilePage.constructor | src/pages/ProfilePage.jsx:18-32 | empty lists, inputs and messages, and a hidden invite form |
| Profile.ProfilePage.LoadUser | src/pages/ProfilePage.jsx:34-48 | favourites are loaded from the user document as `LoadFavorites` says; the address defaults to ''; no other field changes |
| Profile.ProfilePage.LoadPartner | src/pages/ProfilePage.jsx:54-66 | with a partner card, the partner's favourites are loaded the same way (a pending invite has none); no other field changes |
| Profile.ProfilePage.HandleAddFavorite | src/pages/ProfilePage.jsx:68-75 | the list and input follow `AddFavorite`; no other field changes |
| Profile.ProfilePage.HandleRemoveFavorite | src/pages/ProfilePage.jsx:77-82 | the list follows `RemoveFavorite`; no other field changes |
| Profile.ProfilePage.HandleAddPartnerFavorite | src/pages/ProfilePage.jsx:84-88 | the same add rule on the partner's separate list and input; no other field changes |
| Profile.ProfilePage.HandleRemovePartnerFavorite | src/pages/ProfilePage.jsx:90-92 | the same remove rule on the partner's separate list; no other field changes |
| Profile.ProfilePage.HandleInvite | src/pages/ProfilePage.jsx:137-156 | nothing is sent without an email and a first name; success sets the couple and message and resets the form to empty fields; failure shows the error and keeps the form; favourites, inputs and address never change |
| Dashboard.ComputeStats | src/pages/DashboardPage.jsx:41-45 | the counts are the lengths of the lists, and pending never exceeds the task count |
| Dashboard.PendingCountsOpenTasks | src/pages/DashboardPage.jsx:44 | pending is the number of tasks not completed, and it is zero exactly when every task is done |
| Dashboard.Recent | src/pages/DashboardPage.jsx:46-47 | the first three items in order, or all of them when there are fewer |
| Dashboard.AcceptedPartner | src/pages/DashboardPage.jsx:51-56 | a partner is set only for an accepted couple, and it is the member other than me |
| Dashboard.PartnerAfterFetch | src/pages/DashboardPage.jsx:51-56 | after a successful fetch the partner is the other member of an accepted couple, and is otherwise left as it was |
| Dashboard.AcceptedPartnerIsOther | src/pages/DashboardPage.jsx:51-56 | for an accepted couple of two distinct members including me, the partner set is not me |
| Dashboard.AddPayment | src/pages/DashboardPage.jsx:100-103 | the new payment goes in front of my list; the partner's list is untouched |
| Dashboard.RemovePayment | src/pages/DashboardPage.jsx:119-122 | every payment with that id leaves my list, each other one stays as often as it was, in order, and the partner's list is untouched |
| Dashboard.DeleteUndoesAdd | src/pages/DashboardPage.jsx:100-122 | deleting a payment just added (with a new id) restores both lists |
| Dashboard.NewUrlsOnlyUncached | src/pages/DashboardPage.jsx:136-143 | URLs are gathered only for QR payments with no usable cached URL |
| Dashboard.RequestedSource | src/pages/DashboardPage.jsx:136-143 | each requested storage key comes from a QR payment of the list with no usable cached URL, and names that payment |
| Dashboard.RequestedOnlyUncached | src/pages/DashboardPage.jsx:136-143 | view URLs are requested only for the storage keys of uncached QR payments |
| Dashboard.MergeQrUrls | src/pages/DashboardPage.jsx:145-147 | the merge keeps every cached key, and new URLs win |
| Dashboard.MergeKeepsCache | src/pages/DashboardPage.jsx:132-148 | a refresh never drops a cached key and never overwrites a usable cached URL |
| Dashboard.CollectQrUrls | src/pages/DashboardPage.jsx:136-143 | the loop yields exactly `NewUrls` and `Requested` of the payments |
| Dashboard.DashboardPage.constructor | src/pages/DashboardPage.jsx:14-30 | loading, zero counters, empty lists and cache, and the 'link' payment draft |
| Dashboard.DashboardPage.FetchDashboardData | src/pages/DashboardPage.jsx:32-62 | on success the counters, recent slices and payments are set from the reply, and the partner only for an accepted couple; loading ends either way; the payment form, QR state, cache and logs never change |
| Dashboard.DashboardPage.ApplyStats | src/pages/DashboardPage.jsx:41-45 | the counters become `ComputeStats` of the reply's tasks and links; no other field changes |
| Dashboard.DashboardPage.ApplyRecent | src/pages/DashboardPage.jsx:46-47 | the recent slices become the first three tasks and links of the reply; no other field changes |
| Dashboard.DashboardPage.ApplyCouple | src/pages/DashboardPage.jsx:48-56 | the payments are those of the reply, and the partner is set only for an accepted couple; no other field changes |
| Dashboard.DashboardPage.BeginSendKiss | src/pages/DashboardPage.jsx:64-67 | nothing while a send is in flight; otherwise the flag is raised and exactly one request goes out; no other field changes |
| Dashboard.DashboardPage.SettleSendKiss | src/pages/DashboardPage.jsx:68-74 | the result is announced (success with the kiss emoji exactly as the source file stores it, mis-encoded as four characters) and the flag is cleared whether the send succeeded or failed; no other field changes |
| Dashboard.KissInFlight | src/pages/DashboardPage.jsx:64-75 | a second press while the first kiss is in flight sends nothing, and the flag is down once the first settles |
| Dashboard.QrFileName | src/pages/DashboardPage.jsx:86 | the upload name is 'qr-', the clock reading, '-' and the file's name, in that order |
| Dashboard.QrUploadTrace | src/pages/DashboardPage.jsx:85-91 | the upload-URL request with that name, the file's MIME type and the 'image' folder comes first; the transfer of the file to the returned URL follows only when that request succeeded |
| Dashboard.QrUploadKey | src/pages/DashboardPage.jsx:85-92 | the stored value is the key of the upload-URL reply exactly when both calls succeed; otherwise the first failing call's error |
| Dashboard.DashboardPage.HandleAddPayment | src/pages/DashboardPage.jsx:77-113 | a QR payment with a file logs exactly `QrUploadTrace` and stores the key as the value, and fails as `QrUploadKey` says; success prepends the saved payment and resets the form; any failure is announced and changes neither list nor form; the dashboard data, partner, kiss state and cache never change |
| Dashboard.DashboardPage.AddSaved | src/pages/DashboardPage.jsx:100-106 | the saved payment goes in front of my list, and the form is closed and reset; no other field changes |
| Dashboard.DashboardPage.HandleDeletePayment | src/pages/DashboardPage.jsx:115-126 | nothing unless confirmed; then the id is sent to `deletePayment`, and `RemovePayment` follows, or the failure is announced; no other field changes |
| Dashboard.DashboardPage.FetchQrUrls | src/pages/DashboardPage.jsx:132-150 | runs only when loading is over: requests exactly the uncached QR keys of my payments then my partner's, and merges the new URLs without dropping any key; no other field changes |
| Todos.ReplaceById | src/pages/TodoPage.jsx:43 | exactly the tasks with that id are replaced, in place; the others keep position and value |
| Todos.RemoveById | src/pages/TodoPage.jsx:71 | every task with that id goes, and every other one stays as often as it was, in order |
| Todos.DeleteUndoesCreate | src/pages/TodoPage.jsx:46-47 | deleting a task just created (with a new id) restores the list |
| Todos.DeleteAfterEdit | src/pages/TodoPage.jsx:42-44 | editing then deleting a task leaves the same list as deleting it outright |
| Todos.EditForm | src/pages/TodoPage.jsx:77-85 | the form takes the task's fields; a missing description or date becomes '' |
| Todos.EditFormSubmittable | src/pages/TodoPage.jsx:36 | editing a task with a title and a date yields a form that passes the submit guard |
| Todos.TodoPage.constructor | src/pages/TodoPage.jsx:10-20 | the loaded list, an empty hidden form, not editing |
| Todos.TodoPage.ResetForm | src/pages/TodoPage.jsx:87-91 | empty fields, no `editingId`, a hidden form |
| Todos.TodoPage.HandleEdit | src/pages/TodoPage.jsx:77-85 | the form holds `EditForm` of the task, in edit mode for its id |
| Todos.TodoPage.HandleSubmit | src/pages/TodoPage.jsx:34-55 | ignored without a title and a date; in edit mode the task with `editingId` is replaced in place, otherwise the created task is prepended; success resets the form, failure keeps it and shows the message |
| Todos.TodoPage.HandleToggleComplete | src/pages/TodoPage.jsx:57-64 | sends the negated flag and replaces only the task with that id, or shows 'Failed to update task' |
| Todos.TodoPage.HandleDelete | src/pages/TodoPage.jsx:66-75 | nothing unless confirmed; then every task with that id goes, or 'Failed to delete task' is shown |
| Urls.RemoveById | src/pages/UrlsPage.jsx:53 | every link with that id goes, and every other one stays as often as it was, in order |
| Urls.DeleteUndoesCreate | src/pages/UrlsPage.jsx:38-53 | deleting a link just created (with a new id) restores the list |
| Urls.GetDomain | src/pages/UrlsPage.jsx:59-65 | the input is returned unchanged when URL parsing fails; otherwise the host with its first 'www.' deleted, or the host itself when it has none |
| Urls.GetDomainStripsPrefix | src/pages/UrlsPage.jsx:61 | a host starting with 'www.' loses exactly that prefix |
| Urls.GetDomainKeepsPlainHost | src/pages/UrlsPage.jsx:61 | a host without 'www.' is shown unchanged |
| Urls.GetDomainInnerOccurrence | src/pages/UrlsPage.jsx:61 | the removal is not only a prefix strip: 'a.www.b' is shown as 'a.b' |
| Urls.GetDomainFirstOnly | src/pages/UrlsPage.jsx:61 | only the first occurrence goes: 'www.www.x' is shown as 'www.x' |
| Urls.UrlsPage.constructor | src/pages/UrlsPage.jsx:9-15 | the loaded list and an empty hidden form |
| Urls.UrlsPage.HandleSubmit | src/pages/UrlsPage.jsx:29-46 | ignored without a url and a title; a created link is prepended and the form emptied and hidden, or the error is shown |
| Urls.UrlsPage.HandleDelete | src/pages/UrlsPage.jsx:48-57 | nothing unless confirmed; then every link with that id goes, or 'Failed to delete link' is shown |
| Media.MediaKind | src/pages/MediaPage.jsx:52-54 | 'video' exactly for a 'video/' MIME type, 'audio' exactly for an 'audio/' one, 'image' for everything else |
| Media.DetectKind | src/pages/MediaPage.jsx:52-54 | the if-chain yields exactly `MediaKind` of the MIME type |
| Media.FilteredMedia | src/pages/MediaPage.jsx:110-114 | exactly the items of the tab ('all' everything, 'photo' images, else that type), each as often as in the gallery, in order |
| Media.AllTabShowsEverything | src/pages/MediaPage.jsx:111 | the 'all' tab keeps every item unchanged |
| Media.UploadedItemVisible | src/pages/MediaPage.jsx:79-84 | an uploaded item heads the 'all' tab and is listed under the tab of its kind |
| Media.FileIcon | src/pages/MediaPage.jsx:104-108 | a film icon for video, a note for audio, a picture otherwise |
| Media.Badge | src/pages/MediaPage.jsx:238 | 'Photo' for images, and otherwise the type with its first letter capitalised and the rest unchanged |
| Media.KindsLabelled | src/pages/MediaPage.jsx:104-108 | every kind the upload assigns gets its own icon and the badge 'Video', 'Audio' or 'Photo' |
| Media.RemoveById | src/pages/MediaPage.jsx:98 | every item with that id goes, and every other one stays as often as it was, in order |
| Media.DeleteUndoesUpload | src/pages/MediaPage.jsx:79-98 | deleting an item just uploaded (with a new id) restores the gallery |
| Media.ViewUrlsKeys | src/pages/MediaPage.jsx:28-35 | loading view URLs keeps every key, adds one for each item whose URL request succeeds, and adds no other |
| Media.LoadViewUrls | src/pages/MediaPage.jsx:28-35 | the loop over the items leaves exactly `ViewUrls` of them: each item whose URL request succeeds gets its URL, all else is kept |
| Media.MediaPage.constructor | src/pages/MediaPage.jsx:9-20 | an empty gallery, tab 'all', no file, loading, no request sent |
| Media.MediaPage.FetchMedia | src/pages/MediaPage.jsx:22-41 | the gallery is replaced by the reply (or []), then the view-URL loop leaves exactly `ViewUrls` of the items; the list request and one view-URL request per item, in gallery order, are logged; failure shows 'Failed to load media' after the list request alone; loading ends either way; the form never changes |
| Media.UploadTrace | src/pages/MediaPage.jsx:55-78 | the upload-URL request with the file's name, MIME type and derived kind always goes out; the transfer follows only a presigned reply, the saved record (kind, title, key, MIME type, size) only a transfer, and the view-URL request for the same key only a saved record |
| Media.UploadOutcome | src/pages/MediaPage.jsx:55-88 | the upload succeeds exactly when all four calls do, with the saved item and its view URL; otherwise it fails with the first failing call's error |
| Media.UploadSavesUnderPresignedKey | src/pages/MediaPage.jsx:55-78 | a finished upload made all four calls, saving the record and asking its view URL under the key of the presigned reply, with the form's title and the MIME-derived kind |
| Media.ViewUrlRequests | src/pages/MediaPage.jsx:28-35 | one view-URL request per item, for its storage key, in gallery order |
| Media.MediaPage.SendUpload | src/pages/MediaPage.jsx:55-78 | the calls appended are exactly `UploadTrace`, and the result is exactly `UploadOutcome` |
| Media.MediaPage.HandleUpload | src/pages/MediaPage.jsx:43-91 | ignored without a file and a title, changing nothing; otherwise the calls sent are exactly `UploadTrace`, and the outcome is `UploadOutcome`: success prepends the item, stores its view URL, clears and hides the form and shows tab 'all'; failure shows the message or 'Upload failed' and keeps gallery, form and tab; loading never changes |
| Media.MediaPage.AddUploaded | src/pages/MediaPage.jsx:77-84 | the saved item goes in front, its view URL is stored under its id, the form is cleared and tab 'all' is shown; no other field changes |
| Media.MediaPage.HandleDelete | src/pages/MediaPage.jsx:93-102 | nothing unless confirmed; then the id is sent to `deleteMedia`, and every item with that id goes, or 'Failed to delete' is shown; the form and loading flag never change |
| Auth.StoreToken | src/context/AuthContext.jsx:54-56 | the token is written under 'token' only when the reply has one; other keys are kept |
| Auth.AuthProvider.IsAuthenticated | src/context/AuthContext.jsx:124 | authenticated exactly when a user is held |
| Auth.AuthProvider.constructor | src/context/AuthContext.jsx:15-17 | no user, loading, no error |
| Auth.AuthProvider.CheckAuth | src/context/AuthContext.jsx:24-34 | the user on success, none on failure; authenticated exactly on success; loading false either way |
| Auth.AuthProvider.Signup | src/context/AuthContext.jsx:36-45 | the error is cleared first; a failure records the message and is rethrown; the user is unchanged |
| Auth.AuthProvider.Login | src/context/AuthContext.jsx:67-76 | the same rule as `Signup`, for a login request |
| Auth.AuthProvider.ResendOtp | src/context/AuthContext.jsx:98-107 | the same rule as `Signup`, for a resend of the given type |
| Auth.AuthProvider.VerifySignupOtp | src/context/AuthContext.jsx:47-65 | success sets the user from the reply and stores the token only when there is one; failure keeps the user, records the message and rethrows |
| Auth.AuthProvider.VerifyLoginOtp | src/context/AuthContext.jsx:78-96 | the same rule as `VerifySignupOtp`, for a login verify |
| Auth.AuthProvider.Logout | src/context/AuthContext.jsx:109-118 | success removes the stored token and clears the user; failure keeps the user, sets the error and rethrows |
| Auth.UseAuth | src/context/AuthContext.jsx:6-12 | the provider's value inside a provider; the 'useAuth must be used within an AuthProvider' error outside one |
| Auth.SessionLifecycle | src/context/AuthContext.jsx:67-118 | login, a verify whose reply carries a user and a token, then logout: the session is open with the token stored in between, and closed with the token gone after |
| ProtectedRoute.Protect | src/components/ProtectedRoute.jsx:5-26 | a spinner exactly while loading; otherwise a replacing redirect to '/login' carrying the location for a visitor, or the children unchanged for a signed-in user |
| Login.From | src/pages/LoginPage.jsx:18 | the saved `from` path when present, '/dashboard' otherwise |
| Login.LoginPage.constructor | src/pages/LoginPage.jsx:11-18 | the email step with empty fields, and the return target from `From` |
| Login.LoginPage.HandleEmailSubmit | src/pages/LoginPage.jsx:20-35 | an empty email changes nothing, in the page or the session; otherwise the OTP step follows only a successful request, and a failure shows its message in the page and the session; loading ends either way; the resend flag, session user, storage and session loading flag never change |
| Login.LoginPage.HandleOtpSubmit | src/pages/LoginPage.jsx:37-52 | an empty code changes nothing, in the page or the session; success opens the session, clears the session error and navigates to `from` with replace; failure shows the message in the page and the session and keeps user and storage; the resend flag and session loading flag never change |
| Login.LoginPage.HandleResendOtp | src/pages/LoginPage.jsx:54-65 | asks for a new login code for the current email; a failure shows its message in the page and the session, success clears both; the resend flag ends down; nothing else changes |
| Login.LoginPage.UseDifferentEmail | src/pages/LoginPage.jsx:136-140 | back to the email step with the code and error cleared; the email, loading and resend flags and navigations are kept |
| Signup.WithField | src/pages/SignupPage.jsx:21-24 | that one field takes the value |
| Signup.WithFieldOnlyThatField | src/pages/SignupPage.jsx:21-24 | the edited field reads back the value and every other field is unchanged |
| Signup.BackForm | src/pages/SignupPage.jsx:164-167 | the email is kept and the code and names are emptied |
| Signup.SignupPage.constructor | src/pages/SignupPage.jsx:10-19 | the email step with an empty form |
| Signup.SignupPage.HandleChange | src/pages/SignupPage.jsx:21-24 | the form follows `WithField` and the error is cleared; step, flags and navigations are kept |
| Signup.SignupPage.HandleEmailSubmit | src/pages/SignupPage.jsx:26-41 | an empty email changes nothing, in the page or the session; otherwise the OTP step follows only a successful request, and a failure shows its message in the page and the session; the resend flag, session user, storage and session loading flag never change |
| Signup.SignupPage.HandleOtpSubmit | src/pages/SignupPage.jsx:43-63 | ignored unless the code and both names are present, changing nothing in the page or the session; success opens the session, clears the session error and navigates to '/dashboard' with replace; failure shows the message in the page and the session; the resend flag and session loading flag never change |
| Signup.SignupPage.HandleResendOtp | src/pages/SignupPage.jsx:65-76 | always asks for a 'signup' code for the current email; a failure shows its message in the page and the session, success clears both; nothing else changes |
| Signup.SignupPage.Back | src/pages/SignupPage.jsx:164-167 | the email step, with the code, names and error cleared; the email, loading and resend flags and navigations are kept |
| RequestsModal.AcceptErrorMessage | src/components/RequestsModal.jsx:51 | `response.data.error` if present, else the error's message, else the default text; never empty |
| RequestsModal.Modal.constructor | src/components/RequestsModal.jsx:11-14 | no requests, loading, nothing being accepted, closed |
| RequestsModal.Modal.FetchRequests | src/components/RequestsModal.jsx:23-39 | after a successful fetch the popup is open and visible exactly for a non-empty list; any other reply empties the list; a failed fetch changes neither |
| RequestsModal.Modal.OnUser | src/components/RequestsModal.jsx:17-21 | without a user nothing is fetched and nothing changes; with one, the fetch follows `FetchRequests` exactly; nothing is accepted, reloaded or alerted |
| RequestsModal.Modal.HandleAccept | src/components/RequestsModal.jsx:41-55 | marks the request as being accepted; success reloads the page, failure shows `AcceptErrorMessage` and clears the mark; requests, popup, loading flag and fetch count are kept |
| RequestsModal.Modal.Close | src/components/RequestsModal.jsx:100 | closes the popup without altering the requests or any other field |
| App.Route | src/App.jsx:20-88 | on the path with ASCII case folded and trailing slashes dropped: '/login' and '/signup' are public; the seven app pages are guarded; '/' and every other path redirect to '/dashboard' with replace |
| App.LowerAscii | src/App.jsx:20 | ASCII capitals fold to their small letters; every other character is kept |
| App.LowerPath | src/App.jsx:20 | the path folded character by character |
| App.DropTrailingSlashes | src/App.jsx:20 | a prefix of the path, cut only after slashes, that does not itself end in a slash |
| App.CanonicalPlain | src/App.jsx:22-75 | the paths of the table, written in small letters without a trailing slash, are their own canonical form |
| App.RouteIgnoresCase | src/App.jsx:20-88 | paths that differ only in the case of ASCII letters show the same thing |
| App.RouteIgnoresTrailingSlash | src/App.jsx:20-88 | a trailing slash does not change what a path shows |
| App.EachPathItsOwnPage | src/App.jsx:26-81 | two paths showing the same guarded page are the same table entry |
| App.EveryPageHasItsPath | src/App.jsx:26-81 | every page but the two public ones has its own protected path that shows it |
| App.Render | src/App.jsx:20-89 | public pages and redirects ignore the session; guarded pages go through the route guard |
| App.ProtectedPages | src/App.jsx:26-81 | each app page shows a spinner while loading, the page when signed in, and a replacing redirect to '/login' remembering the path otherwise |
| App.RedirectsSettle | src/App.jsx:84-87 | every redirect lands on the dashboard, which does not redirect again |
| App.LoginReturnsToRequestedPage | src/App.jsx:22-81 | a visitor sent to the public login page from an app page is taken back to that page once signed in |
| Text.Trim | src/pages/ProfilePage.jsx:41 | the result is no longer than the text and neither starts nor ends with white space; `TrimSlice` says which part of the text it is |
| Text.TrimSlice | src/pages/ProfilePage.jsx:41 | the trimmed text is one contiguous slice of the text, and everything cut off before and after it is white space |
| Text.TrimStartPadded | src/pages/ProfilePage.jsx:41 | leading white space before a non-blank character is exactly what is dropped at the start |
| Text.TrimEndPadded | src/pages/ProfilePage.jsx:41 | trailing white space after a non-blank character is exactly what is dropped at the end |
| Text.TrimPadded | src/pages/ProfilePage.jsx:41 | a non-empty trimmed core with white space around it trims to exactly that core |
| Text.Split | src/pages/ProfilePage.jsx:41 | there is always at least one piece, and no piece holds a newline or a comma |
| Text.TrimFixesTrimmed | src/pages/ProfilePage.jsx:41 | `trim` leaves exactly the trimmed strings alone, so it is idempotent |
| Text.TrimEmptyIffBlank | src/pages/ProfilePage.jsx:69 | the trimmed text is empty exactly when every character is white space |
| Text.SplitJoin | src/pages/ProfilePage.jsx:41 | splitting on newline or comma undoes joining separator-free pieces with any mix of newlines and commas |
| Text.SplitCovers | src/pages/ProfilePage.jsx:41 | every text is its pieces joined back with the newlines and commas it was cut at |
| Text.RemoveFirstSpec | src/pages/UrlsPage.jsx:61 | replacing with '' deletes exactly the first occurrence, and leaves a text without one unchanged |
| Text.IndexFrom | src/pages/UrlsPage.jsx:61 | the position found is the first occurrence of the pattern, and no position means no occurrence |
| Text.ReplaceFirstSpec | src/pages/UrlsPage.jsx:61 | a string pattern replaces only the first occurrence; with none the string is unchanged |
| Text.Capitalize | src/pages/MediaPage.jsx:238 | the first character is upper-cased and the rest kept |

## Left out

- The WebRTC internals (`RTCPeerConnection`, session descriptions, candidates, `getUserMedia`) are browser APIs. Descriptions and candidates are opaque values, and media acquisition yields a track array or fails.
- The body of `createPeerConnection` is not part of the source. It is modelled as installing a new connection for the peer, without closing the previous one.
- VideoCall.Call.HandleOffer: a failure of the first awaited step and a failure of the answer step are one outcome (no answer). The partial descriptions set before a rejection are not kept.
- The component mount of src/components/VideoCall.jsx (connect, wiring the listeners, calling `startCall`, and the cleanup on unmount) is not modelled beyond the individual handlers it wires. The remote track handler is the `remoteStream` field only.
- The video filters and every other JSX and CSS string are presentational and not modelled.
- The Socket.IO transport and relay server are library and server code. Emitting appends to a log, and a socket is an identity.
- The exported singleton of src/services/socketService.js is one `SocketService` object passed to its users.
- Concurrency and interleaving between handlers are not modelled. Each handler is one atomic step with its outcomes as parameters.
- Dashboard.DashboardPage.BeginSendKiss: `handleSendKiss` is split into the step before the await and the step after it, so that a second press in between can be stated.
- Dashboard.DashboardPage.FetchQrUrls: the effect's closure over the previous cache is not modelled; the merge is atomic over the cache as it stands.
- The HTTP service wrappers and the axios error interceptor are thin wrappers over `fetch`/axios. Each call is an outcome parameter, and the request logs hold the data each call sends.
- The read-only fetches of the dashboard (`fetchDashboardData`) are not logged: their replies are the outcome parameter, and they send no data.
- Dashboard.QrFileName: `Date.now()` is a clock; its decimal text is a parameter of `HandleAddPayment`.
- TicTacToe.Game: a game object stands for the rendered board only, so it is built once `GameScreen` is `Playing`; the placeholder has no state of its own to model.
- Urls.GetDomain: `new URL(url)` parsing is not modelled; the parsed hostname, or None when parsing throws, is a parameter.
- The initial `fetchTodos` and `fetchUrls` loads are not modelled: the page constructors take the loaded list.
- The `fetchCouple` call inside the profile effect is not modelled. The couple is a field set by the caller.
- The profile page's partner-edit save, partner removal and address save are not modelled. They are form submissions outside the favourites, partner-card and invite logic.
- `alert`, `confirm`, `window.location.reload`, the clipboard and `navigator.vibrate` are browser side effects. Alerts and reloads are logged in fields, and `confirm` is an input boolean.
- Local storage is a map.
- Date and locale formatting (`toLocaleDateString`, the ISO slice for the edit form) is not modelled. A task's `dateTime` is held already formatted.
- Text.UpperAscii: `toUpperCase` is modelled for ASCII letters only. Every other character is kept.
- Profile.FullName: a missing first name, which would print as "undefined", is not modelled. The first name is always a string.
- Media.MediaPage.HandleUpload: a reply without a `viewUrl` (stored as `undefined`) is not modelled. The view URL is always a string.
- Media.ViewUrls: a `getViewUrl` reply without a `viewUrl` is not modelled; the source would store `undefined` under the item's id. The view URL is always a string.
- Dashboard.NewUrls: a `getViewUrl` reply without a `viewUrl` is not modelled; the source would store `undefined`, which `!qrUrls[p._id]` then treats as not cached. The view URL is always a string.
- App.Route: the router's percent-decoding of the pathname, nested routes and route ranking are not modelled. The table's paths are plain, distinct and without parameters.
- The distance computation, geolocation watch and map of src/components/LocationTracker.jsx are floating-point and browser code, and not part of this model.
- src/components/BottomNav.jsx, src/pages/GamesPage.jsx and src/pages/VideoCallPage.jsx are presentational and not part of this model.

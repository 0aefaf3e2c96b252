# Viewcall frontend: a verified model in Dafny

Viewcall is a video-meeting web application whose React frontend has its own
logic for the following:

- voice-room bookkeeping;
- chat-list updaters;
- credential and form validation;
- a few selection, lookup and list operations.

This project models that logic in Dafny and proves what each part promises.

The media engine, the sockets and the backend belong to PeerJS, socket.io, the
browser and remote services. They appear here only as parameters and recorded
effects.

## What is modelled, and how

Each source file of the core has a module of its own:

- `Voice` for `hooks/useVoice.tsx`;
- `Chat` for `hooks/useChat.tsx`;
- `ResetPassword`, `SignIn`, `SignUp`, `ChangePassword` and `Profile` for the form pages;
- `PasswordHint` for `components/auth/UpdatePasswordButton.tsx`;
- `Favorites`, `MovieSection`, `CreateMeeting`, `ChatPanel`, `Navbar`, `KeyboardNavigation` and `AuthToken` for the rest.

Shared pieces are defined once:

- `Text`: JavaScript's white-space set, `trim`, line terminators and `String(n)`;
- `Patterns`: the regular-expression fragments;
- `Credentials`: the password and e-mail rules five pages repeat;
- `Videos`: `getBestVideoQuality`, written out identically in two files;
- `Seqs`: `Array.prototype.filter`;
- `Storage`: `localStorage` as a class holding a string map;
- `Options`: `null`, `undefined` and the outcome of a backend call.

Pure code, such as the regular expressions, the list updaters and the lookups, becomes functions and lemmas.

- Each regular expression is modelled twice:
  - as a matcher that follows the pattern token by token;
  - as a direct statement of what it accepts.
- A lemma then proves that the two agree on every input.

State that the source updates in place becomes a class, with a method per handler that states the whole new state.

- The voice session keeps its roster and its two maps keyed by peer id.
- The page components keep their React state.
- `localStorage` is the `Storage` class.

An `async` handler is split at its `await`:

- a `...Begin` method validates and returns the request it would send;
- a `...Finished` method takes the backend's outcome (`Outcome<T>`, a value or an error whose message may be missing) and applies what the page does with it.

`alert`, `navigate` and socket emits are returned or recorded as values.

The JavaScript idioms are modelled as follows:

- `x || fallback` on strings is `Options.MessageOr`: an empty message falls back too.
- `${error.message}` prints `undefined` for a missing message.
- A `push` under a condition is `Option.ToSeq` appended to the list.
- The voice hook keeps the `localStream` state and `localStreamRef` together. Both are assigned the same stream at every point where the hook sets them.

In the following places the code does something other than what the page evidently sets out to do. The model follows the code.

- `changePassword` is called with an empty e-mail (`src/pages/changePassword.tsx:50`).
- Logout removes the `token` key, not the `viewcall_token` key that the token service writes (`Navbar.LogoutKeepsServiceToken`).
- The strength hint's "special" rule counts any character outside [0-9a-zA-Z]. The shared password rule accepts only the listed specials, so the hint can show every rule met for a password the rule rejects (`PasswordHint.AllMetYetRejected`).
- On profile save, the form's last name is merged into `userData` under a new `lastname` key, and `userData.apellido` keeps its loaded value (`Profile.MergeFromForm`). The page renders only `formData`, so the screen shows the edited last name; nothing on the page reads `userData`.

## Model

| member | source | states |
|---|---|---|
| AuthToken.AfterSet | src/services/authToken.ts:11-15 | a present, non-blank token is stored under "viewcall_token" trimmed; any other token removes that key; every other key is kept |
| AuthToken.SetReadBackIdempotent | src/services/authToken.ts:4-18 | storing again the token read back after a set leaves storage as it is: a stored token is trimmed and never blank |
| AuthToken.AuthTokenService.GetAuthToken | src/services/authToken.ts:4-7 | outside a window the result is null; inside, it is the stored value, null exactly when the key is missing |
| AuthToken.AuthTokenService.SetAuthToken | src/services/authToken.ts:9-18 | outside a window nothing changes; inside, storage becomes AfterSet of the old storage and exactly one change event is dispatched, whether it stored or removed |
| Storage.LocalStorage.GetItem | src/services/authToken.ts:6 | `getItem` is null exactly for a missing key and otherwise the stored string |
| Storage.LocalStorage.SetItem | src/services/authToken.ts:12 | `setItem` sets that key and leaves every other key as it was |
| Storage.LocalStorage.RemoveItem | src/services/authToken.ts:14 | `removeItem` removes that key and leaves every other key as it was |
| Storage.LocalStorage.constructor | src/services/authToken.ts:6 | the storage holds exactly the map it is opened with |
| Options.MessageOr | src/pages/sign_in.tsx:118 | `message \|\| fallback`: the message when it is present and non-empty, otherwise the fallback |
| Options.Option.GetOr | src/hooks/useChat.tsx:60 | `x \|\| fallback` on an optional value: the value when present, otherwise the fallback |
| Chat.FindById | src/hooks/useChat.tsx:71 | `find` by id is absent exactly when no user has the id; when present it is a listed user with that id |
| Chat.OnTyping | src/hooks/useChat.tsx:69-76 | typing=true appends the user itself, as the one new last entry, exactly when its id is absent, and otherwise returns the list unchanged; typing=false removes every entry with that id and keeps all the others in their order |
| Chat.OnTypingKeepsIdsUnique | src/hooks/useChat.tsx:69-76 | the typing updater keeps the typing-user ids unique |
| Chat.SubsequenceKeepsUniqueIds | src/hooks/useChat.tsx:74 | an order-preserving selection of a list with unique ids has unique ids |
| Chat.SubsequenceMembers | src/hooks/useChat.tsx:74 | every element of an order-preserving selection is an element of the list |
| Chat.StartThenStopTyping | src/hooks/useChat.tsx:69-76 | starting and then stopping typing leaves the list as stopping alone would |
| Chat.OnReceive | src/hooks/useChat.tsx:56-57 | a received message is appended at the end; the earlier messages are unchanged |
| Chat.OnRoomHistory | src/hooks/useChat.tsx:59-60 | room history replaces the list; a missing history gives the empty list |
| Chat.ChatSession.constructor | src/hooks/useChat.tsx:27-30 | the hook starts disconnected with empty messages, typing users and room users |
| Chat.ChatSession.OnConnect | src/hooks/useChat.tsx:49-52 | connect sets connected and emits joinRoom exactly when a non-empty room id was given |
| Chat.ChatSession.OnDisconnect | src/hooks/useChat.tsx:54 | disconnect clears connected and changes nothing else |
| Chat.ChatSession.Receive | src/hooks/useChat.tsx:56-57 | the messages become OnReceive of the old messages; nothing else changes |
| Chat.ChatSession.RoomHistory | src/hooks/useChat.tsx:59-60 | the messages become OnRoomHistory of the history; nothing else changes |
| Chat.ChatSession.TypingEvent | src/hooks/useChat.tsx:62-77 | the typing users become OnTyping of the old list, and their ids stay unique |
| Chat.ChatSession.SendText | src/hooks/useChat.tsx:111-114 | blank or whitespace-only text emits nothing; other text emits one sendMessage with the room, the text, the given meta and the recipient |
| Chat.ChatSession.SendTyping | src/hooks/useChat.tsx:119-121 | emits one typing event with the room and the flag |
| Chat.ChatSession.FetchHistoryFinished | src/hooks/useChat.tsx:126-139 | a reply replaces the messages, an absent list empties them, and the reply itself is returned; a failure changes nothing and returns null |
| Chat.ChatSession.RequestRoomUsers | src/hooks/useChat.tsx:144-146 | emits one getRoomUsers for the room |
| Chat.ChatSession.RoomUsersReply | src/hooks/useChat.tsx:146-148 | usersInRoom and the resolved value are both `res.users`, or empty when it is absent |
| Options.Option.ToSeq | src/pages/reset_password.tsx:60-81 | a conditional `push` adds one element when there is a value and nothing otherwise |
| Text.TrimStart | src/hooks/useChat.tsx:112 | drops exactly a leading run of white space: the result is a suffix that starts with non-white space or is empty |
| Text.TrimEnd | src/hooks/useChat.tsx:112 | drops exactly a trailing run of white space: the result is a prefix that ends with non-white space or is empty |
| Text.Trim | src/services/authToken.ts:11-12 | `trim()` leaves no white space at either end |
| Text.TrimSlice | src/services/authToken.ts:11-12 | `trim()` keeps one contiguous slice and removes only white space around it |
| Text.BlankIffAllWhitespace | src/hooks/useChat.tsx:112 | `!text.trim()` holds exactly when every character is white space |
| Text.NonWhitespaceMeansNotBlank | src/components/meeting/ChatPanel.tsx:9 | one non-white-space character makes a text non-blank |
| Text.TrimIdempotent | src/services/authToken.ts:12 | trimming twice is trimming once |
| Text.CountChar | src/pages/sign_in.tsx:57-58 | the count of a character is at most the length and is zero exactly when the character is absent |
| Text.CountCharAppend | src/pages/sign_in.tsx:57-58 | counting over a concatenation adds the counts of the parts |
| Text.PrefixBefore | src/pages/profile.tsx:347-351 | `split(c)[0]` is a prefix without `c`; it is shorter than the text exactly when `c` occurs, and then `c` follows it |
| Text.PrefixBeforeAppend | src/pages/profile.tsx:347-351 | the part before the first `c` of `a + b` is `a` when `a` has no `c` and `b` starts with one |
| Text.SuffixAfter | src/pages/sign_in.tsx:57-58 | when `c` occurs, the text is the part before it, `c`, and this part |
| Text.NatToString | src/pages/favorites.tsx:192 | `String(n)` is a non-empty run of decimal digits with no leading zero except for 0 |
| Text.DigitChar | src/pages/favorites.tsx:192 | a digit value is written as an ASCII digit |
| Text.DigitValue | src/pages/favorites.tsx:192 | reading an ASCII digit gives a value below ten that is written as that digit |
| Text.NatToStringRoundTrip | src/pages/favorites.tsx:192 | reading back the decimal digits of `n` gives `n` |
| Text.NatToStringInjective | src/pages/favorites.tsx:192 | different counts are written differently |
| Seqs.Filter | src/hooks/useChat.tsx:74 | `filter` keeps exactly the elements that pass and never lengthens the list |
| Seqs.FilterCounts | src/hooks/useChat.tsx:74 | every element that passes survives as often as it occurred; the others are gone |
| Seqs.FilterIsSubsequence | src/pages/favorites.tsx:127 | `filter` keeps the surviving elements in their original order |
| Seqs.FilterAllKept | src/pages/favorites.tsx:127 | filtering when every element passes returns the list unchanged |
| Seqs.FilterAppend | src/hooks/useChat.tsx:74 | filtering a concatenation filters each part |
| Patterns.TestIffOccurs | src/components/auth/UpdatePasswordButton.tsx:34-37 | `/[k]/.test(s)` holds exactly when some character of `s` is in class `k` |
| Patterns.Test | src/components/auth/UpdatePasswordButton.tsx:34-37 | `/[k]/.test(s)`, tried from the left; Patterns.TestIffOccurs states what it finds |
| Patterns.LookaheadIffOccurs | src/pages/reset_password.tsx:48-49 | a lookahead `(?=.*[k])` that succeeds found a character of `k`; without line terminators, finding one is also enough |
| Patterns.DotsToEndIff | src/pages/reset_password.tsx:48-49 | `.{n,}$` from the start holds exactly when there are at least `n` characters and none is a line terminator |
| Credentials.ValidarContrasena | src/pages/reset_password.tsx:47-51 | the password pattern accepts exactly the texts of eight or more characters with no line terminator, at least one A-Z and at least one listed special |
| Credentials.PasswordPattern | src/pages/reset_password.tsx:47-51 | the password pattern token by token: two lookaheads, then `.{8,}$`; Credentials.ValidarContrasena states what it accepts |
| Credentials.ValidarEmail | src/pages/sign_in.tsx:57-58 | the e-mail pattern accepts exactly the texts with no white space, one `@`, a non-empty part before it and a `.` inside the domain, neither first nor last |
| Credentials.SingleAt | src/pages/sign_in.tsx:57-58 | with exactly one `@`, no other position holds an `@` |
| Credentials.PatternGivesWellFormed | src/pages/sign_in.tsx:57-58 | every match of the e-mail pattern is a well-formed address |
| Credentials.WellFormedGivesPattern | src/pages/sign_in.tsx:57-58 | every well-formed address has a match of the e-mail pattern |
| Credentials.EmailPatternIffWellFormed | src/pages/sign_in.tsx:57-58 | the e-mail pattern and the well-formedness statement agree on every input |
| Credentials.EmailPattern | src/pages/sign_in.tsx:57-58 | the e-mail pattern as three runs around an `@` and a `.`; Credentials.EmailPatternIffWellFormed states what it accepts |
| Credentials.LineTerminatorFails | src/pages/sign_in.tsx:70-73 | a password with a line terminator anywhere fails the rule |
| Credentials.BacktickAndTildeNotSpecial | src/pages/changePassword.tsx:28-29 | the backtick and the tilde are not in the special class |
| PasswordHint.Evaluate | src/components/auth/UpdatePasswordButton.tsx:30-38 | an empty password gives nothing; otherwise each flag holds exactly when its class occurs, and the length flag exactly when there are eight or more characters |
| PasswordHint.RenderMarksOwnRule | src/components/auth/UpdatePasswordButton.tsx:40-93 | a non-empty password renders five items, and item `i` depends only on rule `i`'s flag and label |
| PasswordHint.Render | src/components/auth/UpdatePasswordButton.tsx:40-93 | the rendered rule list, absent for an empty password; PasswordHint.RenderMarksOwnRule and PasswordHint.LineShowsMet state what each item shows |
| PasswordHint.LineShowsMet | src/components/auth/UpdatePasswordButton.tsx:44-51 | an item shows the check mark and the "met" class exactly when its rule is met |
| PasswordHint.StrongMeetsHintRules | src/components/auth/UpdatePasswordButton.tsx:34-38 | a password the shared rule accepts meets the hint's uppercase, special and length rules |
| PasswordHint.AllMetYetRejected | src/components/auth/UpdatePasswordButton.tsx:37 | "Abcdefg1~" meets all five hint rules and is still rejected by the shared rule |
| ResetPassword.ResetErrorsReportEachCase | src/pages/reset_password.tsx:60-81 | "required" only for an empty field; strength only for a non-empty weak password; mismatch only for a non-empty differing confirmation; the token error exactly without a token |
| ResetPassword.ResetErrors | src/pages/reset_password.tsx:60-81 | the errors the submit handler collects, in push order; ResetPassword.ResetErrorsReportEachCase and ResetPassword.ResetErrorsOrderAndBound state when each appears |
| ResetPassword.ResetErrorsOrderAndBound | src/pages/reset_password.tsx:60-81 | at most three errors, new password first and token last; none exactly when the password is strong, matched and the token present |
| ResetPassword.ResetPasswordPage.constructor | src/pages/reset_password.tsx:35-40 | a missing or empty token in the link leaves no token and the single "Token inválido o ausente." error |
| ResetPassword.ResetPasswordPage.ManejarSubmit | src/pages/reset_password.tsx:58-94 | any error is shown, the message cleared and no request sent; a clean form starts loading and sends the token and new password |
| ResetPassword.ResetPasswordPage.ResetFinished | src/pages/reset_password.tsx:96-107 | success sets the success message, empties the errors and redirects to /sign_in; failure lists the error's message alone; loading ends |
| SignIn.SignInErrorsCases | src/pages/sign_in.tsx:88-98 | at most two errors, the e-mail's first; each message only in its own case; none exactly when the address is well formed and the password strong |
| SignIn.SignInErrors | src/pages/sign_in.tsx:88-98 | the errors the submit handler collects, in push order; SignIn.SignInErrorsCases states when each appears |
| SignIn.SignInPage.ManejarSubmit | src/pages/sign_in.tsx:85-109 | with any error, the errors are shown, loading is untouched and nothing is sent; otherwise loading starts, the errors are cleared and the credentials sent |
| SignIn.SignInPage.LoginFinished | src/pages/sign_in.tsx:108-121 | success stores "token" and "userId", greets and goes to /home; failure sets exactly one error, the message or "Credenciales inválidas."; loading ends |
| SignUp.FieldRules | src/pages/sign_up.tsx:82-215 | a name or last name is flagged exactly under three characters; the e-mail exactly when it is not well formed; the password exactly when it is not strong; the confirmation exactly when it differs |
| SignUp.SignUpPage.constructor | src/pages/sign_up.tsx:14-26 | every field starts empty, with no custom message and the confirmation consistent |
| SignUp.SignUpPage.OnNameChange | src/pages/sign_up.tsx:82-91 | stores the name and sets its message to the name rule's verdict after clearing it; every other field and message is unchanged |
| SignUp.SignUpPage.OnLastNameChange | src/pages/sign_up.tsx:105-114 | stores the last name and sets its message to the last-name rule's verdict; nothing else changes |
| SignUp.SignUpPage.OnEmailChange | src/pages/sign_up.tsx:129-140 | stores the e-mail and sets its message to the e-mail rule's verdict; nothing else changes |
| SignUp.SignUpPage.OnBirthdateChange | src/pages/sign_up.tsx:155-158 | stores the date and clears its message; nothing else changes |
| SignUp.SignUpPage.OnPasswordChange | src/pages/sign_up.tsx:172-184 | stores the password and sets its message to the password rule's verdict; the confirmation's message is left as it was |
| SignUp.SignUpPage.OnPasswordChangeRechecked | src/pages/sign_up.tsx:172-184 | as OnPasswordChange, and the confirmation's message is recomputed against the new password, so the confirmation stays consistent |
| SignUp.SignUpPage.OnConfirmChange | src/pages/sign_up.tsx:208-215 | stores the confirmation and flags it exactly when it differs from the current password |
| SignUp.SignUpPage.ManejarSubmit | src/pages/sign_up.tsx:28-39 | clears the errors and sends the trimmed e-mail with every other field unchanged |
| SignUp.SignUpPage.RegisterFinished | src/pages/sign_up.tsx:41-46 | success alerts "¡Registro exitoso!" and goes to /sign_in; failure sets exactly one error, the message or "Error en el registro" |
| SignUp.StaleConfirmationWitness | src/pages/sign_up.tsx:172-215 | password "Abcdefg!", the same confirmation, then password "Xbcdefg!": the passwords differ and no input carries a message |
| SignUp.FilledPage | src/pages/sign_up.tsx:82-158 | a form filled with a valid name, last name, e-mail and date carries no custom message |
| SignUp.RecheckedConfirmationWitness | src/pages/sign_up.tsx:172-215 | with the rechecking handler the same edits leave the confirmation flagged |
| SignUp.StrongWitness | src/pages/sign_up.tsx:176-177 | eight characters with no line terminator, a leading capital and a final `!` pass the password rule |
| ChangePassword.WithFieldLaws | src/pages/changePassword.tsx:23-24 | the spread sets the named field and keeps the others; writing one field twice keeps the second value; writing back a field's own value changes nothing |
| ChangePassword.FirstErrorCases | src/pages/changePassword.tsx:31-47 | the missing-field error exactly when a field is empty; the mismatch for filled fields that differ, whatever their strength; the strength error only for a confirmed weak password; none exactly when the request can be made |
| ChangePassword.ChangePasswordPage.constructor | src/pages/changePassword.tsx:9-21 | the form starts with three empty fields and no error |
| ChangePassword.ChangePasswordPage.HandleChange | src/pages/changePassword.tsx:23-26 | only the named field takes the value, and the error is cleared |
| ChangePassword.ChangePasswordPage.HandleSubmit | src/pages/changePassword.tsx:31-50 | the first failing check sets the error and sends nothing; with none the request carries an empty e-mail, the current and the new password |
| ChangePassword.ChangePasswordPage.SubmitFinished | src/pages/changePassword.tsx:49-56 | success alerts "Contraseña actualizada correctamente" and goes to /profile; failure shows the message or "Error al actualizar contraseña" |
| Profile.ToggledFlipsOnlyThatField | src/pages/profile.tsx:154-156 | the toggle flips the chosen visibility flag only, and toggling it twice restores it |
| Profile.PasswordErrorCases | src/pages/profile.tsx:166-177 | no error when both password fields are empty; the mismatch exactly when they differ, whatever their strength; the strength error only for a confirmed weak password; a password is sent only when confirmed and strong |
| Profile.PasswordError | src/pages/profile.tsx:166-177 | the password checks of the save handler; Profile.PasswordErrorCases states when each error appears |
| Profile.MergeFromForm | src/pages/profile.tsx:184-192 | the merged profile has the form's user name, e-mail and birth date and keeps its id; the form's last name goes under `lastname` and `userData.apellido` keeps its loaded value; a second merge of the same data changes nothing |
| Profile.Merge | src/pages/profile.tsx:184-192 | `{ ...userData, ...updatedInfo }`; Profile.MergeFromForm states which fields it changes |
| Profile.BirthdateDisplay | src/pages/profile.tsx:347-351 | the shown date is a prefix of the stored value with no `T` in it |
| Profile.BirthdateDisplayParts | src/pages/profile.tsx:347-351 | an ISO timestamp is shown as its date part, and a plain date is shown unchanged |
| Profile.ProfilePage.constructor | src/pages/profile.tsx:49-80 | the loaded profile starts as both `userData` (which nothing renders) and the edited `formData`, which the inputs show; the password fields and error start empty and both fields hidden |
| Profile.ProfilePage.HandlePasswordChange | src/pages/profile.tsx:143-147 | only the named password field takes the value, and the error is cleared |
| Profile.ProfilePage.TogglePasswordVisibility | src/pages/profile.tsx:154-156 | the visibility flags become Toggled of the old ones; nothing else changes |
| Profile.ProfilePage.HandleSave | src/pages/profile.tsx:163-200 | a password error stops the save before any call; a typed password is sent first with an empty current password, then the profile update; the first failing call alerts and leaves the data unchanged; full success merges the profile and clears the password fields and error |
| Videos.FindHd | src/pages/favorites.tsx:95 | `find` for quality "hd" is absent exactly when no file is "hd"; when present it is the first "hd" file |
| Videos.BestVideoQuality | src/pages/favorites.tsx:94-97 | the first "hd" file's link; with no "hd" file, the first file's link; for no files, the empty string |
| Videos.FirstHdUnique | src/pages/favorites.tsx:95 | there is only one first "hd" position |
| Videos.BestQualityIsAFileLink | src/components/MovieSection.tsx:111-114 | for a non-empty list the chosen link belongs to one of the files, and to an "hd" file whenever there is one |
| Videos.BestQualityIgnoresLaterFiles | src/components/MovieSection.tsx:111-114 | once a list has an "hd" file, files appended after it do not change the choice |
| Favorites.TransformAll | src/pages/favorites.tsx:62-79 | the transform keeps length and order and turns each record into its video |
| Favorites.ToVideoRoundTrip | src/pages/favorites.tsx:62-79 | a transformed favorite's id is `video_id`, its best-quality link is `video_url`, and the record can be read back from it |
| Favorites.ToVideo | src/pages/favorites.tsx:62-79 | one favorite as a video with a single "hd" mp4 file; Favorites.ToVideoRoundTrip states that it loses nothing |
| Favorites.TransformAllRoundTrip | src/pages/favorites.tsx:62-79 | every record of the list reads back from its transformed video, in order |
| Favorites.WithoutVideoRemovesOnlyThatId | src/pages/favorites.tsx:127 | removal leaves no entry with that id, keeps every other entry, and keeps their order |
| Favorites.WithoutVideo | src/pages/favorites.tsx:127 | `prev.filter(v => v.id !== videoId)`; Favorites.WithoutVideoRemovesOnlyThatId and Favorites.WithoutAbsentVideo state what it keeps |
| Favorites.WithoutAbsentVideo | src/pages/favorites.tsx:127 | removing an id no entry has changes nothing |
| Favorites.CountLabelForms | src/pages/favorites.tsx:192 | the singular "1 película guardada" appears exactly for one favorite; every other count gets both plural words |
| Favorites.CountLabel | src/pages/favorites.tsx:192 | the header count; Favorites.CountLabelForms, Favorites.CountLabelInjective and Favorites.CountLabelStartsWithCount state its forms |
| Favorites.CountLabelInjective | src/pages/favorites.tsx:192 | different counts give different labels |
| Favorites.CountLabelStartsWithCount | src/pages/favorites.tsx:192 | the label's text before the first space is the count |
| Favorites.StoredUserId | src/pages/favorites.tsx:52-53 | `!userId` fails exactly for a stored, non-empty user id, which is then the value |
| Favorites.RemovalRequests | src/pages/favorites.tsx:152-154 | one removal per listed favorite, for that user and that favorite's id, in list order |
| Favorites.FavoritesPage.constructor | src/pages/favorites.tsx:40-43 | the page starts loading with no favorites and no error |
| Favorites.FavoritesPage.LoadFavoritesBegin | src/pages/favorites.tsx:52-59 | without a user id it shows the login error and stops loading; otherwise it asks for that user's favorites and changes nothing yet |
| Favorites.FavoritesPage.LoadFavoritesFinished | src/pages/favorites.tsx:59-87 | success shows the transformed records; failure shows the message or "Error al cargar favoritos"; loading ends |
| Favorites.FavoritesPage.RemoveFavoriteBegin | src/pages/favorites.tsx:113-124 | without a user id it alerts "Debes iniciar sesión" and sends nothing; otherwise it sends the user id and video id |
| Favorites.FavoritesPage.RemoveFavoriteFinished | src/pages/favorites.tsx:124-132 | success drops every entry with that id; failure keeps the list and alerts the message or the generic one |
| Favorites.FavoritesPage.ClearAllBegin | src/pages/favorites.tsx:139-156 | nothing without confirmation; an alert without a user id; otherwise one removal per listed favorite, in list order |
| Favorites.FavoritesPage.ClearAllFinished | src/pages/favorites.tsx:156-164 | success leaves the list empty; failure keeps it and alerts the message or the generic one |
| MovieSection.SearchQueryCases | src/components/MovieSection.tsx:64-72 | the four section titles get nature, popular, technology and ocean; any other title gets nature; every query is non-empty lower-case ASCII |
| MovieSection.EndpointChoice | src/components/MovieSection.tsx:81-84 | "Más populares" uses the popular endpoint and only it does; every other title searches with its mapped query after the fixed prefix |
| MovieSection.SearchQuery | src/components/MovieSection.tsx:64-72 | `queryMap[title] \|\| "nature"`; its cases are stated in MovieSection.SearchQueryCases |
| MovieSection.Endpoint | src/components/MovieSection.tsx:79-84 | the path a section requests; its two cases are stated in MovieSection.EndpointChoice |
| MovieSection.ShownVideos | src/components/MovieSection.tsx:96 | the shown videos are the first six results at most, in order; a response without a list shows none |
| MovieSection.IsFavorite | src/components/MovieSection.tsx:146 | a video is a favorite exactly when its id occurs in the favorites list |
| MovieSection.MovieSectionState.constructor | src/components/MovieSection.tsx:53-57 | a section starts loading, with no videos, no error and no toggle in progress |
| MovieSection.MovieSectionState.FetchBegin | src/components/MovieSection.tsx:79-89 | loading starts, the error is cleared and the section's endpoint is requested |
| MovieSection.MovieSectionState.FetchFinished | src/components/MovieSection.tsx:91-101 | success keeps at most six videos; failure shows "Error loading videos: " and the message; loading ends |
| MovieSection.MovieSectionState.ToggleBegin | src/components/MovieSection.tsx:133-137 | a click on the video already in progress is ignored; any other click marks that video and calls the parent |
| MovieSection.MovieSectionState.ToggleFinished | src/components/MovieSection.tsx:138-142 | after the call, resolved or rejected, no toggle is in progress |
| CreateMeeting.CreateMeetingPage.constructor | src/pages/createMeeting.tsx:15-24 | the form starts with every field empty and no participants |
| CreateMeeting.CreateMeetingPage.SetMeetingName | src/pages/createMeeting.tsx:78 | `meetingName` takes the typed value; every other field is unchanged |
| CreateMeeting.CreateMeetingPage.SetMeetingDate | src/pages/createMeeting.tsx:91 | `meetingDate` takes the typed value; every other field is unchanged |
| CreateMeeting.CreateMeetingPage.SetMeetingTime | src/pages/createMeeting.tsx:104 | `meetingTime` takes the typed value; every other field is unchanged |
| CreateMeeting.CreateMeetingPage.SetNewParticipant | src/pages/createMeeting.tsx:120 | `newParticipant` takes the typed value; every other field is unchanged |
| CreateMeeting.CreateMeetingPage.HandleAddParticipant | src/pages/createMeeting.tsx:31-37 | a blank or whitespace-only entry changes nothing; otherwise the entry, untrimmed, is appended after every earlier participant and the input cleared |
| CreateMeeting.CreateMeetingPage.HandleCreateMeeting | src/pages/createMeeting.tsx:39-59 | a missing name, date or time raises "Completa todos los campos." and creates nothing; otherwise the meeting is built from the form, the code and the creation time, and the page goes to "/meeting/" and the code |
| ChatPanel.ChatPanelState.constructor | src/components/meeting/ChatPanel.tsx:5-6 | the panel starts with no messages and an empty input |
| ChatPanel.ChatPanelState.SetInput | src/components/meeting/ChatPanel.tsx:6 | the input takes the typed value; the messages are unchanged |
| ChatPanel.ChatPanelState.Send | src/components/meeting/ChatPanel.tsx:8-12 | a blank input changes nothing; otherwise the untrimmed input becomes the one new last message and the input is emptied |
| Navbar.RouteTitleIdentifiesRoute | src/components/Navbar.tsx:41-55 | each of the seven listed paths gets its own title, never the default; every other path gets "Leaderflix \| Entertainment Platform"; different listed paths get different titles |
| Navbar.RouteTitle | src/components/Navbar.tsx:41-54 | `titles[pathname] \|\| default`; what it yields is stated in Navbar.RouteTitleIdentifiesRoute |
| Navbar.TitlesDiffer | src/components/Navbar.tsx:42-50 | no two listed routes share a title |
| Navbar.UpperAscii | src/components/Navbar.tsx:73 | upper-casing keeps the length and raises exactly the ASCII lower-case letters |
| Navbar.WithoutMNotMac | src/components/Navbar.tsx:73 | a platform name with no m in either case (such as "Win32") is never taken for macOS |
| Navbar.IsMacPlatform | src/components/Navbar.tsx:73 | "MAC" occurs in the upper-cased platform name; Navbar.WithoutMNotMac and Navbar.StartsWithMac state which names qualify |
| Navbar.StartsWithMac | src/components/Navbar.tsx:73 | a platform name starting with "mac" in any letter case counts as macOS |
| Navbar.ShortcutTarget | src/components/Navbar.tsx:72-88 | with the platform's modifier held (meta on macOS, Alt elsewhere), H, P, A and M in either case go to /home, /profile, /about and /favorites; nothing else navigates |
| Navbar.LowerAscii | src/components/Navbar.tsx:76 | lower-casing keeps the length and lowers exactly the ASCII capitals |
| Navbar.BoolStringRoundTrip | src/components/Navbar.tsx:33-35 | a stored switch value reads back as "true" exactly when it was on |
| Navbar.LogoutKeepsServiceToken | src/components/Navbar.tsx:60-63 | logout removes "token", so a token stored under "viewcall_token" is still there afterwards |
| Navbar.NavbarState.constructor | src/components/Navbar.tsx:33-35 | the switch starts on exactly when the stored value is the string "true" |
| Navbar.NavbarState.ToggleShortcuts | src/components/Navbar.tsx:98-102 | the switch flips and its new value is stored as "true" or "false" under "shortcutsEnabled" |
| Navbar.NavbarState.HandleKeyDown | src/components/Navbar.tsx:69-93 | with the switch off no key is handled; with it on the navigation is ShortcutTarget's, and the default action is prevented exactly when a route was chosen |
| Navbar.NavbarState.HandleLogout | src/components/Navbar.tsx:60-63 | removes "token" alone from storage and goes to /sign_in |
| KeyboardNavigation.NavigationsAtMostOne | src/hooks/useKeyboardNavigation.tsx:16-18 | at most one of the three checks fires; exactly Alt with "h", "p" or "a" navigates, case-sensitively, to /home, /profile or /about |
| KeyboardNavigation.Navigations | src/hooks/useKeyboardNavigation.tsx:16-18 | the navigations of the three independent checks, in order; KeyboardNavigation.NavigationsAtMostOne states that at most one fires and which |
| KeyboardNavigation.KeyboardNavigation.constructor | src/hooks/useKeyboardNavigation.tsx:9 | navigation starts disabled |
| KeyboardNavigation.KeyboardNavigation.ToggleNavigation | src/hooks/useKeyboardNavigation.tsx:25 | the flag is negated |
| KeyboardNavigation.KeyboardNavigation.HandleKeyDown | src/hooks/useKeyboardNavigation.tsx:12-19 | while disabled no key is handled; while enabled the navigations are exactly the ones the three checks give |
| Voice.Call.Answer | src/hooks/useVoice.tsx:104 | an answered call carries the given stream and stays open |
| Voice.Call.Close | src/hooks/useVoice.tsx:199 | a closed call keeps the stream it answered with |
| Voice.Peer.PlaceCall | src/hooks/useVoice.tsx:148 | `peer.call` gives a new open call to that peer carrying the stream |
| Voice.Peer.Destroy | src/hooks/useVoice.tsx:211 | the peer is destroyed |
| Voice.PeersToCall | src/hooks/useVoice.tsx:254-258 | the ids called on existing-users are exactly the listed peer ids other than one's own, at most one per listed user |
| Voice.EnableAudio | src/hooks/useVoice.tsx:69-71 | every audio track of the stream gets `enabled` set to the value; other tracks and every track's stopped state are unchanged |
| Voice.StopAll | src/hooks/useVoice.tsx:202-204 | every track of the stream is stopped, and no track's `enabled` changes |
| Voice.CloseAll | src/hooks/useVoice.tsx:199 | every registered call is closed |
| Voice.Remaining | src/hooks/useVoice.tsx:268 | after user-left the roster holds exactly the entries with another socket id, in their old order |
| Voice.VoiceSession.constructor | src/hooks/useVoice.tsx:35-43 | the session starts disconnected, with nothing registered, no stream, no peer, and the microphone as requested |
| Voice.VoiceSession.InitializeLocalStream | src/hooks/useVoice.tsx:54-78 | an acquired stream becomes the local stream and its audio tracks are enabled exactly when the microphone is on; a failed acquisition changes nothing |
| Voice.VoiceSession.InitializePeer | src/hooks/useVoice.tsx:83-93 | a new peer under the user's own peer id becomes the peer ref; nothing else changes |
| Voice.VoiceSession.Mount | src/hooks/useVoice.tsx:225-234 | the local stream, then a new live peer under the own peer id, then one connectVoiceSocket; the acquired stream's audio tracks end enabled exactly as the microphone state, its other tracks keep their enabled state, and no track is stopped |
| Voice.VoiceSession.OnSocketConnect | src/hooks/useVoice.tsx:238-242 | connected is set and one joinVoiceRoom for the room and user is emitted |
| Voice.VoiceSession.OnSocketDisconnect | src/hooks/useVoice.tsx:243-246 | connected is cleared and nothing else changes |
| Voice.VoiceSession.CallPeer | src/hooks/useVoice.tsx:143-174 | nothing at all without a peer or a local stream; otherwise a new call to that peer replaces any entry under the id, and every call stays keyed by its own peer |
| Voice.VoiceSession.OnExistingUsers | src/hooks/useVoice.tsx:250-259 | the roster becomes the received list and a new open call, carrying the local stream, is registered for exactly the ids PeersToCall gives; other entries are kept |
| Voice.VoiceSession.CallUnlessSelf | src/hooks/useVoice.tsx:254-258 | a user other than oneself gets a new open call carrying the local stream, registered under its id, when the session is ready; one's own id places no call; the rest of the session is unchanged |
| Voice.VoiceSession.OnUserJoined | src/hooks/useVoice.tsx:260-265 | the newcomer is appended without deduplication; when the session is ready a new open call, carrying the local stream, replaces the entry under its peer id, and otherwise no call is placed; the rest of the session is unchanged |
| Voice.VoiceSession.OnUserLeft | src/hooks/useVoice.tsx:266-270 | the roster becomes Remaining of the old one; the calls and streams are untouched |
| Voice.VoiceSession.OnIncomingCall | src/hooks/useVoice.tsx:99-131 | the existing local stream, or else a newly acquired one, answers the call and the call is registered under its peer; with neither, nothing changes; a newly acquired stream gets its audio tracks enabled as the microphone state, an existing stream's tracks keep theirs, and no track is stopped |
| Voice.VoiceSession.OnCallStream | src/hooks/useVoice.tsx:106-109 | the remote stream is stored under the call's peer id, replacing any earlier one |
| Voice.VoiceSession.OnCallClose | src/hooks/useVoice.tsx:111-123 | the call's peer id leaves both maps; every other peer's entries and all other state are unchanged |
| Voice.VoiceSession.ToggleMic | src/hooks/useVoice.tsx:179-192 | micOn is negated, every local audio track follows the new value, and one toggleVoiceMic with it is emitted |
| Voice.VoiceSession.LeaveVoiceRoom | src/hooks/useVoice.tsx:197-222 | every registered call is closed, every local track stopped, the socket disconnected and the peer destroyed; then nothing is left registered and both refs are null |
| Voice.VoiceSession.ReleaseMedia | src/hooks/useVoice.tsx:199-204 | every registered call is closed and every local track stopped |
| Voice.VoiceSession.Disconnect | src/hooks/useVoice.tsx:207-221 | one disconnectVoiceSocket is recorded, the peer is destroyed, and every piece of session state is released |
| Chat.ChatSession.Cleanup | src/hooks/useChat.tsx:94-105 | the cleanup emits leaveRoom exactly when a non-empty room id was given, then disconnects the socket, and leaves the lists and `connected` as they are |
| AuthToken.AuthTokenService.constructor | src/services/authToken.ts:1-2 | the service starts with no events dispatched |
| SignIn.SignInPage.constructor | src/pages/sign_in.tsx:30-42 | the form starts with empty fields, no errors and no loading |

## Left out

- Strings: a Dafny `char` is a Unicode scalar value, while JavaScript measures `length` in UTF-16 code units. The name and last-name minimum lengths, the password length rule and the hint's length rule therefore agree with the source only for text without characters outside the Basic Multilingual Plane.
- Navbar.ShortcutTarget: lower-cases ASCII only. JavaScript's `toLowerCase` maps no non-ASCII key to the single letters h, p, a or m, so this does not change which keys navigate.
- Navbar.IsMacPlatform: upper-cases ASCII only. Full Unicode upper-casing of non-ASCII platform names is not modelled.
- Property lookups in `queryMap` and `titles` are modelled as map lookups. Inherited object keys such as `constructor` are not modelled.
- `encodeURIComponent` is the identity here. Every query it receives is lower-case ASCII (`MovieSection.SearchQueryCases`).
- Network, `fetch`, `axios`, JSON decoding and the Firebase and API clients are not part of this model. A backend call is an `Outcome` parameter of the `...Finished` method.
- The history request itself is not modelled: its URL, the `limit` and `before` parameters and the authorization header. Only its reply or failure reaches `Chat.ChatSession.FetchHistoryFinished`. A message's `meta` is an opaque JSON value whose contents are not inspected.
- `setTimeout` is not modelled. The two-second redirect after a password reset is returned as the redirect target.
- `Math.random` and the clock are not modelled. The meeting code and the creation time (`createdAt: new Date()`, as milliseconds since the epoch) are parameters of `CreateMeeting.CreateMeetingPage.HandleCreateMeeting`.
- Default arguments are not modelled: `micEnabled = true` (`src/hooks/useVoice.tsx:29`) and `isTyping = true` (`src/hooks/useChat.tsx:119`). The model's callers always pass the value: `Voice.VoiceSession.constructor` takes `micEnabled` and `Chat.ChatSession.SendTyping` takes `isTyping`.
- `document.title`, focus management and rendering are not modelled, except for the strength hint's list and the route title.
- PeerJS, WebRTC and `getUserMedia` are not modelled. Calls, streams, tracks and peers are opaque objects with only the answer, close, `enabled`, stop and destroy effects. A failed microphone request is a null stream parameter.
- The PeerJS host, port and path configuration and the `open` and `error` logging are left out. So are the voice socket's `error`, offer, answer, ICE-candidate and mic-updated handlers, which only log (`src/hooks/useVoice.tsx:247-249`, `271-286`), and the room-full `alert` (`287-290`).
- Voice.VoiceSession.LeaveVoiceRoom: closes the calls registered when it runs. In the source, the callback closes the `peerConnections` captured at its last render, which can be older after a re-render that React has not yet committed.
- Voice.VoiceSession.InitializeLocalStream: enables the audio tracks with the current `micOn`. In the source a stale `initializePeer` closure can use an older value.
- React re-running the voice and chat effects when their dependencies change, concurrent events and asynchronous interleaving are not modelled. Events are handled one at a time.
- `Voice.VoiceSession.Mount` is the single mount the voice hook is meant to have, not the lifecycle its code has. Read as written, `iceServers` is a new array on every render (`src/hooks/useVoice.tsx:45-48`). It is a dependency of `initializePeer` (`:138`), which is a dependency of the mount effect (`:304`). So every render runs the cleanup `leaveVoiceRoom` and then the whole `init` again: a new stream request, a new peer and a new socket connection. The model has one mount and one leave.
- The event-listener registration and removal in `useChat`, `useVoice`, `Navbar` and `useKeyboardNavigation` is not modelled. A registered listener is a method call; an effect that returns early is a handler that does nothing.
- SignUp.SignUpPage.NoCustomErrors: covers the custom validity messages only. The browser's own `required`, `minLength` and `type="email"` checks are not modelled.
- ResetPassword.ResetPasswordPage.ResetFinished: an error without a message is listed as the empty string where the source lists `undefined`.
- Favorites.FavoritesPage.ClearAllFinished: treats `Promise.all` as one outcome. Removals that the server completed before another one failed are not tracked.
- `Profile`'s `handleChange` on the profile fields, the account deletion and the profile loading request are not modelled. The loaded profile is the constructor's parameter.
- Google sign-in and the sign-in page's auth observer are not modelled.
- The socket modules (`voiceSocket.ts`, `chatSocket.ts`, `socket.ts`) are thin library bindings and are not part of this model.

## Findings

| source | as written | input that shows it | evidently intended | confidence | as-written member | corrected member |
|---|---|---|---|---|---|---|
| src/pages/sign_up.tsx:172-184 | the password's `onChange` rechecks only the password; the confirmation keeps the verdict it got against the previous password (`src/pages/sign_up.tsx:208-215`) | type "Abcdefg!" as password, the same as confirmation, then change the password to "Xbcdefg!": no input is flagged and the form submits with two different passwords | the confirmation is flagged exactly when it differs from the current password | not executed | SignUp.SignUpPage.OnPasswordChange, SignUp.StaleConfirmationWitness | SignUp.SignUpPage.OnPasswordChangeRechecked, SignUp.RecheckedConfirmationWitness |

In the witness every field also passes the browser's own checks. Each field is filled in, and the password has the eight characters that `minLength` requires. So the browser would submit the form.

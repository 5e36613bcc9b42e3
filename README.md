# BookMatch — a verified model of the app's screen logic

BookMatch is a book-exchange web app written in React and TypeScript. Readers sign in, swipe through other readers' books, keep a personal catalogue and chat about exchanges. This project models the logic behind those screens in Dafny and proves properties of it:

- the session context: loading, saving, login, registration, profile update and logout over a storage that can fail;
- the route guards and route tables, including the backup copy of the app, and the back arrow;
- the field rules of the login, registration and profile-edit forms, including the email pattern;
- the personal catalogue, in its current and older versions: search, add, edit, remove, reading progress and the online-search dialog;
- the animated bookshelf: shelf splitting, spine colours, sizes and wear, decorative filler books, statistics;
- the swipe deck;
- the conversation list and the message composer;
- the signed-in user's profile screen and the screen showing another reader's profile.

Screens whose code only changes state step by step are classes with `modifies` clauses; pure expressions are functions. Each method is proved against a specification function, and the properties of that function are proved as lemmas.

Modules, one file each:

| module | file | models |
|---|---|---|
| Common | common.dfy | `Option`, `toLowerCase`, `trim`, `includes`, `filter`, `slice` |
| Entities | entities.dfy | the `User` and `Book` records and the `{...user, ...patch}` merge |
| Session | session.dfy | the session context |
| Routes | routes.dfy | the route guards and tables of both app copies, and the back arrow |
| Validation | validation.dfy | the form field rules and the genre toggle |
| AuthForms | auth_forms.dfy | the submit handlers of the login and registration screens |
| ProfileEdit | profile_edit.dfy | the profile-edit screen |
| Catalogue | catalogue.dfy | the current catalogue screen |
| LegacyCatalogue | legacy_catalogue.dfy | the older catalogue screen |
| Bookshelf | bookshelf.dfy | the animated bookshelf |
| Swipe | swipe.dfy | both copies of the swipe screen |
| Chat | chat.dfy | the conversation list and the backup chat screen's composer |
| ProfileView | profile_view.dfy | the profile screen and the other-reader profile screen |

Side effects are modelled as follows:

- **Storage writes and removals that can throw** become a `writeFails` or `removeFails` parameter.
- **Fresh ids** (`Date.now().toString()`) become a `newId` parameter.
- **Navigation** is a `navigatedTo` field holding the route pattern reached.
- **Timers, toasts and console output** are left out.

## Model

| member | source | states |
|---|---|---|
| Common.Lower | src/screens/MyBooksScreen.tsx:623-624 | `toLowerCase` keeps the length and lower-cases each character on its own. |
| Common.Trim | src/screens/ProfileEditScreen.tsx:286-290 | `trim` is never longer than the text, and a non-empty result neither starts nor ends with white space. |
| Common.TrimKeepsMiddle | src/screens/ProfileEditScreen.tsx:286-290 | The trimmed text is a contiguous piece of the original. Everything before it and everything after it is white space. |
| Common.Contains | src/screens/MyBooksScreen.tsx:624 | `includes` can only find a query that is no longer than the text. |
| Common.ContainsIffOccurs | src/screens/MyBooksScreen.tsx:624 | `includes` holds exactly when the query occurs at some position of the text. |
| Common.Filter | src/screens/MyBooksScreen.tsx:624 | `filter` keeps exactly the elements that satisfy the predicate, so the result is never longer than the input. |
| Common.FilterAppend | src/screens/MyBooksScreen.tsx:624 | Filtering a concatenation filters each part and keeps their order. |
| Common.FilterSubsequence | src/screens/MyBooksScreen.tsx:624 | A filter's result is the input with elements left out, the rest in their order. |
| Common.Slice | src/components/AnimatedBookshelf.tsx:649-650 | `slice` never gives more than the sequence or more than `end - start` elements, and inside the bounds it is the plain sub-sequence. |
| Common.TrimEmptyIffBlank | src/screens/ProfileEditScreen.tsx:286-290 | `s.trim()` is empty exactly when every character of `s` is white space, so `!s.trim()` is the blank test the forms use. |
| Entities.Merge | src/context/AuthContext.tsx:208-212 | For each of the eleven patchable fields, a value present in the patch replaces the user's and an absent one keeps it. The id never changes. |
| Entities.MergeNoChanges | src/context/AuthContext.tsx:211 | An empty patch leaves the user as it was. |
| Entities.MergeIdempotent | src/context/AuthContext.tsx:211 | Applying the same patch twice equals applying it once. |
| Entities.MergeBooksOwned | src/screens/MyBooksScreen.tsx:683 | A patch carrying only `booksOwned` replaces the book list and nothing else. |
| Session.MockUser | src/context/AuthContext.tsx:108-121 | The demo user has id "1" and the given email. Their name is "Usuario Demo" and their genres are Ficción, Misterio and Romance. They have no books, no location and a free plan. |
| Session.NewUser | src/context/AuthContext.tsx:142-153 | A new user takes the given id and the registered name, email, phone and genres. They start with no books, no avatar, no bio, an empty cover and a free plan. |
| Session.Loaded | src/context/AuthContext.tsx:78-89 | A readable stored user becomes the session user. A missing or unparsable entry leaves the session user as it was. |
| Session.SendVerificationCode | src/context/AuthContext.tsx:167-186 | Sending a code always reports success. |
| Session.VerifyPhone | src/context/AuthContext.tsx:188-206 | A code is accepted exactly when it is "123456". |
| Session.AuthState.constructor | src/context/AuthContext.tsx:71-72 | The session starts with no user, in the loading state, with the storage as given. |
| Session.AuthState.LoadUser | src/context/AuthContext.tsx:74-89 | The user becomes the one read from storage, or stays as it was. Loading ends whatever happens. The in-memory user and the stored copy stay in sync. |
| Session.AuthState.SaveUser | src/context/AuthContext.tsx:91-98 | A successful write sets both the stored copy and the user. A failed write changes neither. |
| Session.AuthState.Login | src/context/AuthContext.tsx:100-133 | Login always reports success and ends loading. Unless the write fails, the user becomes the demo user with the given email and is stored. |
| Session.AuthState.Register | src/context/AuthContext.tsx:135-165 | Registration always reports success and ends loading. Unless the write fails, the user becomes the new user built from the data and is stored. |
| Session.AuthState.UpdateProfile | src/context/AuthContext.tsx:208-219 | With no user nothing changes. Otherwise, unless the write fails, the user and the stored copy become the merge of the user and the patch. |
| Session.AuthState.Logout | src/context/AuthContext.tsx:221-229 | Unless the removal throws, the user and the stored copy are both gone. If it throws, neither changes. |
| Session.ReloadRestoresUser | src/context/AuthContext.tsx:78-98 | Whatever a save stored, a reload reads back the same user. |
| Routes.AppRoute | src/App.tsx:52-150 | Only "/" forwards, and it forwards to /welcome. The four entry screens are public and every other screen is protected. The bottom navigation wraps exactly /swipe, /map, /chats, /profile, /my-books and /settings. |
| Routes.BackupRoute | BookMatch/BookMatch_backup_20251007170204/src/App.tsx:48-126 | The backup table has no route for exactly /my-books, /settings and /profile/:userId. Every other pattern routes as in the current table. |
| Routes.ProtectedRoute | src/App.tsx:32-40 | While loading, the guard shows the placeholder. After that it shows the screen exactly when a user is signed in, and otherwise redirects to /welcome. |
| Routes.PublicRoute | src/App.tsx:42-50 | While loading, the guard shows the placeholder. After that it shows the screen exactly when nobody is signed in, and otherwise redirects to /swipe. |
| Routes.ExactlyOneGuardRenders | src/App.tsx:32-50 | Once loading is over, exactly one of the two guards shows its screen. |
| Routes.Resolve | src/App.tsx:52-150 | A table has no outcome for a pattern exactly when it has no route for it. |
| Routes.PublicScreens | src/App.tsx:56-75 | In both tables the public screens are exactly /welcome, /login, /register and /verification. |
| Routes.NavScreens | src/App.tsx:78-145 | The bottom navigation wraps exactly /swipe, /map, /chats, /profile, /my-books and /settings. The backup table wraps only the first four. |
| Routes.BackupIsSubset | BookMatch/BookMatch_backup_20251007170204/src/App.tsx:48-126 | The backup table lacks exactly /my-books, /settings and /profile/:userId. Every other pattern routes as in the current table. |
| Routes.RootRedirectsToWelcome | src/App.tsx:148 | "/" redirects to /welcome in both tables, loading or not. |
| Routes.LoadingShowsPlaceholder | src/App.tsx:35-37 | While loading, every guarded screen shows the placeholder. |
| Routes.RedirectsSettle | src/App.tsx:32-150 | Every known pattern shows a screen after at most two redirects, for every table and user. A signed-in user needs both: "/" goes to /welcome and then to /swipe. |
| Routes.BackArrowVisible | src/components/BackArrow.tsx:44-46 | The arrow is drawn exactly off the hide list. |
| Routes.BackArrowHiddenOnPublicScreens | src/components/BackArrow.tsx:45-46 | The arrow is hidden exactly on the app's public screens. |
| Routes.HandleBack | src/components/BackArrow.tsx:35-42 | The arrow steps back in history exactly when the history has more than one entry. Otherwise it goes to /welcome. |
| Routes.VerificationSkippedAfterRegister | src/App.tsx:71-75 | Once registered, the user is signed in, so both tables redirect them from /verification to /swipe. |
| Routes.CorrectedVerificationShown | src/App.tsx:71-75 | With /verification protected, a signed-in user sees it and a visitor goes to /welcome. Every other pattern behaves as before. |
| Routes.CorrectedPublicScreens | src/components/BackArrow.tsx:45 | With /verification protected, the public screens are /welcome, /login and /register. The back arrow stays hidden on these and on /verification. |
| Validation.IsEmail | src/screens/auth/LoginScreen.tsx:215 | The email pattern: a local part, '@', a domain, a dot and at least two letters. A match has at least 6 characters. |
| Validation.IndexOf | src/screens/auth/LoginScreen.tsx:215 | Returns the first position holding the character, or none when there is none. |
| Validation.LastIndexOf | src/screens/auth/LoginScreen.tsx:215 | Returns the last position holding the character, or none when there is none. |
| Validation.MatchEmailIffIsEmail | src/screens/auth/LoginScreen.tsx:215 | The deterministic matcher accepts exactly the strings the email pattern describes. |
| Validation.EmailHasOneAt | src/screens/auth/RegisterScreen.tsx:250 | An accepted email has exactly one '@'. |
| Validation.FirstError | src/screens/auth/RegisterScreen.tsx:229-232 | The `required` message wins for an empty value. Otherwise the second rule's message appears when that rule fails, and there is no error exactly when neither rule fails. |
| Validation.NameError | src/screens/auth/RegisterScreen.tsx:228-233 | A name is accepted exactly when it has at least 2 characters. An empty name gets the "requerido" message and a one-character name the "al menos 2" message. |
| Validation.EmailError | src/screens/auth/LoginScreen.tsx:212-217 | An email is accepted exactly when it matches the pattern. An empty email gets the "requerido" message, any other mismatch "Correo electrónico inválido". |
| Validation.PasswordError | src/screens/auth/LoginScreen.tsx:231-236 | A password is accepted exactly when it has at least 6 characters. The message is "requerida" for an empty one and "al menos 6" otherwise. |
| Validation.ConfirmError | src/screens/auth/RegisterScreen.tsx:291-296 | The confirmation is accepted exactly when it is non-empty and equal to the password, with the source's two messages. |
| Validation.RegistrationAccepted | src/screens/auth/RegisterScreen.tsx:228-296 | An accepted registration has a name of at least 2 characters, a confirmation of at least 6 and an email with an '@'. |
| Validation.ProfileNameError | src/screens/ProfileEditScreen.tsx:286-288 | The profile name is rejected exactly when it is blank after trimming. |
| Validation.ProfileEmailError | src/screens/ProfileEditScreen.tsx:290-294 | A blank email gets only "El email es requerido". A non-blank one that fails the pattern gets only "Email inválido". There is no error otherwise. |
| Validation.ErrorRecord | src/screens/ProfileEditScreen.tsx:284-296 | The error dictionary has an entry exactly for each failing field, holding that field's message, and never one for the bio. |
| Validation.ProfileValidIff | src/screens/ProfileEditScreen.tsx:283-298 | The profile form is valid exactly when the name is not blank and the email is not blank and matches the pattern. |
| Validation.Toggle | src/screens/ProfileEditScreen.tsx:251-258 | Toggling flips the genre's membership and leaves every other genre's membership unchanged. An absent genre is appended at the end. |
| Validation.FilterNoDuplicates | src/screens/ProfileEditScreen.tsx:255 | Filtering a list without duplicates keeps it without duplicates. |
| Validation.ToggleNoDuplicates | src/screens/ProfileEditScreen.tsx:254-256 | Toggling never introduces a duplicate genre. |
| Validation.ToggleTwiceRestores | src/screens/ProfileEditScreen.tsx:254-256 | Toggling an absent genre twice gives back the original list. |
| AuthForms.RegistrationData | src/screens/auth/RegisterScreen.tsx:191-197 | The registration passes on the name, email and password, with an empty phone and no genres. |
| AuthForms.CheckLogin | src/screens/auth/LoginScreen.tsx:212-236 | The login form passes exactly when both field rules pass, that is, when the email matches the pattern and the password has at least 6 characters. |
| AuthForms.CheckRegistration | src/screens/auth/RegisterScreen.tsx:228-296 | The registration form passes exactly when all four field rules pass. It then has a name of at least 2 characters, a matching email, and a confirmation equal to the password with at least 6 characters. |
| AuthForms.LoginForm.constructor | src/screens/auth/LoginScreen.tsx:168-171 | The login screen starts not loading and without having navigated. |
| AuthForms.LoginForm.Submit | src/screens/auth/LoginScreen.tsx:179-189 | Once the browser lets the submit event through, the handler proceeds exactly when the email matches the pattern and the password has at least 6 characters. Otherwise nothing changes. A submission goes to /swipe and ends with loading off. It stores the demo user unless the write fails, in which case the session and storage stay as they were. |
| AuthForms.RegisterForm.constructor | src/screens/auth/RegisterScreen.tsx:173-177 | The registration screen starts not loading and without having navigated. |
| AuthForms.RegisterForm.Submit | src/screens/auth/RegisterScreen.tsx:188-205 | Once the browser lets the submit event through, the handler proceeds exactly when all four written field rules pass. Otherwise nothing changes. A submission goes to /verification and ends with loading off. It stores the new user unless the write fails, in which case the session and storage stay as they were. The app table then redirects the new user away from /verification, while the corrected table shows it. |
| ProfileEdit.ProfileEditForm.constructor | src/screens/ProfileEditScreen.tsx:235-242 | The form starts from the user's fields, with empty text for each missing one, and with no errors. |
| ProfileEdit.ProfileEditForm.Patch | src/screens/ProfileEditScreen.tsx:307 | The update sent carries exactly the six form fields. |
| ProfileEdit.ProfileEditForm.InputChange | src/screens/ProfileEditScreen.tsx:244-249 | The edited field takes the value. Only that field's shown error is emptied. Every other error is unchanged. |
| ProfileEdit.ProfileEditForm.ToggleGenre | src/screens/ProfileEditScreen.tsx:251-258 | The form's genres are toggled, so the genre's membership flips. |
| ProfileEdit.CheckProfile | src/screens/ProfileEditScreen.tsx:283-298 | Returns the form's error dictionary. It reports the form valid exactly when the name is not blank and the email is not blank and matches the pattern. |
| ProfileEdit.ProfileEditForm.Validate | src/screens/ProfileEditScreen.tsx:283-298 | The shown errors become the form's current errors. The result is true exactly when the form is valid. |
| ProfileEdit.ProfileEditForm.Save | src/screens/ProfileEditScreen.tsx:300-312 | Saving merges the form into the signed-in user unless the write fails, and changes nothing when nobody is signed in. It then goes to /profile with loading off, and the session stays in sync with storage. |
| ProfileEdit.ProfileEditForm.Submit | src/screens/ProfileEditScreen.tsx:300-312 | Once the browser lets the submit event through: an invalid form changes only the errors and never touches the session, and a valid form is merged into the signed-in user and goes to /profile, and loading ends off. |
| ProfileEdit.SavedProfile | src/screens/ProfileEditScreen.tsx:307 | Saving the form keeps the user's id, phone, books, location and plan. It takes the form's name, email, genres and bio. |
| Catalogue.Search | src/screens/MyBooksScreen.tsx:622-625 | Keeps exactly the books whose lower-cased title or author contains the lower-cased query, in catalogue order. |
| Catalogue.SearchAppend | src/screens/MyBooksScreen.tsx:624 | Searching a concatenation searches each part. |
| Catalogue.SearchEmptyQuery | src/screens/MyBooksScreen.tsx:624 | An empty search shows the whole catalogue. |
| Catalogue.SearchOnline | src/screens/MyBooksScreen.tsx:627-641 | Keeps exactly the mock online books whose title or author contains the query. |
| Catalogue.OnlineSearchEmptyListsAll | src/screens/MyBooksScreen.tsx:643-647 | The "Online" button searches with '' and so lists all five books. |
| Catalogue.FromOnline | src/screens/MyBooksScreen.tsx:649-660 | An online result becomes an available, good-condition book for exchange, keeping the result's title, author, genre and cover. |
| Catalogue.AuthorOrDefault | src/screens/MyBooksScreen.tsx:690 | The author is never empty. A given author is kept. |
| Catalogue.CoverOrNone | src/screens/MyBooksScreen.tsx:696 | An empty cover is absent and any other cover is kept. |
| Catalogue.NewBook | src/screens/MyBooksScreen.tsx:687-697 | A new book takes the form's title, status and exchange flag, the author or its default, and the given id. It is available exactly when its status is "available". |
| Catalogue.AddBook | src/screens/MyBooksScreen.tsx:698 | Adding keeps every existing book in place and appends exactly the new book. |
| Catalogue.EditBooks | src/screens/MyBooksScreen.tsx:671-682 | Only books with the edited id change, and of them only title, author, cover, status and exchange flag. Ids and order are kept. |
| Catalogue.RemoveBook | src/screens/MyBooksScreen.tsx:705-707 | Removal keeps exactly the books with another id, as an order-preserving sub-list of the catalogue. |
| Catalogue.RemoveAppend | src/screens/MyBooksScreen.tsx:705-707 | Removing from a concatenation removes from each part. |
| Catalogue.RemoveSingleton | src/screens/MyBooksScreen.tsx:706 | A single book is kept exactly when its id differs. With the previous row, this fixes the result, copies and order included. |
| Catalogue.RemoveAbsent | src/screens/MyBooksScreen.tsx:706 | Removing an id no book has changes nothing. |
| Catalogue.RemoveUndoesAdd | src/screens/MyBooksScreen.tsx:698-706 | Removing a freshly added book's id undoes the add. |
| Catalogue.RemoveAfterEdit | src/screens/MyBooksScreen.tsx:671-706 | Removing an edited book is the same as removing it unedited. |
| Catalogue.EditIdempotent | src/screens/MyBooksScreen.tsx:671-682 | Submitting the same edit twice is the same as submitting it once. |
| Catalogue.NextStatus | src/screens/MyBooksScreen.tsx:853 | Progress strictly between 0 and 100 means "reading" and exactly 100 means "not-available". Any other value keeps the previous status, or "available" when there was none. |
| Catalogue.SetProgress | src/screens/MyBooksScreen.tsx:851-855 | Only books with the id change, taking the new progress and the status that follows from it. |
| Catalogue.SetProgressIdempotent | src/screens/MyBooksScreen.tsx:853 | Moving the slider to the same value again changes nothing more. |
| Catalogue.ShelfRow | src/screens/MyBooksScreen.tsx:802 | A shelf row holds at most 8 books. |
| Catalogue.ShelfRowsShowFirst24 | src/screens/MyBooksScreen.tsx:799-802 | The three rows together show the first 24 results, in order, and no more. |
| Catalogue.Spine | src/screens/MyBooksScreen.tsx:803-806 | The spine in slot i is 64 to 82 high and 18 to 22 wide. It uses the cover colour exactly when the book has a non-empty cover, so an empty cover gets the purple gradient. |
| Catalogue.ProgressFill | src/screens/MyBooksScreen.tsx:845 | The bar fill lies in 0..100. A missing progress shows as 0. |
| Catalogue.IsEditing | src/screens/MyBooksScreen.tsx:669 | `if (editing)` is false both for no id and for the empty id. It holds only for a non-empty id. |
| Catalogue.SubmitBooks | src/screens/MyBooksScreen.tsx:665-703 | An edit keeps the list's length and every book with another id. An add keeps the list as a prefix and appends exactly the new book. |
| Catalogue.MyBooks.constructor | src/screens/MyBooksScreen.tsx:596-607 | The screen starts with the user's books, an empty form and closed dialogs. |
| Catalogue.MyBooks.Filtered | src/screens/MyBooksScreen.tsx:622-625 | Shows exactly the books matching the search box. |
| Catalogue.MyBooks.Submit | src/screens/MyBooksScreen.tsx:665-703 | A blank title changes nothing. Otherwise the form is emptied and closed, and the book is edited or added unless the write fails, in which case the list stays as it was. |
| Catalogue.MyBooks.Remove | src/screens/MyBooksScreen.tsx:705-707 | Unless the write fails, the list becomes exactly the books with another id, in their old order. A failed write leaves the list as it was. |
| Catalogue.MyBooks.StartEdit | src/screens/MyBooksScreen.tsx:709-719 | The form is filled from the book, with defaults for a missing cover, status or exchange flag, and opened on that id. |
| Catalogue.MyBooks.CancelEdit | src/screens/MyBooksScreen.tsx:721-725 | The form is emptied and closed, and no book is being edited. |
| Catalogue.MyBooks.ToggleAdding | src/screens/MyBooksScreen.tsx:735 | The header button flips the form open or closed. |
| Catalogue.MyBooks.ChangeProgress | src/screens/MyBooksScreen.tsx:851-855 | Unless the write fails, the list becomes the list with the progress and the following status set. A failed write leaves it as it was. |
| Catalogue.SearchAllOnline | src/screens/MyBooksScreen.tsx:643-647 | The search the "Online" button starts returns all five mock online books. |
| Catalogue.MyBooks.OpenOnlineSearch | src/screens/MyBooksScreen.tsx:643-647 | The dialog opens, listing all mock online books. |
| Catalogue.MyBooks.AddOnline | src/screens/MyBooksScreen.tsx:649-663 | Unless the write fails, the result is appended. A failed write leaves the list as it was. Either way the dialog closes. |
| LegacyCatalogue.NewLegacyBook | BookMatch/src/screens/MyBooksScreen.tsx:256-264 | The older add always makes an available book with a non-empty author. The cover is stored when non-empty and absent when empty. It has no status, exchange flag or progress. |
| LegacyCatalogue.LegacySubmitBooks | BookMatch/src/screens/MyBooksScreen.tsx:241-270 | An edit keeps the list's length and every book with another id. An add keeps the list as a prefix and appends exactly the new older-style book. |
| LegacyCatalogue.LegacyEditBooks | BookMatch/src/screens/MyBooksScreen.tsx:245-251 | Only books with the id change, and of them only title, author and cover. |
| LegacyCatalogue.LegacyEditIsRestrictedEdit | BookMatch/src/screens/MyBooksScreen.tsx:247-250 | The older edit is the newer one restricted to the three fields it has. |
| LegacyCatalogue.LegacyMyBooks.constructor | BookMatch/src/screens/MyBooksScreen.tsx:228-235 | The screen starts with the user's books, an empty form and no search. |
| LegacyCatalogue.LegacyMyBooks.Filtered | BookMatch/src/screens/MyBooksScreen.tsx:236-239 | Shows exactly the books matching the search box. |
| LegacyCatalogue.LegacyMyBooks.Submit | BookMatch/src/screens/MyBooksScreen.tsx:241-270 | A blank title changes nothing. Otherwise the form is emptied and closed. Unless the write fails, an add extends the list by exactly one book and an edit rewrites the books with the id. A failed write leaves the list as it was. |
| LegacyCatalogue.LegacyMyBooks.Remove | BookMatch/src/screens/MyBooksScreen.tsx:272-274 | Unless the write fails, keeps exactly the books with another id, in their old order. A failed write leaves the list as it was. |
| LegacyCatalogue.LegacyMyBooks.StartEdit | BookMatch/src/screens/MyBooksScreen.tsx:276-280 | The form is filled from the book and opened on its id. |
| LegacyCatalogue.LegacyMyBooks.CancelEdit | BookMatch/src/screens/MyBooksScreen.tsx:282-286 | The form is emptied and closed. |
| LegacyCatalogue.LegacyMyBooks.ToggleAdding | BookMatch/src/screens/MyBooksScreen.tsx:292 | The header button flips the form open or closed. |
| Bookshelf.Palette | src/components/AnimatedBookshelf.tsx:587-607 | fiction, non-fiction and science have their own 3-colour palettes. Every other category uses the 24 classic colours. |
| Bookshelf.BookColor | src/components/AnimatedBookshelf.tsx:607-608 | A spine colour always comes from the category's palette. |
| Bookshelf.BookColorPeriodic | src/components/AnimatedBookshelf.tsx:608 | Colours repeat with the palette's length as period. |
| Bookshelf.SpineWidth | src/components/AnimatedBookshelf.tsx:611-624 | A spine is 30 to 56 pixels wide. |
| Bookshelf.SpineHeight | src/components/AnimatedBookshelf.tsx:611-624 | A spine is 160 to 240 pixels high. It is the formula's value when that reaches 160, and exactly 160 otherwise. |
| Bookshelf.WearSeed | src/components/AnimatedBookshelf.tsx:628 | The wear seed is at most 99. |
| Bookshelf.Wear | src/components/AnimatedBookshelf.tsx:626-630 | Wear lies in 0..0.99. |
| Bookshelf.WearMarks | src/components/AnimatedBookshelf.tsx:692-707 | The stain is drawn exactly for a wear seed of at least 61, and the second mark exactly for one of at least 81. The book at index 9 has the stain only. |
| Bookshelf.WearPeriodic | src/components/AnimatedBookshelf.tsx:628 | Wear repeats every hundred positions. |
| Bookshelf.Truncate | src/components/AnimatedBookshelf.tsx:683 | Labels of up to 15 characters are kept. Longer ones become their first 15 characters plus "...", so a label is never longer than 18. |
| Bookshelf.TruncateIdempotent | src/components/AnimatedBookshelf.tsx:683 | Truncating an already truncated label changes nothing. |
| Bookshelf.CeilDivCovers | src/components/AnimatedBookshelf.tsx:648 | `Math.ceil(n / m)` groups of m cover n, one group fewer does not, and the count is 0 exactly when n is 0. |
| Bookshelf.ShelfCount | src/components/AnimatedBookshelf.tsx:647-657 | At least one shelf is drawn. |
| Bookshelf.ShelfSlice | src/components/AnimatedBookshelf.tsx:649-650 | A shelf slice holds at most m books. |
| Bookshelf.Shelves | src/components/AnimatedBookshelf.tsx:647-657 | With a shelf size of at least 1, there is one shelf per started group of m, and at least one. No shelf holds more than m books or m revealed books. With no books there is one empty shelf, whatever the shelf size. |
| Bookshelf.ShelvesUpToFlatten | src/components/AnimatedBookshelf.tsx:648-652 | The first i shelves hold exactly the first i·m books, in order. |
| Bookshelf.ShelvesFlatten | src/components/AnimatedBookshelf.tsx:647-657 | The shelves hold every book exactly once, in order. |
| Bookshelf.ShelvesShape | src/components/AnimatedBookshelf.tsx:647-657 | There is one shelf per started group of m, with at least one shelf. Each shelf holds at most m books and at most m revealed books, and with books present no shelf is empty. |
| Bookshelf.BuildShelves | src/components/AnimatedBookshelf.tsx:647-657 | The shelf loop builds exactly the shelves described above. With no books it gives the one empty shelf, even for a shelf size of 0. |
| Bookshelf.VisiblePrefixPerShelf | src/components/AnimatedBookshelf.tsx:638-650 | While books are revealed one by one, each shelf shows a prefix of its own books. |
| Bookshelf.NatToString | src/components/AnimatedBookshelf.tsx:720-721 | The decimal text of a number is never empty. |
| Bookshelf.BookSpine | src/components/AnimatedBookshelf.tsx:668-708 | A real book's spine has its truncated title and author and the category's colour for its row position, so a colour from that palette. Its sizes and wear are in bounds. |
| Bookshelf.DecorativeSpine | src/components/AnimatedBookshelf.tsx:719-746 | A filler spine has the classic title at its global position modulo 28 and the author "Clásico". Its colour is the fiction colour for that position. Its sizes and wear are in bounds. |
| Bookshelf.RowSlots | src/components/AnimatedBookshelf.tsx:667-748 | A row always has exactly m places: the revealed books first, in order and at their own positions, then filler books numbered on from the shelf's start. |
| Bookshelf.SlotSpine | src/components/AnimatedBookshelf.tsx:668-746 | A spine is decorative exactly when its place holds a filler book. Its sizes and wear are in bounds. A real book gets its truncated title and a colour from its category's palette. A filler gets its classic title and a fiction colour. |
| Bookshelf.Categories | src/components/AnimatedBookshelf.tsx:763 | The genres are exactly the categories some book has. |
| Bookshelf.CategoriesBound | src/components/AnimatedBookshelf.tsx:763 | There are never more distinct categories than books. |
| Bookshelf.ShelfStats | src/components/AnimatedBookshelf.tsx:753-766 | The statistics show the book count, the shelf count max(1, ⌈n/m⌉) and the number of distinct categories. So there is at least one shelf, and the number of genres is at most the book count and at least 1 when there are books. |
| Swipe.CardAt | src/screens/SwipeScreen.tsx:233 | The card shown is `books[index]` exactly when the index is inside the deck. Otherwise there is none. |
| Swipe.DecksAgree | BookMatch/src/screens/SwipeScreen.tsx:290-330 | Both copies' decks hold three cards with the same ids and conditions, and agree on every unaccented title. |
| Swipe.SwipeDeck.constructor | src/screens/SwipeScreen.tsx:230-231 | The deck starts at index 0. |
| Swipe.SwipeDeck.Current | src/screens/SwipeScreen.tsx:233 | A card is shown exactly while the index is inside the deck. |
| Swipe.SwipeDeck.Swiped | src/screens/SwipeScreen.tsx:230-243 | The cards already swiped number exactly the index. |
| Swipe.SwipeDeck.Advance | src/screens/SwipeScreen.tsx:237 | Moving to the next card raises the index by exactly 1 and adds the card that was shown to the swiped cards. |
| Swipe.SwipeDeck.Like | src/screens/SwipeScreen.tsx:235-238 | Like is offered only while a card is shown. It moves the index on by exactly 1 and adds the shown card to the swiped cards, and the index never passes the deck's end. |
| Swipe.SwipeDeck.Reject | src/screens/SwipeScreen.tsx:240-243 | Reject has the same effect as a like. |
| Swipe.AfterSwipes | src/screens/SwipeScreen.tsx:256-302 | The empty state appears exactly once the whole deck has been swiped. |
| Chat.FilteredChats | src/screens/ChatListScreen.tsx:233-236 | Keeps exactly the conversations whose lower-cased reader name or book title contains the lower-cased query, as an order-preserving sub-list. |
| Chat.FilteredChatsEmptyQuery | src/screens/ChatListScreen.tsx:233-236 | An empty query keeps every conversation. |
| Chat.ListViewOf | src/screens/ChatListScreen.tsx:265-302 | The list is shown when the search keeps something. Otherwise "No se encontraron" is shown when a query was typed, and "No tienes conversaciones" when none was. |
| Chat.NoConversationsOnlyWhenEmpty | src/screens/ChatListScreen.tsx:189-302 | "No tienes conversaciones" appears only for an empty list, so never for the screen's own conversations. |
| Chat.ParseTargetPath | src/screens/ChatListScreen.tsx:238-245 | The router reads back every location a click produces as the same conversation or profile. |
| Chat.ItemClick | src/screens/ChatListScreen.tsx:238-271 | A click on the avatar opens only the reader's profile. A click on the conversation body opens the conversation. A click on the item's padding opens nothing. |
| Chat.SendEnabled | BookMatch/BookMatch_backup_20251007170204/src/screens/ChatScreen.tsx:285-289 | The send button is enabled exactly when the input is not blank. |
| Chat.Composer.constructor | BookMatch/BookMatch_backup_20251007170204/src/screens/ChatScreen.tsx:217-218 | The composer starts empty, over the five fixed messages. |
| Chat.Composer.InputChange | BookMatch/BookMatch_backup_20251007170204/src/screens/ChatScreen.tsx:281 | Typing replaces the input. |
| Chat.Composer.Send | BookMatch/BookMatch_backup_20251007170204/src/screens/ChatScreen.tsx:220-226 | Blank input stays as it is and any other input is cleared, so the button is disabled afterwards. The message list never changes. |
| Chat.Composer.KeyPress | BookMatch/BookMatch_backup_20251007170204/src/screens/ChatScreen.tsx:228-233 | Enter without Shift sends. Every other key, Shift+Enter included, leaves the input alone. |
| ProfileView.CompletedCount | src/screens/ProfileScreen_new.tsx:472 | Counts the books with progress exactly 100, a missing progress counting as 0. The count is at most the number of books, equals it when every book is completed, and is 0 when none is. |
| ProfileView.CompletedCountAppend | src/screens/ProfileScreen_new.tsx:472 | The count over a concatenation is the sum of the counts. |
| ProfileView.CompletedCountSingleton | src/screens/ProfileScreen_new.tsx:472 | A single book counts 1 exactly when its progress is 100. With the previous row, this fixes the count for every list. |
| ProfileView.ReadingPercent | src/screens/ProfileScreen_new.tsx:470 | The percentage is the completed share over max(1, n), rounded half up. It lies in 0..100, is 0 for an empty library and 100 when every book is completed. |
| ProfileView.RoundedShare | src/screens/ProfileScreen_new.tsx:470 | The rounded share stays within half a step of the exact share and inside 0..100, and equals 100 for a full count. |
| ProfileView.BarWidth | src/screens/ProfileScreen_new.tsx:327 | The bar fill is clamped into 0..100. |
| ProfileView.GenrePills | src/screens/ProfileScreen_new.tsx:481 | At most six pills are shown. The default six appear only when the genre list is absent, and an empty list shows none. |
| ProfileView.Badges | src/screens/ProfileScreen_new.tsx:406-420 | The premium badge appears exactly for a premium user. The place badge appears exactly when a location exists, showing "Mi ciudad" for an empty address. The rating badge comes last. |
| ProfileView.Sections | src/screens/ProfileScreen_new.tsx:441-523 | Exactly one of the three tab sections is drawn, the selected one. The summary's completed count never exceeds its book count. |
| ProfileView.ProfileScreenOf | src/screens/ProfileScreen_new.tsx:381-385 | Without a signed-in user nothing is drawn. With one, the screen shows their name and one section. |
| ProfileView.TabState.constructor | src/screens/ProfileScreen_new.tsx:374 | The tab starts on the summary. |
| ProfileView.TabState.Select | src/screens/ProfileScreen_new.tsx:436-438 | Clicking a tab selects it. |
| ProfileView.LookupReader | src/screens/UserProfileScreen.tsx:252-308 | A reader is found exactly for user1, user2 and user3, and the record found carries that id. A missing, empty or unknown id finds nothing. |
| ProfileView.Split | src/screens/UserProfileScreen.tsx:337 | Splitting gives at least one piece, and no piece contains the separator. |
| ProfileView.JoinSplit | src/screens/UserProfileScreen.tsx:337 | Joining the pieces with the separator gives the text back. |
| ProfileView.FirstChars | src/screens/UserProfileScreen.tsx:337 | There are never more initials than pieces. With no empty piece, the result is exactly the first character of each piece. |
| ProfileView.Initials | src/screens/UserProfileScreen.tsx:337 | The initials are no longer than the number of space-separated pieces. |
| ProfileView.SplitWord | src/screens/UserProfileScreen.tsx:337 | A leading word without a separator becomes the start of the first piece. |
| ProfileView.TwoWordInitials | src/screens/UserProfileScreen.tsx:337 | Two words separated by one space give their two first letters. |
| ProfileView.InitialsOfFirstReader | src/screens/UserProfileScreen.tsx:255-337 | "María González" is drawn as "MG". |
| ProfileView.ReaderScreenOf | src/screens/UserProfileScreen.tsx:308-400 | An unfound reader gives "Usuario no encontrado". A found one shows their name, initials, location, statistics and books, with the books header counting them. The message button's path reads back as the conversation with that id. |

## Left out

- AuthForms.LoginForm.Submit, AuthForms.RegisterForm.Submit and ProfileEdit.ProfileEditForm.Submit: the browser's own check of a `type="email"` input also gates the submit event, which none of these forms switches off. It is not modelled. Addresses that the written pattern accepts and the HTML email grammar rejects (`a@b..co`, `a@-x.co`) would be submitted by the model, but the browser stops them before the handler runs.
- Timers, toasts, console output and the one-second delays of the session calls: they decide nothing about state.
- The JSON encoding of the stored user and the `createdAt` date: a stored entry is either a readable user or unreadable.
- The coordinates of a location: only the address is shown anywhere.
- The rating badge's value (`ratingAverage || 4.8`): the user record has no rating field, so the badge is modelled without its number.
- Reading an avatar or cover image from a file: the profile-edit form holds the resulting text.
- React Router's ranking of patterns (`/profile/edit` against `/profile/:userId`) and the matching of concrete locations: a location is represented by the pattern it matches.
- react-hook-form's internals: only the rules written in the forms are modelled, in the order the library applies them, `required` first.
- The palette lookup `categorySpecific[category]` also finds inherited object keys such as "constructor". The model treats those as ordinary categories.
- The other-reader lookup `mockUserData[userId]` also finds inherited object keys. The model finds only the three readers.
- String lengths count characters, not UTF-16 code units. `toLowerCase` covers ASCII and Latin-1 letters only, and `trim` covers the common white-space characters only.
- The percentage uses integer round-half-up, `(200c + d) div (2d)` with `d = max(1, n)`, instead of floating point: the two differ only at exact halves.
- Wear is a `real`, not a floating-point number.
- Bookshelf.BuildShelves and Bookshelf.Shelves: require a shelf size of at least 1 when there are books, because the source's loop never ends for a shelf size of 0 and a non-empty list. With no books a shelf size of 0 is allowed, and the loop draws the one empty shelf. The shelf lemmas and Bookshelf.ShelfStats are stated for a shelf size of at least 1 only.
- Bookshelf.RowSlots: the reveal animation's timers are left out. The revealed list is a parameter.
- The older catalogue's hook declared after an early return, and the current catalogue's `view3D` toggle: rendering order only.
- The catalogue screens' `books` field stands for the signed-in user's `booksOwned`. Every list change in Submit, Remove, ChangeProgress and AddOnline goes through `updateProfile`, whose effect on the session Session.AuthState.UpdateProfile states. These methods do not hold the session object; the failure of the write is their `writeFails` parameter, which leaves the list as it was.
- Swipe.SwipeDeck.Like and Swipe.SwipeDeck.Reject: the owner's distance, avatar and cover emoji are display text and are not kept on the card.

## Findings

| source | as written | input that shows it | evidently intended | confidence | as-written member | corrected member |
|---|---|---|---|---|---|---|
| src/App.tsx:71-75 | /verification sits behind the public guard, which redirects any signed-in user to /swipe. Registration signs the new user in and then navigates to /verification. | Register with valid fields. The session now holds the new user, so /verification redirects to /swipe and the phone-verification screen is never shown. | /verification should be reachable right after registration, for example behind the protected guard. | not executed | Routes.VerificationSkippedAfterRegister | Routes.CorrectedVerificationShown |

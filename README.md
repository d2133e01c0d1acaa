# Silage-App core, modelled in Dafny

This project models the decision logic of a Next.js blogging and admin application. It covers the server side and the client side.

**Server side** (`*_route.dfy`, `auth_options.dfy`, `schema.dfy`, `database.dfy`):
- the signup, post-creation, image-upload and user-listing handlers, as chains of early returns producing an HTTP status with a body or an error message;
- the mongoose schemas they write through (required fields, enums, defaults, the title trim setter, timestamps);
- the credential `authorize` function, and the `jwt` and `session` callbacks of next-auth.

The `Database.Store` class holds the collections:
- users: a map from normalized email to record;
- posts and images: sequences.

Each handler is a method on the store. Its reply and new state are proved equal to a route function, so all the route properties carry over to the store. The store's invariant is that every key is the record's normalized email and that ids are unique; every handler preserves it.

**Client side** (the `*_page.dfy`, `*_form.dfy` and `manage_*.dfy` files, `toast.dfy`, `admin_layout.dfy`, `testimonials.dfy`, `contact_section.dfy`):
- the signup, login, post-editor and contact forms (rule chains yielding at most one message per field);
- the admin tables, with search and role/status filters and confirmed delete, promote and demote;
- the image-upload gate loop, the public published-post search and the dashboard counters;
- the toast queue, the admin navigation and the testimonial carousel.

Each React component whose handlers update state is a class whose fields are its `useState` variables.

**Cross-file properties** (`cross_checks.dfy`):
- a form the signup page accepts also passes the server's checks;
- a freshly signed-up account can sign in;
- a padded short title passes the post editor but is refused by the admin route;
- an anonymous post editor sends an `authorId` the route refuses.

**String semantics:** JavaScript strings are `seq<char>`. `trim` and `\s` use the fixed ECMAScript white-space set, `toLowerCase` is ASCII-only, and `.length` is the sequence length.

## Model

| member | source | states |
|---|---|---|
| Text.Trim | app/api/auth/signup/route.ts:18 | the trimmed text is the slice of the input between its leading and its trailing white space: everything before and after the slice is white space, the slice neither starts nor ends with white space, and it is empty exactly when the input is blank |
| Text.TrimIdempotent | models/blog.ts:18 | trimming an already trimmed title changes nothing (the schema's trim setter on a handler-trimmed title) |
| Text.Lower | app/api/auth/signup/route.ts:32 | lower-casing keeps the length and maps every character by ASCII lower-casing |
| Text.LowerIdempotent | app/blogs/page.tsx:58-66 | a lower-cased string has no upper-case letter and lower-casing it again changes nothing |
| Text.NormalizeEmail | app/api/auth/signup/route.ts:32 | `email.toLowerCase().trim()` yields a normal email: no upper-case letter and no white space at either end |
| Text.NormalEmailIsFixed | app/api/auth/signup/route.ts:32 | a string is a normal email exactly when normalizing it leaves it unchanged |
| Text.NormalizeEmailIdempotent | lib/authOptions.ts:32 | normalizing twice is normalizing once, so the login lookup finds what signup stored |
| Text.ContainsEmpty | components/Admin/ManageUsers.tsx:60-63 | every string includes the empty string |
| Text.EmptyTermMatches | components/Admin/ManageUsers.tsx:60-63 | an empty search term matches every string, ignoring case |
| Text.Prefix | app/api/admin/blogs/create/route.ts:39 | `substring(0, n)` is a prefix of the input of length min(n, length) |
| Seqs.Filter | components/Toast/Toast.tsx:68 | `filter` keeps exactly the elements satisfying the test, each drawn from the input |
| Seqs.FilterKeepsAll | components/Admin/ManageUsers.tsx:60-66 | a filter every element passes returns the input unchanged |
| Seqs.FilterAppend | components/Toast/Toast.tsx:67-69 | filtering distributes over concatenation, so the survivors keep their order |
| Seqs.CountDisjoint | app/admin/page.tsx:38-42 | two tests no element passes together count at most the length between them |
| Seqs.CountPartition | app/admin/page.tsx:38-42 | two tests splitting every element count exactly the length |
| Seqs.Map | components/Admin/ManageUsers.tsx:97-110 | `map` keeps the length and applies the function at every index |
| Json.ListOf | components/Admin/ManageBlogs.tsx:39 | an array payload is used as is, else the object's list field, else the empty list |
| Json.ArrayOrEmpty | app/admin/page.tsx:37 | an array payload is used as is and anything else counts as empty |
| Schema.ParseRole | models/user.ts:15 | a role string is accepted exactly when it is "user" or "admin", and parsing inverts naming |
| Schema.ParseStatus | models/blog.ts:24 | a status string is accepted exactly when it is "published" or "draft", and parsing inverts naming |
| Schema.ValidationFailed | models/user.ts:11-17 | a validation error's message starts with the model's "validation failed: " head |
| Schema.CreateUser | models/user.ts:11-17 | a user is created exactly when email and password are non-empty and the role is absent or in the enum; fields are copied, the role defaults to user, `createdAt` is now; otherwise a validation error |
| Schema.BlogErrors | models/blog.ts:16-30 | a post has no validation errors exactly when the trimmed title, content, author and authorId are non-empty and the status is absent or in the enum |
| Schema.CreateBlog | models/blog.ts:16-30 | a stored title is trimmed and non-empty; thumbnail and excerpt default to "", status to draft, views to 0; both timestamps are now |
| Schema.CreateImage | models/image.ts:3-32 | an image is created exactly when name, data, size and uploader are present; mimeType defaults to "image/jpeg"; uploadedAt and both timestamps are now |
| Passwords.SoundHidingHasherExists | lib/authOptions.ts:49-52 | the hasher assumptions (compare accepts every hash of the password; a hash is never the password) can hold together |
| Http.FindById | app/api/blogs/create/route.ts:18 | `findById` finds a user exactly when some stored user has that id, and returns that user |
| Http.FindByIdFinds | app/api/blogs/create/route.ts:18 | with unique ids, looking up a stored user's id returns that user |
| Http.IsAdmin | app/api/blogs/create/route.ts:20 | passing the gate means a stored user with that id has role admin |
| Http.IsAdminExactly | app/api/blogs/create/route.ts:18-22 | with unique ids, a stored user's id passes the admin gate exactly when that stored role is admin |
| AuthOptions.SessionsLastThirtyDays | lib/authOptions.ts:8-11 | the session strategy is JWT and the lifetime is 2 592 000 seconds, thirty days |
| AuthOptions.FindByEmail | lib/authOptions.ts:39 | the lookup finds the user stored under exactly that email |
| AuthOptions.Authorize | lib/authOptions.ts:25-71 | a user is returned exactly when credentials, email and password are present, no exception occurs, the normalized email is stored and the password compares; it carries the stored id, name, email and a role in {user, admin} |
| AuthOptions.AuthorizeSeesNormalizedEmailOnly | lib/authOptions.ts:32-57 | emails with the same normalization get the same answer; unknown email and wrong password both give none |
| AuthOptions.Token.constructor | lib/authOptions.ts:75 | a fresh token carries no claims |
| AuthOptions.Token.Jwt | lib/authOptions.ts:75-83 | without a user the token is unchanged; with one, id, email, name and role (default "user") are copied |
| AuthOptions.Session.constructor | lib/authOptions.ts:84 | a session starts from the user it is given |
| AuthOptions.Session.Populate | lib/authOptions.ts:84-90 | id and role are copied from the token only when the session has a user |
| AuthOptions.SignIn | lib/authOptions.ts:25-90 | sign-in yields a session exactly when `authorize` succeeds, carrying the authorized id, name, email and role |
| SignupRoute.ValidationError | app/api/auth/signup/route.ts:11-30 | 400 messages in order: missing email or password; missing or short trimmed name; password under 6; none exactly when all pass |
| SignupRoute.ErrorReply | app/api/auth/signup/route.ts:78-125 | duplicate key gives 409; refused connection, unknown cluster or authentication failure give 503; another Error gives 500 with "Database error: " followed by exactly the first 100 characters of its message (all of it when shorter); a non-Error gives 500 "Signup failed. Please try again." |
| SignupRoute.Outcome | app/api/auth/signup/route.ts:6-125 | failures leave the users unchanged; success adds exactly one user under the normalized email with the trimmed name, the hash and role user, and replies 201 without the password |
| SignupRoute.SignupKeepsUsersValid | app/api/auth/signup/route.ts:32-58 | given a fresh id, every signup keeps users keyed by normalized email with unique non-empty ids |
| SignupRoute.InsertKeepsUsersValid | app/api/auth/signup/route.ts:53-58 | inserting a record under its own normal, absent email with a fresh id keeps the store valid |
| SignupRoute.SignupStoresNoPlaintext | app/api/auth/signup/route.ts:50-58 | with a hiding hasher the stored password is never the plaintext, and the store grows by one |
| SignupRoute.SecondSignupConflicts | app/api/auth/signup/route.ts:40-47 | a second signup whose email normalizes the same gets 409 and changes nothing |
| SignupRoute.BlankEmailNormalizesToEmpty | app/api/auth/signup/route.ts:32 | an all-white-space email normalizes to "" |
| SignupRoute.BlankEmailCastFails | models/user.ts:13 | a user record with email "" fails the schema's required check |
| SignupRoute.BlankEmailIsDatabaseError | app/api/auth/signup/route.ts:11-125 | an all-white-space email passes the 400 checks and reaches the catch-all error mapping without storing anything |
| BlogCreateRoute.ValidationError | app/api/blogs/create/route.ts:27-32 | 400 "Title and content are required" exactly when title or content is missing or blank |
| BlogCreateRoute.ExcerptFor | app/api/blogs/create/route.ts:37 | the trimmed excerpt when not blank, else the prefix of the untrimmed content of length min(150, its length), so all of a shorter content |
| BlogCreateRoute.NewPost | app/api/blogs/create/route.ts:34-43 | the post has trimmed title and content, the excerpt rule, thumbnail default "", author name-or-email, author id, status default draft and views 0 |
| BlogCreateRoute.Outcome | app/api/blogs/create/route.ts:8-56 | 401 without a session, 500 on a fault, 403 unless the stored user is admin, 400 on a bad body, else 201 appending exactly the new post (500 if the schema refuses it); failures change nothing |
| BlogCreateRoute.ValidBodyIsStored | app/api/blogs/create/route.ts:17-48 | an admin's valid body is stored with their name (or email) and id as author |
| BlogCreateRoute.StaleAdminClaimForbidden | app/api/blogs/create/route.ts:18-22 | a session claiming admin for a user stored as plain user gets 403: the stored role decides |
| AdminBlogCreateRoute.ValidationError | app/api/admin/blogs/create/route.ts:11-30 | in order: any of title, content, author, authorId missing; trimmed title under 3; trimmed content under 10 |
| AdminBlogCreateRoute.ExcerptFor | app/api/admin/blogs/create/route.ts:39 | the excerpt when non-empty, else the prefix of the content of length min(150, its length), so all of a shorter content |
| AdminBlogCreateRoute.NewPost | app/api/admin/blogs/create/route.ts:34-41 | the post is created exactly when the status is absent or valid; status defaults to draft, views 0, title trimmed by the schema |
| AdminBlogCreateRoute.Outcome | app/api/admin/blogs/create/route.ts:5-54 | no session check: the reply depends on the body and faults only; 400 before any store access, 500 on a fault or schema refusal, 201 appends exactly the post; failures change nothing |
| AdminImagesRoute.ValidationError | app/api/admin/images/route.ts:46-53 | 400 "Missing required fields" exactly when name, data, mimeType or a non-zero size is missing |
| AdminImagesRoute.NewImage | app/api/admin/images/route.ts:55-63 | the image is created exactly when the uploader id is non-empty, and records that uploader, the body's fields and the upload time |
| AdminImagesRoute.PostOutcome | app/api/admin/images/route.ts:27-76 | 401 without a session, 500 on a fault, 403 unless the stored user is admin, 400 on a bad body, else 201 appending exactly the new image uploaded by the session user; failures change nothing |
| AdminImagesRoute.InsertByDate | app/api/admin/images/route.ts:12-15 | inserting into a newest-first list keeps it newest-first and adds exactly that image |
| AdminImagesRoute.NewestFirstCons | app/api/admin/images/route.ts:14 | an image no older than a newest-first list can head it |
| AdminImagesRoute.SortNewestFirst | app/api/admin/images/route.ts:12-15 | the sorted list is newest `uploadedAt` first and a permutation of the images |
| AdminImagesRoute.GetOutcome | app/api/admin/images/route.ts:8-25 | GET checks no session: 200 with all images newest first, or 500 on a fault |
| AdminUsersRoute.Listing | app/api/admin/users/route.ts:26 | the listing has the same users, each with id, name, email, role and creation time and no password |
| AdminUsersRoute.ListingIgnoresPasswords | app/api/admin/users/route.ts:26-28 | stores differing only in passwords list identically |
| AdminUsersRoute.Outcome | app/api/admin/users/route.ts:7-36 | 401 without a session, 403 unless the stored user is admin, 500 on a fault, else 200 with the listing |
| Database.Store.FindUserById | app/api/blogs/create/route.ts:18 | the loop over the stored users returns the user `findById` finds |
| Database.Store.IsAdminUser | app/api/blogs/create/route.ts:18-22 | returns a user exactly when the admin gate passes |
| Database.Store.Signup | app/api/auth/signup/route.ts:6-125 | reply and new users are the signup outcome; the store stays valid; posts and images are untouched |
| Database.Store.CreateBlog | app/api/blogs/create/route.ts:8-56 | reply and new posts are the route's outcome; users and images are untouched |
| Database.Store.AdminCreateBlog | app/api/admin/blogs/create/route.ts:5-54 | reply and new posts are the route's outcome; users and images are untouched |
| Database.Store.UploadImage | app/api/admin/images/route.ts:27-76 | reply and new images are the POST outcome; users and posts are untouched |
| Database.Store.ListImages | app/api/admin/images/route.ts:8-25 | the reply lists every stored image, newest first |
| Database.Store.ListUsers | app/api/admin/users/route.ts:7-36 | the reply is the listing route's outcome |
| EmailPattern.LooseEmailMatchesRegex | components/Auth/SignupForm.tsx:37 | the pattern holds exactly when there is no white space, one "@" not first, and a "." strictly inside the domain |
| EmailPattern.LooseEmailNotBlank | components/Auth/SignupForm.tsx:37-42 | a matching address is not blank |
| EmailPattern.EmailError | components/Auth/SignupForm.tsx:37-42 | blank gives "Email is required", a non-matching address the invalid message, none exactly when the pattern matches |
| SignupForm.FullNameError | components/Auth/SignupForm.tsx:30-34 | blank gives required, a trimmed length under 2 gives too short, none exactly when the trimmed length is at least 2 |
| SignupForm.PasswordError | components/Auth/SignupForm.tsx:45-57 | only the first failing rule in the order empty, short, lower, upper, digit; none exactly when all pass |
| SignupForm.ConfirmError | components/Auth/SignupForm.tsx:60-64 | empty gives "Please confirm your password", a mismatch gives "Passwords do not match" |
| SignupForm.Form.constructor | components/Auth/SignupForm.tsx:16-23 | all fields empty, no errors, not loading |
| SignupForm.Form.ValidateForm | components/Auth/SignupForm.tsx:26-68 | the errors are one per field; the form is valid exactly when there are none, exactly when the form is accepted |
| SignupForm.Form.Submit | components/Auth/SignupForm.tsx:75-95 | the errors become the four field messages of `validateForm`; a request is sent exactly when the form is accepted, carrying the three fields and setting loading; otherwise shake, an error toast and loading unchanged; a valid submit leaves the shake flag as it was |
| SignupForm.Form.Receive | components/Auth/SignupForm.tsx:97-116 | a non-OK reply shows its error and stays; a failed request shows a generic error; OK shows success and redirects to "/" after 2 s |
| SignupForm.Form.EndShake | components/Auth/SignupForm.tsx:70-73 | the 600 ms shake timer fires: the form stops shaking and nothing else changes |
| LoginForm.PasswordError | components/Auth/LoginForm.tsx:36-40 | empty gives required, under 6 gives too short, none exactly when at least 6 |
| LoginForm.Form.constructor | components/Auth/LoginForm.tsx:17-21 | empty fields, no errors, not loading |
| LoginForm.Form.ValidateForm | components/Auth/LoginForm.tsx:24-44 | one message per field; valid exactly when the email matches and the password has at least 6 characters |
| LoginForm.Form.Submit | components/Auth/LoginForm.tsx:51-66 | the errors become the two field messages of `validateForm`; `signIn` is called exactly when the form is valid, with the typed email and password and loading set; otherwise shake, an error toast and loading unchanged; a valid submit leaves the shake flag as it was |
| LoginForm.Form.Receive | components/Auth/LoginForm.tsx:68-82 | an error shows it, shakes and stays; otherwise success and a redirect to "/" after 500 ms |
| LoginForm.Form.EndShake | components/Auth/LoginForm.tsx:46-49 | the 600 ms shake timer fires: the form stops shaking and nothing else changes |
| BlogCreatePage.ValidationError | app/admin/blogs/create/page.tsx:29-47 | the first failing check only: blank title, untrimmed title under 3, blank content, untrimmed content under 10; none exactly when all pass |
| BlogCreatePage.RequestBody | app/admin/blogs/create/page.tsx:61-70 | excerpt or the first 150 characters of the content, author name or "Anonymous", id or "", status "published" |
| BlogCreatePage.Page.constructor | app/admin/blogs/create/page.tsx:12-17 | three empty fields, not loading |
| BlogCreatePage.Page.HandleChange | app/admin/blogs/create/page.tsx:19-27 | only the named field changes |
| BlogCreatePage.Page.Submit | app/admin/blogs/create/page.tsx:49-71 | an invalid form shows its one message and sends nothing; a valid one sets loading and sends the request body |
| BlogCreatePage.Page.Receive | app/admin/blogs/create/page.tsx:73-93 | success resets the three fields and redirects to the list after 1.5 s; errors show the message; loading ends in every case |
| ContactSection.Section.constructor | components/Landing/ContactSection.tsx:7-14 | five empty fields, not loading |
| ContactSection.Section.HandleChange | components/Landing/ContactSection.tsx:16-24 | only the named field changes |
| ContactSection.Section.Submit | components/Landing/ContactSection.tsx:26-34 | sending starts exactly when full name, email and message are non-empty; otherwise an error toast and no change |
| ContactSection.Section.Finish | components/Landing/ContactSection.tsx:36-55 | delivery clears all five fields with a success toast; failure keeps them; loading ends either way |
| ManageUsers.SeedUsers | components/Admin/ManageUsers.tsx:16-49 | the table starts with four seeded rows |
| ManageUsers.FilteredUsers | components/Admin/ManageUsers.tsx:60-66 | exactly the rows whose name or email includes the term, ignoring case, and whose role passes the filter |
| ManageUsers.FilteredUsersAppend | components/Admin/ManageUsers.tsx:60-66 | the search distributes over concatenation, so the rows shown keep their table order |
| ManageUsers.EmptySearchShowsEveryone | components/Admin/ManageUsers.tsx:60-66 | an empty term with filter "all" shows every row, in order |
| ManageUsers.FindUser | components/Admin/ManageUsers.tsx:69 | finds a row exactly when one has the id, and returns the first such row |
| ManageUsers.WithoutUser | components/Admin/ManageUsers.tsx:95 | removes exactly the rows with the id |
| ManageUsers.WithoutUserAppend | components/Admin/ManageUsers.tsx:95 | the delete distributes over concatenation, so the remaining rows keep their order |
| ManageUsers.DeleteAbsentIdChangesNothing | components/Admin/ManageUsers.tsx:95 | deleting an id no row has changes nothing |
| ManageUsers.DeleteIsIdempotent | components/Admin/ManageUsers.tsx:95 | deleting the same id twice is deleting once |
| ManageUsers.SetRole | components/Admin/ManageUsers.tsx:97-110 | rows with the id get the role; every other field and row is unchanged |
| ManageUsers.PromoteThenDemoteRestores | components/Admin/ManageUsers.tsx:97-110 | demote after promote restores a table whose rows with that id were plain users |
| ManageUsers.PromotedUserListedAsAdmin | components/Admin/ManageUsers.tsx:60-66 | a promoted row appears under the "admin" filter |
| ManageUsers.Panel.constructor | components/Admin/ManageUsers.tsx:16-59 | the seed rows, empty search, filter "all", no dialog |
| ManageUsers.Panel.RequestDelete | components/Admin/ManageUsers.tsx:68-73 | the delete dialog opens only for an existing id, naming its first row; rows, loadingId, search term and role filter are unchanged |
| ManageUsers.Panel.RequestPromote | components/Admin/ManageUsers.tsx:75-80 | the promote dialog opens only for an existing plain user; rows, loadingId, search term and role filter are unchanged |
| ManageUsers.Panel.RequestDemote | components/Admin/ManageUsers.tsx:82-87 | the demote dialog opens only for an existing admin; rows, loadingId, search term and role filter are unchanged |
| ManageUsers.Panel.Cancel | components/Admin/ManageUsers.tsx:282 | the dialog closes; rows, loadingId, search term and role filter are unchanged |
| ManageUsers.Panel.Confirm | components/Admin/ManageUsers.tsx:89-115 | without a dialog nothing happens; otherwise the action applies to the rows with the id with its success toast, then dialog and loadingId are cleared; search term and role filter are unchanged |
| ManageBlogs.FilteredBlogs | components/Admin/ManageBlogs.tsx:48-55 | exactly the rows whose title or author includes the term, ignoring case, and whose status passes the filter |
| ManageBlogs.EmptySearchShowsEveryBlog | components/Admin/ManageBlogs.tsx:48-55 | an empty term with filter "all" lists every post |
| ManageBlogs.StatusFiltersPartition | components/Admin/ManageBlogs.tsx:48-55 | the "published" and "draft" results of a search add up to its "all" result |
| ManageBlogs.FilterOfFiltered | components/Admin/ManageBlogs.tsx:48-55 | a status filter equals filtering the "all" result by status |
| ManageBlogs.WithoutBlog | components/Admin/ManageBlogs.tsx:74 | removes exactly the posts with the id |
| ManageBlogs.DeleteAbsentBlogChangesNothing | components/Admin/ManageBlogs.tsx:74 | deleting an absent id changes nothing |
| ManageBlogs.Panel.constructor | components/Admin/ManageBlogs.tsx:21-27 | empty list, loading, empty search, filter "all" |
| ManageBlogs.Panel.ReceiveBlogs | components/Admin/ManageBlogs.tsx:34-46 | a payload replaces the list by the array-or-field rule; a failure keeps it and shows an error; loading ends; the search, status filter and loadingId are kept |
| ManageBlogs.Panel.DeleteBlog | components/Admin/ManageBlogs.tsx:57-82 | declined: no request, no change; OK removes exactly that id; not OK keeps the list; loadingId ends cleared |
| ManageImages.Rejection | components/Admin/ManageImages.tsx:70-78 | a file goes on exactly when its type starts with "image/" and its size is at most 5 MiB, else the matching message |
| ManageImages.SizeLimitIsInclusive | components/Admin/ManageImages.tsx:75-78 | exactly 5 MiB is accepted, one byte more is not |
| ManageImages.AfterSelectStep | components/Admin/ManageImages.tsx:66-103 | one more file prepends its upload exactly when it passed the gate and uploaded, and otherwise leaves the list as it was |
| ManageImages.SelectKeepsExistingImages | components/Admin/ManageImages.tsx:99 | uploads only prepend: the earlier list stays, in order, at the end |
| ManageImages.SelectAddsOnlyAcceptedUploads | components/Admin/ManageImages.tsx:66-103 | every new image is the upload of a file that passed the gate |
| ManageImages.FilteredImages | components/Admin/ManageImages.tsx:159-161 | exactly the images whose name includes the term, ignoring case |
| ManageImages.FilteredImagesAppend | components/Admin/ManageImages.tsx:159-161 | the search distributes over concatenation, so the images shown keep their order |
| ManageImages.EmptySearchShowsEveryImage | components/Admin/ManageImages.tsx:159-161 | an empty term lists every image |
| ManageImages.WithoutImage | components/Admin/ManageImages.tsx:144 | removes exactly the images with the id |
| ManageImages.DeleteUndoesUpload | components/Admin/ManageImages.tsx:99-144 | deleting a just-prepended image with a fresh id restores the list |
| ManageImages.DeleteFailure | components/Admin/ManageImages.tsx:139-153 | a failed delete's toast is an error reading "❌ Failed to delete image: " then `Error: ` with the server's error or "Failed to delete image", or then the request's own failure |
| ManageImages.Library.constructor | components/Admin/ManageImages.tsx:26-36 | empty list, loading, closed dialog |
| ManageImages.Library.ReceiveImages | components/Admin/ManageImages.tsx:42-57 | a payload replaces the list by the array-or-field rule; a failure keeps it and shows an error; loading ends; the dialog, loadingId, uploading flag and search term are kept |
| ManageImages.Library.HandleImageSelect | components/Admin/ManageImages.tsx:59-113 | the loop skips rejected files and goes on; the list becomes `AfterSelect` of the files, their upload results and the old list, which prepends each accepted, uploaded image; one toast per file after "Uploading image..."; the dialog, loadingId, loading flag and search term are kept |
| ManageImages.Library.OpenDeleteDialog | components/Admin/ManageImages.tsx:116-122 | the dialog opens with the id and name; the list, loadingId, loading and uploading flags and search term are kept |
| ManageImages.Library.CloseDeleteDialog | components/Admin/ManageImages.tsx:124-130 | the dialog resets to closed, "", ""; the list, loadingId, loading and uploading flags and search term are kept |
| ManageImages.Library.DeleteImage | components/Admin/ManageImages.tsx:132-157 | OK removes exactly that id, closes the dialog and shows success; otherwise list and dialog stay and the error toast of `DeleteFailure` is shown; loadingId ends cleared; the loading and uploading flags and search term are kept |
| BlogsPage.PublishedOnly | app/blogs/page.tsx:45-47 | exactly the published posts are kept |
| BlogsPage.Search | app/blogs/page.tsx:57-66 | exactly the posts whose title, author or excerpt includes the term, ignoring case |
| BlogsPage.EmptySearchShowsAll | app/blogs/page.tsx:57-66 | an empty term shows the whole published list |
| BlogsPage.LowerCasedTermSearchesAlike | app/blogs/page.tsx:58-65 | searching with the lower-cased term finds what the typed term finds |
| BlogsPage.SearchShowsOnlyPublished | app/blogs/page.tsx:45-66 | every post a search shows is published |
| BlogsPage.CountNoun | app/blogs/page.tsx:97-98 | "blog" exactly when the count is one, else "blogs" |
| BlogsPage.CardText | app/blogs/page.tsx:142 | the text ends in "..."; before it comes the excerpt when non-empty, else the prefix of the content of length min(150, length) |
| BlogsPage.Page.constructor | app/blogs/page.tsx:23-26 | empty lists and term, loading |
| BlogsPage.Page.OnSession | app/blogs/page.tsx:30-37 | no user redirects to the login page and fetches nothing; a user fetches |
| BlogsPage.Page.ReceiveBlogs | app/blogs/page.tsx:39-55 | the published posts of the payload become both lists; a failure changes neither |
| BlogsPage.Page.HandleSearch | app/blogs/page.tsx:57-67 | the shown list is the search of the full list, independent of earlier searches |
| AdminImagesPage.RedirectFor | app/admin/images/page.tsx:13-23 | no user goes to login, a non-admin role goes home, and only an admin stays |
| AdminImagesPage.SessionCheckFirst | app/admin/images/page.tsx:14-22 | the session check precedes the role check |
| AdminDashboard.Tally | app/admin/page.tsx:35-46 | total is the array length; published and draft are the numbers of posts with that status; a non-array counts as empty; published + draft ≤ total; users default to 0 |
| AdminDashboard.ValidStatusesAddUp | app/admin/page.tsx:38-42 | with only valid statuses, published + draft = total |
| AdminDashboard.Display | app/admin/page.tsx:78 | a counter shows "-" exactly while loading, and afterwards decimal digits denoting the number |
| AdminDashboard.Dashboard.constructor | app/admin/page.tsx:15-21 | all counters 0, loading |
| AdminDashboard.Dashboard.FetchStats | app/admin/page.tsx:27-52 | success sets the tallied counters; failure keeps them; loading ends |
| DashboardHome.InitialCards | components/Admin/DashboardHome.tsx:59-88 | four cards, all showing 0 |
| DashboardHome.FetchedCards | components/Admin/DashboardHome.tsx:104-137 | counters as on the admin home, in the order total, published, draft, users, with trends 12 up, 5 up, 3 down, 8 up |
| DashboardHome.TrendLine | components/Admin/DashboardHome.tsx:36-45 | the arrow is up exactly when the trend is positive; then a space, decimal digits denoting the magnitude of the value, and "% from last month" |
| DashboardHome.TrendLineShowsMagnitude | components/Admin/DashboardHome.tsx:43 | a value and its negation display the same |
| DashboardHome.Home.constructor | components/Admin/DashboardHome.tsx:58-89 | the initial cards, loading |
| DashboardHome.Home.FetchStats | components/Admin/DashboardHome.tsx:95-142 | success sets the fetched cards; failure keeps them |
| Toast.ShowToast | components/Toast/Toast.tsx:87-92 | the type defaults to info |
| Toast.StylesDistinguishTypes | components/Toast/Toast.tsx:26-36 | colour and icon are defined for every type and tell the types apart |
| Toast.DecimalString | components/Toast/Toast.tsx:55 | `Date.now().toString()`: non-empty decimal digits with no leading zero, denoting the clock value |
| Toast.DistinctClocksDistinctIds | components/Toast/Toast.tsx:55 | toasts shown at different milliseconds get different ids |
| Toast.WithoutId | components/Toast/Toast.tsx:67-69 | removes exactly the toasts with the id |
| Toast.WithoutAbsentId | components/Toast/Toast.tsx:67-69 | removing an absent id changes nothing |
| Toast.WithoutIdAppend | components/Toast/Toast.tsx:67-69 | removal keeps the order of what remains |
| Toast.ToastContainer.constructor | components/Toast/Toast.tsx:50 | the queue starts empty |
| Toast.ToastContainer.HandleToast | components/Toast/Toast.tsx:53-59 | the new toast is appended and the existing toasts are unchanged |
| Toast.ToastContainer.RemoveToast | components/Toast/Toast.tsx:67-69 | the queue loses exactly the toasts with the id |
| Toast.ToastContainer.AutoClose | components/Toast/Toast.tsx:21-24 | a toast's timer removes its own id, and that toast is gone |
| Toast.CloseUndoesShow | components/Toast/Toast.tsx:21-24 | a toast whose id no other toast has is removed by its own timer, restoring the queue |
| Toast.SameMillisecondToastsCloseTogether | components/Toast/Toast.tsx:55 | two toasts shown in the same millisecond share an id and close together |
| AdminLayout.NavItems | components/Admin/AdminLayout.tsx:19-24 | four items, the first being the dashboard at "/admin" |
| AdminLayout.FirstActive | components/Admin/AdminLayout.tsx:128 | the first item in order that is active, or none exactly when no item is active |
| AdminLayout.PageTitle | components/Admin/AdminLayout.tsx:128-129 | the heading is the first active item's name, and "Dashboard" when no item is active (in particular without a pathname); it is always an item name |
| AdminLayout.BlogEditorTitledManageBlogs | components/Admin/AdminLayout.tsx:26-31 | "/admin/blogs/create" activates "Manage Blogs", not the dashboard, and is titled "Manage Blogs" |
| AdminLayout.Layout.constructor | components/Admin/AdminLayout.tsx:14-15 | sidebar open, not logging out |
| AdminLayout.Layout.ToggleSidebar | components/Admin/AdminLayout.tsx:113 | the sidebar flag flips |
| AdminLayout.Layout.HandleLogout | components/Admin/AdminLayout.tsx:33-45 | success keeps the busy flag and redirects to login after 500 ms; failure resets it |
| Testimonials.NextIndex | components/Landing/TestimonialsSection.tsx:56 | the next index wraps from 4 to 0 and stays in range |
| Testimonials.PrevIndex | components/Landing/TestimonialsSection.tsx:63-65 | the previous index wraps from 0 to 4 and stays in range |
| Testimonials.NextPrevInverse | components/Landing/TestimonialsSection.tsx:56-71 | prev after next and next after prev restore the index |
| Testimonials.FullCycle | components/Landing/TestimonialsSection.tsx:56 | five steps come back to the start |
| Testimonials.Carousel.constructor | components/Landing/TestimonialsSection.tsx:6-7 | index 0, autoplay on |
| Testimonials.Carousel.Tick | components/Landing/TestimonialsSection.tsx:53-58 | advances only while autoplay is on |
| Testimonials.Carousel.Prev | components/Landing/TestimonialsSection.tsx:61-66 | autoplay off, one step back |
| Testimonials.Carousel.Next | components/Landing/TestimonialsSection.tsx:68-71 | autoplay off, one step forward |
| Testimonials.Carousel.Select | components/Landing/TestimonialsSection.tsx:156-159 | autoplay off, index set directly |
| Testimonials.Carousel.MouseEnter | components/Landing/TestimonialsSection.tsx:136 | autoplay pauses |
| Testimonials.Carousel.MouseLeave | components/Landing/TestimonialsSection.tsx:137 | autoplay resumes |
| CrossChecks.AcceptedEmailNormalizesNonEmpty | components/Auth/SignupForm.tsx:37-42 | an address the form accepts normalizes to a non-empty string |
| CrossChecks.SignupFormAcceptanceImpliesServerAcceptance | components/Auth/SignupForm.tsx:26-95 | whatever the signup form sends passes the server's checks at app/api/auth/signup/route.ts lines 11-30 |
| CrossChecks.SignupThenSignIn | lib/authOptions.ts:25-66 | a fresh account signs in with its password under any spelling of its email that normalizes the same, as role user |
| CrossChecks.PaddedTitlePassesPageFailsServer | app/admin/blogs/create/page.tsx:30-37 | a title blank-free and 3 long as typed but under 3 trimmed passes the page and gets "Title must be at least 3 characters" from the admin route |
| CrossChecks.PaddedShortTitleExample | app/admin/blogs/create/page.tsx:34 | "  ab  " is such a title |
| CrossChecks.AnonymousPostRefused | app/admin/blogs/create/page.tsx:65-68 | without a session user the editor's request is refused as missing fields |

## Left out

- Password hashing is an abstract hasher: the soundness and hiding properties are preconditions, not a bcrypt model, and the cost factor 10 is only recorded.
- next-auth signing, cookies and `getServerSession`/`signIn`/`signOut` are not modelled; a session is an optional record of id, name, email and role.
- Database connection plumbing (lib/mongodb.js, lib/mongodbClient.ts) is not part of this model. Any exception from connecting, querying or saving is a `fault` parameter.
- Ids, the clock and hashing salts are parameters.
- Requests are strictly sequential. The duplicate-email race between the lookup and the insert is not modelled; only the E11000 message mapping is.
- Request bodies are assumed to be JSON objects whose fields are strings or absent (or a number, for image size). A malformed body or a non-string field would throw and produce a 500; that path is not modelled.
- A session id that is not a valid ObjectId makes mongoose's `findById` throw (a 500); the model treats it as an unknown id (a 403).
- JavaScript strings are modelled with ASCII lower-casing and a fixed white-space set rather than full Unicode case mapping. Length is sequence length, not UTF-16 code units.
- Timers are events: toast auto-close and the end of the form shake (`EndShake`, 600 ms) are methods a caller invokes, and the half-second delay before a user-table action is collapsed so the action applies at once. The delayed redirects are returned as values. The image list's refetch after a delete is a later `ReceiveImages` call.
- Toast.ToastContainer.AutoClose: in the source every toast's close callback is a fresh closure on each render, and the timer effect depends on it, so each change to the queue restarts the remaining toasts' four-second timers. The model lets any toast's timer fire at any time, which admits more orders than the source.
- AdminImagesRoute.GetOutcome: the GET route populates each image's `uploadedBy` with the uploader's name and email; the model returns the stored uploader id.
- ManageImages.Library.HandleImageSelect: file reading and uploads run asynchronously in the source. The model takes each file's upload result as a parameter and applies the results in file order; the upload populating the uploader's name and email is not modelled.
- React closures that capture stale state are not modelled. For example, `confirmAction` filtering the `users` of an earlier render reads, in this sequential model, the current list.
- The mock-database user route (app/api/users/all/route.ts), the health-check route and the GET post-list routes are not part of this model. The presentation-only components and the floating-point statistics sample data are not part of this model either.
- Console logging is not modelled.
- The constant `message` field of each 201 reply is not modelled: "Account created successfully", "Blog created successfully" from both create routes, and "Image uploaded successfully". `Http.Reply.Success` carries the status and the created record only, and no modelled client reads the message.
- AdminUsersRoute.Listing: the user list is returned as a map keyed by email, not as an ordered array.
- SignupRoute.BlankEmailIsDatabaseError: it proves that a white-space-only email reaches the error mapping with the schema's validation message, and that the reply is a 409, 503 or 500. It does not compute which of the three: that would mean evaluating substring tests against the literal message.

# EduTech backend: post interactions and account flows in Dafny

This project models the two pieces of logic inside the Express handlers of
the EduTech course/post backend:

* the **post-interaction state machine** of `controllers/postController.js`:
  the like/dislike toggles with mutual exclusion over two lists of user ids
  and the two counters kept beside them, replies to comments, file entries
  appended to `course_files`, and the checks and the newline rewrite of post
  creation;
* the **account checks and the password-reset flow** of
  `controllers/userController.js`: the guard chains of registration, login,
  password change and password reset, the acceptance rule over the e-mail
  verifier's report, and the life of the four-digit reset code.

A post is the class `Posts.Post`. It holds the schema fields of
`models/postModel.js` and also the fields the handlers use but the schema
does not declare: `likes`, `dislikes`, `likesCount`, `dislikesCount` and
`comments`. The handlers mutate the loaded post in place, so the class
methods do the same. Each method is specified by a pure transition on a
value: `Reactions.Like`, `Reactions.Dislike` and `Threads.AppendReply`. The
properties are lemmas about those transitions. An account is the class
`Accounts.Account` with `password`, `resetPasswordCode` and
`resetPasswordCodeExpires`. A client's server-side session is the class
`Accounts.Session`.

Every handler answers with an `Outcome` or a `Result`. A failure carries
three things:

* the HTTP status the client actually receives;
* a classification (`ValidationError`, `NotFound`, `BadCredentials`,
  `CodeExpired`, `ServiceFailed`, `Unhandled`);
* the message of the Error that was thrown.

Several handlers throw inside a `try` block whose `catch` replaces the
status. `addReply` and `addComment` answer 500 for a missing post or comment
even though they set 404 first. `createPost` answers 500 even for a failed
field check. `forgotPassword` and `resetPassword` rethrow as 404 with the
message `"Error: " + original message`. The model records these statuses as
the code produces them.

The inputs from the outside world are parameters:

* the lookup result (`post: Post?`, `user: Account?`, where `null` means not
  found);
* the outcome of an upload (`Posts.Upload`);
* the e-mail verifier's reply;
* whether a mail could be sent;
* the clock `now` in milliseconds;
* the random draw for the reset code, an integer in [0, 9000);
* the bcrypt comparison, as a function parameter `matches(plain, stored)`.

Behaviour of the handlers worth knowing:

* Liking twice is not an exact undo. When the user had already liked the
  post, the like is filtered out and then pushed again at the end. So
  membership and counters come back, but the order of `likes` may change
  (`Reactions.LikeTwice`).
* After a like, the user is not always a liker. A like by a user who had
  already liked the post removes the like.
* `addComment` appends a file entry `{file_name, file, user}` to
  `course_files`. It does not add a comment to `comments`. No handler in the
  core appends to `comments`.
* `addReply` checks for an empty reply text before looking anything up.
* The minimum password length is 8, in both registration and reset.

## Model

| member | source | states |
|---|---|---|
| `Reactions.Without` | controllers/postController.js:302-304 | the filtered list holds no entry of the user, keeps exactly the other users' entries with their multiplicities, and is shorter by the number of the user's entries |
| `Reactions.WithoutSingleton` | controllers/postController.js:302-304 | a one-entry list loses its entry exactly when the entry is the user's |
| `Reactions.WithoutAppend` | controllers/postController.js:302-304 | filtering works entry by entry: the filter of a concatenation is the concatenation of the filters, so together with `WithoutSingleton` the other users' entries keep their order |
| `Reactions.Like` | controllers/postController.js:290-318 | after a like the user is a liker exactly when they were not before, is never a disliker, and each counter moves by one exactly when its list changed |
| `Reactions.Dislike` | controllers/postController.js:333-361 | mirror of the like: the user is toggled among the dislikers and never remains a liker; counters move with their lists |
| `Reactions.LikeKeepsOthers` | controllers/postController.js:300-318 | a like by u changes only u's entries: filtering u out of either list gives the same sequence before and after, so every other user's entries are kept, in order |
| `Reactions.LikeKeepsCounters` | controllers/postController.js:300-318 | if the counters equal the list lengths and u has at most one entry per list, they still do after u likes, and both stay non-negative |
| `Reactions.LikePreservesValid` | controllers/postController.js:291-318 | counters equal lengths, no duplicate entries, and no user in both lists, all preserved by a like of any user |
| `Reactions.ToggleKeepsExclusive` | controllers/postController.js:300-361 | no user is in both lists after a like or a dislike by anyone, from any state with that property, even one whose counters have drifted or that holds duplicates |
| `Reactions.LikeTwice` | controllers/postController.js:300-318 | two likes by a user who does not dislike the post restore every user's membership in both lists and both counters, and restore the lists exactly when the user had not liked either |
| `Reactions.LikeTwiceFromDisliked` | controllers/postController.js:300-318 | starting from "disliked", two likes leave the user in neither list, with the dislike count one lower |
| `Reactions.DislikeMirrorsLike` | controllers/postController.js:325-366 | a dislike is a like on the post with likes and dislikes exchanged |
| `Reactions.DislikePreservesValid` | controllers/postController.js:334-361 | the same invariant (counters, no duplicates, mutual exclusion across all users) is preserved by a dislike |
| `Reactions.DislikeKeepsOthers` | controllers/postController.js:343-361 | a dislike by u leaves every other user's entries as they were, in order |
| `Reactions.DislikeKeepsCounters` | controllers/postController.js:343-361 | counters stay equal to the list lengths and non-negative under a dislike, given at most one entry of u per list |
| `Reactions.DislikeTwice` | controllers/postController.js:343-361 | two dislikes by a user who does not like the post restore memberships and counters |
| `Reactions.LikeThenDislike` | controllers/postController.js:300-361 | a like followed by a dislike leaves the user among the dislikers only |
| `Reactions.DislikeThenLikeScenario` | controllers/postController.js:300-361 | on an empty post, A dislikes giving dislikes=[A], count 1; A then likes giving likes=[A], dislikes=[], counts 1 and 0 |
| `Reactions.DuplicateEntryDrifts` | controllers/postController.js:302-305 | a user listed twice (only possible when two requests race) is filtered out completely but counted down once, so the counter no longer matches |
| `Posts.Post.ToggleLike` | controllers/postController.js:290-318 | the post's reaction fields become `Like` of the old ones, the invariant is kept, and nothing else of the post changes |
| `Posts.Post.ToggleDislike` | controllers/postController.js:333-361 | the post's reaction fields become `Dislike` of the old ones, the invariant is kept, and nothing else changes |
| `Posts.LikePost` | controllers/postController.js:282-322 | a missing post gives 404 "Post not found"; otherwise 200 with the like toggle applied and comments, files and scalar fields untouched |
| `Posts.DislikePost` | controllers/postController.js:325-366 | a missing post gives 404 "Post not found"; otherwise 200 with the dislike toggle applied and nothing else changed |
| `Threads.FindComment` | controllers/postController.js:258-263 | the position of the first comment with the id, or none exactly when no comment has it |
| `Threads.AppendReply` | controllers/postController.js:258-270 | fails exactly when no comment has the id; otherwise the comment list has the same length, that comment gains the reply at the end of its replies, and every other comment is unchanged |
| `Threads.AppendReplyAddsOne` | controllers/postController.js:265-270 | a successful reply adds exactly one reply to the thread, and it is the last reply of its comment |
| `Posts.Post.PushReply` | controllers/postController.js:258-270 | reports whether the comment exists and sets the comments to `AppendReply` of the old ones; reactions, files and scalar fields unchanged |
| `Posts.AddReply` | controllers/postController.js:242-279 | empty text gives 400 before any lookup; a missing post, then a missing comment, give 500 (NotFound rethrown by the catch); success gives 201 and appends exactly one reply `{replyText, user}` to that comment only |
| `Posts.Post.PushCourseFile` | controllers/postController.js:162 | `course_files` grows by the entry at the end; nothing else changes |
| `Posts.AddComment` | controllers/postController.js:120-171 | empty `file_name` gives 400, then a missing file gives 400, a failed upload gives 500, a missing post gives 500; on success `course_files` ends with exactly one new entry `{file_name, file: url, user}` and nothing else changes |
| `Posts.AddCommentAsWritten` | controllers/postController.js:124-148 | the code as written never succeeds: after the two checks it always fails with 500 |
| `Posts.ExpandNewlines` | controllers/postController.js:66 | the rewritten description contains no line feed and is 4 characters longer per line feed |
| `Posts.ExpandNewlinesLineFeed` | controllers/postController.js:66 | every line feed becomes `<br/>`: the text before the first line feed is kept, that line feed is replaced by `<br/>`, and the rest is rewritten in the same way |
| `Posts.ExpandNewlinesIdentity` | controllers/postController.js:66 | a text without line feeds is left unchanged |
| `Posts.ExpandNewlinesIdempotent` | controllers/postController.js:66 | rewriting twice is rewriting once |
| `Posts.ExpandNewlinesAppend` | controllers/postController.js:66 | the rewrite distributes over concatenation |
| `Posts.NewPost` | controllers/postController.js:31-76 | succeeds exactly when title, description and code are all present, the image upload (if any) worked and the author exists; a missing field gives 500 "Please fill in all fields"; the stored description is the rewrite, without line feeds; the image is the uploaded URL or the schema default |
| `Posts.Post.constructor` | controllers/postController.js:61-68 | a created post has the given fields, no reactions (counters 0), no comments and no files |
| `Posts.CreatePost` | controllers/postController.js:31-76 | creates a fresh post with `NewPost`'s fields exactly when `NewPost` succeeds, answering 201, and otherwise its error and no post |
| `Codes.ParseDecimalOfDecimal` | controllers/userController.js:378 | reading back the decimal text of a number gives the number |
| `Codes.DecimalInjective` | controllers/userController.js:378 | different numbers have different decimal texts |
| `Codes.ResetCode` | controllers/userController.js:378 | the code for a draw is four digits without a leading zero, standing for 1000 + draw, in [1000, 9999] |
| `Codes.ResetCodeInjective` | controllers/userController.js:378 | different draws give different codes |
| `Codes.Decimal` | controllers/userController.js:378 | the decimal text of a number, as `toString` writes it, is a non-empty string of digits with no leading zero for numbers from 10 up |
| `Accounts.RegisterUser` | controllers/userController.js:26-200 | registration creates the account exactly when name, e-mail and password are present, the password has at least 8 characters, the e-mail is not registered, the verifier reports format "true", disposable "false", DNS "true" and SMTP not "false", and the welcome mail was sent; each earlier check gives its own 400, a verifier error gives 404 "email verifier", and a failed welcome mail gives 400 "error sending verification email" |
| `Accounts.EmailAccepted` | controllers/userController.js:55-60 | the verifier's report accepts an address when the format and DNS checks are "true", the disposable check is "false" and the SMTP check is anything but "false" |
| `Accounts.RegisterUserAsWritten` | controllers/userController.js:29-46 | the code as written gives no response at all exactly when the fields are present and the password is shorter than 8 |
| `Accounts.RegisterVersionsAgree` | controllers/userController.js:34-38 | the written and the intended registration agree on every input except a present-but-short password, where neither creates an account |
| `Accounts.LoginUserAsWritten` | controllers/userController.js:203-250 | login succeeds exactly when e-mail and password are present, the account exists and the password matches; missing fields, then an unknown e-mail, fail with 400; as written, any found account gets a session cookie |
| `Accounts.LoginUser` | controllers/userController.js:203-250 | the same success condition, and a session cookie is issued exactly on success, for the account logged into |
| `Accounts.WrongPasswordStillGetsCookie` | controllers/userController.js:220-249 | with a wrong password the written login fails yet issues a cookie for the account; the intended one issues none |
| `Accounts.ChangePassword` | controllers/userController.js:334-360 | a missing user, then a missing old or new password, then a wrong old password, each fail with 400 and change nothing; otherwise 200 and only the password changes, to the new one |
| `Accounts.ForgotPassword` | controllers/userController.js:363-466 | an empty e-mail, then an unknown account, fail with 404 and change nothing; otherwise the account gets code `ResetCode(draw)` expiring at now + 3600000, the session remembers the e-mail, and the answer is 200 or, if the mail failed, 404 with the account already updated |
| `Accounts.ResetEmailSent` | controllers/userController.js:469-494 | for the account named by the session's e-mail, checks in order: empty code, missing account, code different from the stored one, stored expiry strictly before now; succeeds exactly when none applies (an expiry equal to now is accepted) and changes nothing |
| `Accounts.Expired` | controllers/userController.js:486 | a stored expiry has passed when it lies strictly before now; with no stored expiry the comparison is false |
| `Accounts.ResetCodeLifecycle` | controllers/userController.js:378-489 | after a code is issued, a code passes the check exactly when it is the issued code and the check is no later than one hour after issue; no other four-digit number passes |
| `Accounts.ResetPassword` | controllers/userController.js:497-533 | for the account named by the session's e-mail: an empty password, then one shorter than 8, then a missing account, fail with 404; otherwise 200 and only the password changes; the reset code plays no part |
| `Accounts.ResetPasswordWithCode` | controllers/userController.js:497-533 | an empty password, then one shorter than 8, then a missing account, fail with 404 as in `ResetPassword`; after them a code `ResetEmailSent` refuses gives that refusal; the password changes, and nothing else, exactly when all checks pass and the code is accepted |
| `Accounts.ResetWithoutCode` | controllers/userController.js:363-533 | a client knowing only the victim's e-mail calls forgotPassword, which makes its own session name the victim; with that session the written reset sets the victim's password, while the intended reset answers 404 "invalid code" to a wrong code and leaves the password as it was |
| `Accounts.Account.constructor` | controllers/userController.js:158-163 | a registered account holds the registration's fields and no reset code |
| `Accounts.Session.constructor` | index.js:28-34 | every client starts with a session that holds no reset e-mail; `ForgotPassword` sets it, and the reset handlers act on the account it names (`NamedBySession`) |
| `Accounts.NamedBySession` | controllers/userController.js:471-474 | the account a reset handler acts on is the one `findOne({ email })` returns for the session's e-mail: when the session holds an e-mail, an account found has that e-mail |

## Findings

| source | as written | input that shows it | evidently intended | confidence | as-written member | corrected member |
|---|---|---|---|---|---|---|
| controllers/postController.js:142 | the upload options read `name`, which is declared nowhere; the ReferenceError is caught and answered with 500, so no file entry is ever appended | any request with a non-empty `file_name` and a file | upload, then append `{file_name, file: url, user}` to `course_files` and answer 201 | high; not executed | `Posts.AddCommentAsWritten` | `Posts.AddComment` |
| controllers/userController.js:34-38 | `return res` ends the handler; the status and throw after it are unreachable, so the client never gets a response | fullname "Ada", e-mail "ada@example.com", password "short" | answer 400 "Password must be up to 8 characters" | high; not executed | `Accounts.RegisterUserAsWritten` (with `Accounts.RegisterVersionsAgree`) | `Accounts.RegisterUser` |
| controllers/userController.js:223-235 | the session-token cookie is set before the password check, so a failed login still carries a valid token for the account | a registered e-mail with any wrong password | set the cookie only after the password matched | high; not executed | `Accounts.LoginUserAsWritten` (with `Accounts.WrongPasswordStillGetsCookie`) | `Accounts.LoginUser` |
| controllers/userController.js:497-523 | the new password is written for the account named by the session e-mail without checking the reset code | forgotPassword with the victim's e-mail, then resetPassword with any 8-character password in the same session | accept the new password only with the valid, unexpired code | medium; not executed | `Accounts.ResetPassword` (with `Accounts.ResetWithoutCode`) | `Accounts.ResetPasswordWithCode` |

## Left out

- Persistence: `findById`, `findOne`, `save`, `create`, `populate`. A lookup is a parameter that is either an object or `null`, and saving is implicit. A failed `save` is not modelled.
- The read-modify-write race between concurrent requests on the same post. Only the effect of a duplicate entry that such a race can leave is shown (`Reactions.DuplicateEntryDrifts`).
- Cloudinary and Firebase uploads and multer. An upload is represented only by its outcome (`Posts.Upload`). Requests without any files object, where `req.files.image` or `req.files.file` throws before validation, are not modelled.
- `getDownload` and `uploadfile`. Both are broken: one destructures a string literal, the other reads an undeclared `file`.
- The read-only handlers `getPosts`, `getPostUser` and `getPostById`.
- `logoutUser`, `loginStatus`, `getUser` and `updateUser`, which are outside the modelled core.
- Signing and verifying tokens, cookie attributes and sessions beyond the stored reset e-mail. Login records only which account a cookie is issued for.
- bcrypt. The comparison is the parameter `matches`. Hashing on save happens in the user model, which is not part of this model, so `password` holds what the handler assigns.
- nodemailer, the mail templates and the e-mail verifier's network call. Their outcomes are parameters.
- `Math.random` and `Date.now`. They are integer parameters.
- Route wiring and server start-up. This includes the import in routes/postRoute.js of a `deletePost` that the controller does not export.
- models/courseModel.js. Its `course_files` has the same shape as a post's.
- Subdocument ids, `createdAt`/`updatedAt` timestamps and the `public_id` of uploads.
- Response bodies: the model records the status and the thrown message. Where a catch sends the Error object itself, the client receives `{}`.
- Mongoose schema validation of required fields on create, for example an author with an empty full name.
- JavaScript truthiness: a missing field and an empty string are both modelled as `""`. Non-string request values, such as a numeric reset code, are not modelled.
- String length: JavaScript counts UTF-16 code units and the model counts characters.
- Accounts.ResetEmailSent: the error middleware is not part of this model, so the status of the uncaught TypeError for a missing account is taken to be 500.
- Accounts.NamedBySession: when the session holds no e-mail, the account the lookup returns is left open; what `findOne` does with an undefined filter value depends on driver settings that are not part of this model.
- Posts.NewPost: for the same reason, a missing author record is modelled as a 500 failure. In the code, reading `user.fullname` throws inside the try block, whose catch answers 500.
- Accounts.ChangePassword: the source does not check the length of the new password, and the model keeps it that way.
- Posts.Post.constructor: the model starts a new post with empty reaction lists and zero counters. The schema does not declare these fields.

# Ram Chatt backend rules in Dafny

This project models the domain rules of the Ram Chatt Express/Mongoose
backend: what each HTTP handler checks before it touches a loaded document,
which status and message it fails with, and how it then changes the document.
It also models the model-level hooks and jobs, the error middleware, the upload
filter and the request validators.

The database does not appear. A document found by id is a parameter of class
type that is `null` when the lookup finds nothing. A query result is a
parameter: the set of registered ids, the list of users a search returned, the
stored chats. Time (`Date.now`, `moment`), randomness (`nanoid`,
`crypto.randomBytes`), the bcrypt comparison and the AES key stream are
parameters too.

A thrown error is an `HttpError(status, message)`. The `status` is the response
status at the moment of the throw: 200 when the handler never called
`res.status`, in which case `errorHandler` answers 500.

Modules, one per source file:

- `Common` (common.dfy): optional request fields and JavaScript truthiness,
  `indexOf`/`splice`/`filter` on arrays, `toLowerCase`, `trim`, and the decimal
  rendering of integers.
- `Pruning` (pruning.dfy): the `createdAt < cutoff` filter that both clean-up
  jobs apply.
- `Helpers` (helpers.dfy): backup codes, push payloads, the hex envelope of an
  encrypted message.
- `ChatModel`, `PostModel`, `ReportsModel`, `UserModel`: the documents, their
  schema defaults, hooks and clean-up jobs.
- `ChatController`, `PostController`, `UserController`: the handlers. Each
  document the handlers change in place (`Chat`, `Post`, `User`, `Report`) is a
  class. Where it helps, a pure function (`AfterSend`, `AfterLike`, `MergeProfile`,
  …) states the change on the document's value, and the handler method is proved
  to follow it.
- `UserRoutes` (user_route.dfy): the express-validator chains of the user routes.
- `ErrorMiddleware` (error_middleware.dfy): `notFound` and `errorHandler`.
- `Upload` (multer.dfy): the size limit, `fileFilter` with Node's POSIX
  `path.extname`, and the stored filename.

Quirks of the code are modelled as written, and the lemmas state their
consequences:

- `likes.pop(userId, 0)` drops the last like, whoever gave it.
- The report excerpt's sort compares an absent `timestamp`, so it keeps the
  stored order.
- `notFound` answers 400.
- A message's `content` is the nested path `{ iv, encryptedData }`. Writing a
  string there is refused as a cast error: `deleteMessage` therefore never
  saves, and `updateChat` with a string `content` fails with 500. The report
  schema's excerpt declares `content: String`, which refuses that object, so a
  report can only be stored for a chat without messages.
- `updateUser` sends the verification mail for a new address before saving,
  and the mail helper first looks the address up among the stored users. An
  address nobody holds is refused with 500, and another user's address fails
  the save, so a user can never move to a new address.
- The message and comment `createdAt` default is one `Date` taken when the
  schema is loaded.
- `createChat` counts distinct users found, so naming one user twice is refused
  with 404.
- The final filter of `searchUser` keeps everyone.
- Two reset codes that are both absent compare equal.

The project overview describes follow, like and comment counters. The code
keeps id lists instead, and its one counter write (`profileData.postCount++` in
`createPost`) targets a path the user schema does not declare. The model
follows the code: `createPost` changes nothing about the author.

## Model

| member | source | states |
|---|---|---|
| Common.IndexOf | controllers/postController.js:134-137 | the first index holding the element, -1 exactly when it is absent |
| Common.RemoveFirst | controllers/userController.js:691-696 | removes exactly one occurrence, the first, when present: one shorter, multiset minus that element; unchanged when absent |
| Common.RemoveAll | controllers/userController.js:697-699 | `filter(y => y !== x)`: no occurrence of x remains, every other element keeps its multiplicity |
| Common.RemoveAllSnoc | controllers/userController.js:621-636 | filtering a list grown by one element is filtering the old list, then that element |
| Common.NoDupRemoveFirst | controllers/postController.js:134-137 | splicing out the first occurrence from a duplicate-free list removes the element altogether and adds nothing |
| Common.Decimal | models/UserModel.js:125 | `${n}` is a non-empty string of decimal digits |
| Common.DecimalInjective | models/UserModel.js:125 | different counters render differently |
| Common.ToLower | models/UserModel.js:121 | `toLowerCase` keeps the length and maps each character through the ASCII lower-case map |
| Common.ToLowerIdempotent | models/UserModel.js:27-32 | lower-casing twice is lower-casing once |
| Common.TrimStart | models/UserModel.js:121 | the result is a suffix and only whitespace was dropped; it is empty exactly for blank strings and otherwise starts with a non-space |
| Common.TrimEnd | models/UserModel.js:121 | the result is a prefix; it is empty exactly for blank strings, otherwise ends with a non-space, and only whitespace was dropped |
| Common.TrimEmptyIffBlank | controllers/userController.js:597-599 | `s.trim().length === 0` exactly when s is all whitespace |
| Pruning.KeepSince | models/PostModel.js:64 | survivors are documents of the input at or after the cut-off, no more of them than the input |
| Pruning.KeepSinceExact | models/ChatModel.js:57-58 | every document at or after the cut-off survives with its multiplicity; every earlier one is gone |
| Pruning.KeepSinceAppend | models/ChatModel.js:58 | pruning a concatenation prunes each part in place, so survivors keep their order |
| Pruning.KeepSinceKeepsRecent | models/PostModel.js:64 | a collection with nothing before the cut-off is left as it is |
| Pruning.KeepSinceIdempotent | models/PostModel.js:64 | a second run with the same cut-off removes nothing more |
| Helpers.GenerateBackupCodes | helpers/helper.js:81-91 | exactly four codes, the i-th being the generator's i-th draw |
| Helpers.Targets | helpers/helper.js:158-159 | one recipient per payload, in payload order |
| Helpers.PushPayloads | helpers/helper.js:147-164 | nothing is built for a non-array argument; otherwise one payload per token in token order, each with sound 'default' and the shared title, body and data, which default to 'Title', 'Body' and `{someData: 'goes here'}` only when undefined |
| Helpers.HexValue | helpers/helper.js:137-140 | a hex digit reads as a nibble |
| Helpers.Hex | helpers/helper.js:124-125 | two hex characters per byte |
| Helpers.HexPair | helpers/helper.js:124-125 | the two hex digits written for a byte read back as that byte |
| Helpers.Unhex | helpers/helper.js:135-141 | decoding reads at most half the characters, all of them hex, and a leading hex pair gives at least one byte |
| Helpers.UnhexHex | helpers/helper.js:124-140 | `Buffer.from(b.toString('hex'), 'hex')` gives b back |
| Helpers.Ctr | helpers/helper.js:117-121 | counter mode keeps the message length (no padding) |
| Helpers.EncryptMessage | helpers/helper.js:112-127 | the envelope's iv is 32 hex characters and its encryptedData is hex, twice the plaintext's byte length |
| Helpers.DecryptMessage | helpers/helper.js:129-145 | the plaintext has at most half as many bytes as the hex ciphertext has characters |
| Helpers.DecryptEncrypt | helpers/helper.js:112-145 | decrypting a stored envelope with the same key stream gives the plaintext back |
| ChatModel.StoredCreatedAt | models/ChatModel.js:22-24 | a message's given createdAt is kept; a missing one becomes the time the schema was loaded |
| ChatModel.PruneChat | models/ChatModel.js:57-58 | a pruned chat keeps its users and status; every message left was in it and is at or after the cut-off |
| ChatModel.DeleteOldMessages | models/ChatModel.js:52-65 | every chat is pruned with the cut-off of the same run, and no chat is added or dropped |
| ChatModel.MessageCleanupTiming | models/ChatModel.js:53-72 | the cut-off is three days before now and the job period is 259200000 ms |
| ChatModel.PruneChatExact | models/ChatModel.js:57-58 | messages strictly before the cut-off go; one at or after it keeps every copy |
| ChatModel.PruneChatKeepsOrder | models/ChatModel.js:58 | surviving messages keep their relative order |
| ChatModel.PruneChatIdempotent | models/ChatModel.js:57-58 | pruning twice with one cut-off is pruning once |
| PostModel.NewComment | models/PostModel.js:44-47 | a comment keeps its sender and body, and its createdAt is the time the schema was loaded |
| PostModel.CommentsShareCreatedAt | models/PostModel.js:44-47 | any two comments pushed without a date carry the same createdAt |
| PostModel.DeletePosts | models/PostModel.js:61-69 | every post left was stored and is at or after the cut-off |
| PostModel.PostCleanupTiming | models/PostModel.js:62-75 | the cut-off is seven days before now and the job period is 604800000 ms |
| PostModel.DeletePostsExact | models/PostModel.js:64 | exactly the posts strictly before the cut-off are deleted; a post at the cut-off stays |
| PostModel.DeletePostsKeepsRecent | models/PostModel.js:64 | posts at or after the cut-off are untouched, in place |
| PostModel.DeletePostsIdempotent | models/PostModel.js:64 | a second run at the same time deletes nothing more |
| ReportsModel.Saved | models/ReportsModel.js:38-41 | after the hook, count equals the number of reportedFrom entries; user and entries are unchanged |
| ReportsModel.SavedIgnoresStoredCount | models/ReportsModel.js:39 | a stored count is overwritten, not incremented |
| ReportsModel.AppendThenSave | models/ReportsModel.js:39 | one more entry and a save raise count by exactly one |
| ReportsModel.Report.constructor | models/ReportsModel.js:28-31 | a new report's count is 0 |
| ReportsModel.Report.Save | models/ReportsModel.js:38-41 | the pre-save hook leaves the document as `Saved` of the old one |
| ChatController.Chat.constructor | models/ChatModel.js:35-41 | a new chat is not blocked and names no blocker |
| ChatController.FoundUsers | controllers/chatControllers.js:27-29 | the `$in` lookup returns only registered users that the request named |
| ChatController.FoundUsersCount | controllers/chatControllers.js:27-34 | the lookup finds as many users as were named exactly when all are registered and none is named twice |
| ChatController.CreateChatUnknownUser | controllers/chatControllers.js:31-34 | a chat naming an unregistered user is refused with 404 |
| ChatController.CreateChatRepeatedUser | controllers/chatControllers.js:27-34 | naming a user twice is refused with 404 as well |
| ChatController.HasChatWithAll | controllers/chatControllers.js:36-38 | `$all` matches only with a non-empty user list and a stored chat |
| ChatController.CreateChatCheck | controllers/chatControllers.js:27-44 | the guards pass exactly for distinct registered users of whom no stored chat holds all; a refusal is the 404 or the 400 |
| ChatController.CreateChatAccepted | controllers/chatControllers.js:31-44 | distinct registered users pass the first guard; they are refused with 400 exactly when some chat already holds them all |
| ChatController.StoreMessages | controllers/chatControllers.js:47-51 | one stored message per request message, in order, with the same sender, the content encrypted and the given createdAt or the schema default |
| ChatController.CreateChat | controllers/chatControllers.js:22-78 | the guard's error is returned, or a fresh chat with the given users, the default status and one stored message per request message (same sender, encrypted content, given or default createdAt) |
| ChatController.AfterSend | controllers/chatControllers.js:93-107 | a blocked chat refuses, with the blocker told to unblock and anyone else 'Message not sent'; otherwise exactly one message is appended and earlier ones, users and status are unchanged |
| ChatController.SendMessage | controllers/chatControllers.js:81-110 | a missing chat answers 404; the chat becomes `AfterSend` of the old one, or stays as it was when that fails |
| ChatController.GetChatLastMessage | controllers/chatControllers.js:183-202 | 404 for a missing chat, the TypeError for a chat without messages, otherwise the last message's content |
| ChatController.AfterBlock | controllers/chatControllers.js:215-222 | a non-member gets 401; a member makes the chat blocked by that member, replacing an earlier blocker, and nothing else changes |
| ChatController.AfterUnblock | controllers/chatControllers.js:240-256 | only the recorded blocker resets the status to its default; any other member gets 401 and a non-member 401 |
| ChatController.StatusStaysConsistent | models/ChatModel.js:35-41 | `blocked` holds exactly when a blocker is recorded, initially and after every block and unblock |
| ChatController.BlockThenUnblock | controllers/chatControllers.js:215-256 | block then unblock by the same member gives back the chat with the default status, users and messages untouched |
| ChatController.BlockedChatRefusesMessages | controllers/chatControllers.js:94-101 | after a block, every send is refused and which message depends only on whether the sender is the blocker |
| ChatController.LaterBlockReplacesBlocker | controllers/chatControllers.js:221-222 | after a second member blocks, the first can no longer unblock |
| ChatController.BlockChat | controllers/chatControllers.js:204-227 | 404 for a missing chat; the chat becomes `AfterBlock` of the old one, or is unchanged on 401 |
| ChatController.UnblockChat | controllers/chatControllers.js:229-257 | 404 for a missing chat; the chat becomes `AfterUnblock` of the old one, or is unchanged on 401 |
| ChatController.FirstMatch | controllers/chatControllers.js:278 | the index of the first message whose content matches, none exactly when no message matches |
| ChatController.DeleteOutcome | controllers/chatControllers.js:272-293 | 401 for a non-member, 404 when nothing matches, 401 when the caller did not send the first match; otherwise the save's validation failure, so the handler never succeeds |
| ChatController.DeleteWithStrictEquality | controllers/chatControllers.js:278-283 | with `===` never holding between a stored content object and the request's value, every member gets 404 |
| ChatController.DeleteMessage | controllers/chatControllers.js:260-296 | 404 for a missing chat, otherwise the error of `DeleteOutcome`; the chat is only read |
| ChatController.ReportIdentityGuardsFirst | controllers/chatControllers.js:307-317 | a self-report (400) and a reporter other than the caller (401) are refused before, and whatever, any lookup |
| ChatController.ReportCheck | controllers/chatControllers.js:307-338 | a report passes exactly when filed by the caller against another existing user who is a member of the found chat; every refusal is a 400, 401 or 404 |
| ChatController.RecentMessages | controllers/chatControllers.js:340-342 | the excerpt is the first min(5, n) stored messages |
| ReportsModel.CastExcerpt | models/ReportsModel.js:16-23 | the excerpt casts to the schema's `{ sender, content: String }` messages exactly when it is empty |
| ChatController.ReportChat | controllers/chatControllers.js:299-364 | a failing guard changes nothing; for a chat without messages an empty-excerpt entry is appended to the existing report and saved, or a new report with that entry and count 1 is created; for a chat with messages a new report is refused and an existing one stays as stored |
| ChatController.AfterUpdate | controllers/chatControllers.js:379-384 | fails exactly when some request message has a string content; otherwise users are replaced, messages replaced one-for-one with sender and object content kept, and the status is untouched |
| ChatController.UpdateSharesOneCreatedAt | controllers/chatControllers.js:381-384 | after an update every message carries the schema-load time as createdAt |
| ChatController.UpdateChat | controllers/chatControllers.js:367-390 | 404 for a missing chat; the chat becomes `AfterUpdate` of the old one, or is unchanged with its error |
| PostController.Post.constructor | controllers/postController.js:45-50 | the stored post holds the given fields |
| PostController.AfterLike | controllers/postController.js:128-140 | an existing like changes nothing; otherwise the user's first dislike is removed and the user is appended to the likes; comments are untouched |
| PostController.AfterDislike | controllers/postController.js:168-180 | an existing dislike changes nothing; otherwise the user is appended to the dislikes, and when the user had liked, the last like is dropped, whoever gave it |
| PostController.LikeIdempotent | controllers/postController.js:128-131 | liking twice is liking once |
| PostController.DislikeIdempotent | controllers/postController.js:168-170 | disliking twice is disliking once |
| PostController.LikeMovesUserToLikes | controllers/postController.js:132-140 | after a like the user is the last liker and, with duplicate-free dislikes, no longer a disliker |
| PostController.LikeKeepsWellFormed | controllers/postController.js:128-140 | liking keeps the lists duplicate-free and disjoint |
| PostController.DislikeKeepsWellFormedIffLastLiker | controllers/postController.js:179-180 | disliking a liked post keeps the lists duplicate-free and disjoint exactly when the disliker gave the last like |
| PostController.DislikeDropsAnotherLike | controllers/postController.js:179-180 | with likes [u, v], u's dislike loses v's like and leaves u both liking and disliking |
| PostController.DislikeWithoutLikeKeepsWellFormed | controllers/postController.js:172-178 | disliking a post one has not liked leaves the likes alone and the lists well formed |
| PostController.LikePost | controllers/postController.js:110-148 | 404 without a user id or without a post, the post untouched; otherwise the reactions become `AfterLike` of the old ones and nothing else changes |
| PostController.DislikePost | controllers/postController.js:151-185 | 404 without a user id or without a post, the post untouched; otherwise the reactions become `AfterDislike` of the old ones and nothing else changes |
| PostController.AddComment | controllers/postController.js:188-207 | 404 for a missing post; otherwise exactly one comment `{sentBy, body}` is appended and nothing else changes |
| PostController.MergeUpdate | controllers/postController.js:90-93 | author, reactions and creation time are kept |
| PostController.MergeUpdateFieldwise | controllers/postController.js:90-93 | title, text, image and url each take the new value exactly when it is non-empty |
| PostController.MergeUpdateIdempotent | controllers/postController.js:90-93 | an update with no non-empty field changes nothing, and repeating an update changes nothing more |
| PostController.UpdatePost | controllers/postController.js:79-98 | 404 for a missing post, otherwise the post becomes `MergeUpdate` of the old one |
| PostController.CreatePost | controllers/postController.js:41-61 | validation fails before storing without an author or title; otherwise the post is stored with the given or empty body and reactions, and a missing author then answers 404 |
| UserRoutes.Chain | routes/userRoute.js:30-96 | every route declares at least one check, every length check asks for 6 characters, and every route but the password update requires an email |
| UserRoutes.Failures | routes/userRoute.js:32-39 | the failures are exactly the checks of the chain the body does not pass |
| UserRoutes.ErrorsTextLength | routes/userRoute.js:66-71 | the message holds one '[object Object]' per failure, comma-separated |
| UserRoutes.Gate | controllers/userController.js:267-271 | a consulted route refuses with 400 exactly when some check of its chain fails |
| UserRoutes.RegisterGate | routes/userRoute.js:30-41 | registration passes exactly with non-empty names and email and a password of 6 or more characters, and otherwise answers 'Please fill all the required fields!' |
| UserRoutes.LoginGate | routes/userRoute.js:44-51 | login passes exactly with a non-empty email and a password field |
| UserRoutes.LoginAcceptsEmptyPassword | routes/userRoute.js:48 | an empty password passes `exists()` |
| UserRoutes.ResetPasswordGate | routes/userRoute.js:64-73 | the reset passes exactly with a non-empty email and a new password of 6 or more characters |
| UserRoutes.UpdatePasswordGate | routes/userRoute.js:86-96 | the update passes exactly with a password field and a new password of 6 or more characters |
| UserRoutes.ResetPasswordBothFail | routes/userRoute.js:66-71 | a body failing both reset checks gets two entries in the message |
| UserRoutes.UnconsultedRoutesAcceptAll | routes/userRoute.js:57-83 | the forgot-password and reset-code validators never reject |
| UserModel.UsernameShape | models/UserModel.js:108-110 | the name starts with '@', and is the lower-cased names with exactly their trailing whitespace dropped: what is dropped is whitespace and the name ends in a non-space |
| UserModel.CandidateInjective | models/UserModel.js:122-127 | distinct probing rounds try distinct names |
| UserModel.UniqueUserName | models/UserModel.js:119-129 | the chosen name is free; it is the base when the base is free, and otherwise the first free candidate base1, base2, … with every earlier one taken |
| UserModel.User.constructor | models/UserModel.js:5-105 | a new user has the lower-cased email, the default bio, the false flags, empty lists and no reset code |
| UserModel.User.Save | models/UserModel.js:119-130 | a new user gets a free name from the probing loop; an existing user's name is unchanged |
| UserController.OwnerGuard | controllers/userController.js:389-392 | refuses with 401 exactly when the path id is not the caller's |
| UserController.OwnerGuardFirst | controllers/userController.js:647-650 | the owner guard refuses whatever the database holds |
| UserController.AfterFollow | controllers/userController.js:686-711 | following someone not yet followed puts both ids in front; otherwise the first entry leaves `following` and every entry of the follower leaves `followers`, others keeping their multiplicity |
| UserController.FollowThenUnfollow | controllers/userController.js:687-711 | follow then unfollow gives both lists back |
| UserController.FollowToggles | controllers/userController.js:686-711 | each call toggles whether the target is followed and `following` gains no duplicate |
| UserController.FollowCheck | controllers/userController.js:673-684 | a self-follow is refused with 400; otherwise the guards pass exactly when both users exist |
| UserController.FollowUser | controllers/userController.js:669-719 | a failing guard changes neither user document; otherwise the follower's `following` and the target's `followers` become those of `AfterFollow` and every other field of both users is unchanged |
| UserController.StoreFollowLists | controllers/userController.js:696-711 | the two list writes change those two fields and no other field of either user |
| UserController.AfterRegisterToken | controllers/userController.js:735-741 | a present token changes nothing; otherwise it is appended at the end |
| UserController.RegisterTokenKeepsNoDup | controllers/userController.js:737-739 | registration never introduces a duplicate token |
| UserController.RegisterTokenTwice | controllers/userController.js:737 | registering a token a second time changes nothing |
| UserController.RegisterForPushToken | controllers/userController.js:721-745 | 404 without a token or without a user; the token list becomes `AfterRegisterToken` of the old one, every other field is unchanged, and the handler sends no response when the token is present |
| UserController.MergeProfile | controllers/userController.js:402-421 | the full name is always the merged first name, a space and the merged last name |
| UserController.MergeProfileFieldwise | controllers/userController.js:402-421 | the in-memory assignments: names and password take the new value exactly when non-empty; a non-empty email is lower-cased and marks the email unverified |
| UserController.MergeProfileIdempotent | controllers/userController.js:402-421 | an empty request only rebuilds the full name, and repeating a request changes nothing more |
| UserController.EmailStep | helpers/helper.js:17-75 | the verification step passes exactly without a non-empty email, or for the stored address with the mail sent; an address nobody holds gives 'No user found!', and every failure leaves status 200 (answered 500) |
| UserController.UpdateKeepsEmail | controllers/userController.js:410-424 | an update that passes the verification step never moves the user to another address; it only marks the stored one unverified |
| UserController.UpdateUser | controllers/userController.js:385-439 | 401 for another user's id, 404 for a missing user, then the verification step's error with the document unchanged; otherwise the profile fields become `MergeProfile` of the old ones and every other field is unchanged |
| UserController.StoreProfile | controllers/userController.js:402-413 | the profile assignments change exactly the six profile fields of the document |
| UserController.UpdateBio | controllers/userController.js:643-668 | 401 for another user's id, 404 for a missing user, otherwise the bio becomes the request's (even absent) and no other field changes |
| UserController.UpdatePassword | controllers/userController.js:442-490 | the validators, then the owner guard, the lookup and the old-password check refuse in that order; on success only the password changes, to the new one |
| UserController.CheckResetCode | controllers/userController.js:301-311 | passes exactly when the stored code equals the given one and there is no expiration or it is not yet passed; otherwise 'invalid' before 'expired' |
| UserController.ResetCodeExpiryBoundary | controllers/userController.js:307 | a code is valid at its expiration instant and expired one millisecond later |
| UserController.ClearedCodeAcceptsOnlyOmission | controllers/userController.js:301-303 | after a reset clears the code, only a request without a code passes |
| UserController.ValidateResetCode | controllers/userController.js:290-316 | 400 for an unknown email, otherwise `CheckResetCode`'s error or success |
| UserController.ResetPassword | controllers/userController.js:266-289 | the validators, then the lookup refuse; on success the password is the new one, the reset code is cleared and no other field changes; a refusal changes nothing |
| UserController.SearchUsers | controllers/userController.js:593-641 | a missing query throws, a blank one finds nothing, an empty result answers 'no users'; otherwise the results are those found without the requester, in order |
| UserController.SkipRequester | controllers/userController.js:621-636 | the loop keeps every user found, in order, except the requester |
| ErrorMiddleware.Thrown | middlewares/errorMiddleware.js:14 | a handler's thrown error carries its message |
| ErrorMiddleware.ErrorHandler | middlewares/errorMiddleware.js:12-26 | the stack is hidden exactly in production |
| ErrorMiddleware.ErrorResponseNever200 | middlewares/errorMiddleware.js:13-20 | no error response has status 200 |
| ErrorMiddleware.CastErrorOverrides | middlewares/errorMiddleware.js:16-20 | a cast error answers 404 'Resource not found' whatever status and message it came with |
| ErrorMiddleware.OtherErrorsPassThrough | middlewares/errorMiddleware.js:13-24 | other errors keep their message and the status set, or 500 when none was, and show their stack outside production |
| ErrorMiddleware.HandlerErrorResponse | middlewares/errorMiddleware.js:13-23 | every handler error reaches the client with its own status and message, or 500 |
| ErrorMiddleware.NotFound | middlewares/errorMiddleware.js:5-9 | an unmatched route sets status 400 and passes on a plain error |
| ErrorMiddleware.UnknownRouteAnswers400 | middlewares/errorMiddleware.js:5-26 | an unknown route answers 400 with 'Not Found - ' and the URL |
| Upload.UploadConstants | utils/multer.js:5-6 | the limit is 1048576 bytes; each allowed extension is a dot followed by at least three characters and no further dot |
| Upload.LastIndexOf | utils/multer.js:29 | the last index holding the character, -1 exactly when it is absent |
| Upload.StripTrailingSlashes | utils/multer.js:29 | a prefix of the path not ending in '/' |
| Upload.LastComponent | utils/multer.js:29 | the last component holds no '/' |
| Upload.ExtName | utils/multer.js:29 | the extension is empty or a dot followed by no other dot |
| Upload.ExtNameOfSuffix | utils/multer.js:29 | the extension of a slash-free name is its final dot-led suffix when something precedes it |
| Upload.FileFilter | utils/multer.js:28-38 | a file is accepted exactly when its lower-cased extension is allowed; a refusal passes 'File type is not supported' and false |
| Upload.FileFilterBySuffix | utils/multer.js:29-30 | a slash-free name is accepted exactly when it ends, after something else, in an allowed extension in any letter case |
| Upload.FileFilterIgnoresCase | utils/multer.js:29 | names equal up to letter case are judged alike |
| Upload.ExtNameIgnoresCase | utils/multer.js:29 | names equal up to letter case have extensions equal up to letter case |
| Upload.FileFilterLastExtension | utils/multer.js:29-30 | only the last extension counts |
| Upload.FileFilterRefusesDotFile | utils/multer.js:29-30 | a dot-file such as '.png' has no extension and is refused |
| Upload.FileFilterRefusesNoDot | utils/multer.js:29-30 | a name without a dot has no extension and is refused |
| Upload.StoredFilename | utils/multer.js:17-21 | the stored name starts with the field name and '-' |
| Upload.StoredFilenameKeepsExtension | utils/multer.js:19-21 | the stored name keeps the original extension, case included, so the filter judges it alike |

## Left out

- MongoDB and Mongoose persistence: `find`, `findById`, `$in`, `$all`, `$regex`, `populate`, `save`, `updateMany` and `deleteMany` are not modelled. Lookups are `null`-able parameters, query results are parameters, and the clean-up jobs are filters over sequences.
- Mongoose casting of ids is not modelled: ids are strings, and the CastError an invalid id raises is covered only by `ErrorHandler`. Of the other casts, only those of a message's `content` (the chat's nested path and the report excerpt's `String`) are modelled.
- The user's follow lists live under `profileData` in the schema; the `User` class holds them as plain fields.
- Fields no modelled rule reads are left out: `backupCodes`, `avatar`, `cloudinary_id`, `verificationToken`, `introSong`, `profileData.posts`, `likedPosts`, `seen`, `delivered`, the timestamps of users and reports, and `phoneNumber`, which `updateUser` reads but the schema does not declare.
- The bcrypt hashing in the pre-save hook, and the bcrypt comparison, which is the boolean `passwordMatches`.
- JWT signing and `protect`: the caller's id is a parameter.
- The AES-256 block cipher: the key stream it derives from the key and IV is a parameter.
- UTF-8 encoding of message text: plaintext is a byte sequence.
- `nanoid`, `crypto.randomBytes`, `Math.random`, `Date.now` and `moment`: these are parameters. DST and calendar arithmetic are not modelled (a day is 86400000 ms).
- `setInterval` scheduling: only the period constants are modelled.
- E-mail delivery (in `updateUser` its outcome is the parameter `mailSent`), Cloudinary uploads, the Expo `fetch`, and the socket.io relay (`server.js`, `utils/socketService.js`).
- The routing tables of chats, posts and reports, and `server.js` wiring.
- Handlers outside the modelled rules (registration and login bodies, profile reads, downloads, deletes, uploads, e-mail verification, `getAllPosts` and the other reads) and the empty stubs `reportPost`, `removeComment` and `updateComment`.
- Response bodies beyond what the handlers return: field exclusions and JSON shapes.
- SendMessage: the other-member lookup and the push notification after the save are not modelled.
- LikePost: the push notification to the author after the save is not modelled.
- GetChatLastMessage: returns the stored content without decrypting it.
- CreateChat: `encrypt` is a deterministic function parameter. The fresh IV drawn per message is folded into it.
- DeleteMessage: the `===` comparison of stored content with the request's `message` is the parameter `matches`. The validation error's message is cut to its `Chat validation failed` prefix.
- ReportChat: the in-place `sort` of the chat's messages is not modelled, since its comparator is always NaN and it leaves the order as stored. The reply text 'user reported!' is not modelled; the method returns the report. The rejection of the save that is not awaited is not followed past the reply, and the validation error's message is cut to its `Reports validation failed` prefix.
- ToLower: only ASCII letters are lowered; JavaScript's full Unicode case mapping is not modelled.
- SearchUsers: the regex query is not modelled; its result is the parameter `found`.
- UpdateUser: the verification token that `sendVerificationEmail` writes into the stored user holding the new address (helpers/helper.js:26-29) is not modelled, since `verificationToken` is not a modelled field; when that user is someone else, their token is overwritten before the save fails. The duplicate-key error's message is cut to its `E11000 duplicate key error` prefix.
- UpdateChat: a request `content` is either an object of the stored shape or a string; other values are not modelled. The validation error's message is cut to its `Chat validation failed` prefix.
- CreateChat, SendMessage and UpdateChat: the request's `users`, `messages` and message `content` are always present in the model. The source does not check them, and a missing one throws (a TypeError, or a MongoDB error for `$in`) that is answered with 500; that path is not modelled.
- The reset-code model assumes that `user.resetCode = null` (controllers/userController.js:284) clears the nested path, which then reads back as `{ code: undefined, expiration: undefined }`. ValidateResetCode and ClearedCodeAcceptsOnlyOmission rest on this. If the path read back as `null`, `user.resetCode.code` would throw a TypeError, answered with 500, instead of accepting a request without a code.
- CreatePost: the write to the author's undeclared `postCount` is not modelled, since it changes nothing stored. The exact text of Mongoose's validation message is shortened to 'Post validation failed'.
- UniqueUserName: each `findOne({ userName })` probe is membership in a fixed set of taken names; a concurrent insert between probes is not modelled.

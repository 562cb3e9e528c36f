# Greater Business Council client: a Dafny model

This project models the client-side rules of the Greater Business Council
mobile app. The app is a thin client over a hosted backend. The model covers:

- the registration and payment-approval workflow, which is the main part:
  - the sign-up form and its two steps;
  - the payment-proof submission page;
  - the admin dashboard;
  - the admin review service, whose approve and reject are two separate writes,
    first to the profile row and then to the payment rows;
- messaging: conversation and message views, sending, and lookup-or-create of
  the one conversation between two users;
- posts: the like toggle and its counter, the feed, create, delete and per-user lists;
- members and connections: the directory, profiles, connection requests and
  the "are they connected" check;
- business listings.

Each backend table is a sequence (or, for likes and admin ids, a set) of row
datatypes. Each service that writes is a class holding its tables. Every
writing method of a service class is proved equal to a pure transition function
on a state value. The lemmas are stated about those functions: which rows
change, which do not, what is kept invariant, and how calls compose. The three
page classes (sign-up, payment verification, admin dashboard) are not reduced
to a transition function. Their handlers state the new page fields and the
requests appended directly in their `ensures`.

Every request to the backend is a `Common.Step` parameter: `Succeeds` or
`FailsWith(message)`. That way partial failure can be stated, for example "the
profile write succeeded and the payment write failed". Other inputs are also
parameters:

- the signed-in user (`Option<Id>`);
- the current instant (`Timestamp`);
- the ids the backend generates;
- the answers of the identity provider and the storage service.

The query semantics the client relies on are modelled as follows:

- `.eq` and `.or` filters: `Common.Filter`.
- `order(col, { ascending: false })`: `Ordering.SortDesc`, an insertion sort
  proved sorted and a permutation. An ascending order sorts by the negated key.
- `limit(n)`: `Ordering.Take`.
- `.single()`: `Common.Single`, which gives data only when exactly one row
  matches.

The two status enums (`approval_status` at `types.ts:14`, payment `status` at
`types.ts:165`) are the datatypes `Types.ApprovalStatus` and
`Types.PaymentStatus`.

`SignUp.ShortPasswordScenario` and `PaymentVerificationPage.NoImageScenario`
are client-style walk-throughs. Each proves, for one fixed input, what the
methods' contracts give.

## Model

| member | source | states |
|---|---|---|
| AdminService.PendingProfiles | services/admin.service.ts:5-13 | exactly the profiles whose approval_status is pending, newest first, as a permutation of the filtered table |
| AdminService.PendingUsers | services/admin.service.ts:5-16 | one entry per pending profile, in the same order, carrying that user's payment rows |
| AdminService.ApproveProfiles | services/admin.service.ts:21-29 | approval columns set on the rows with the user's id, other rows untouched |
| AdminService.VerifyPayments | services/admin.service.ts:34-42 | only the user's pending payment rows become verified by the admin |
| AdminService.RejectProfiles | services/admin.service.ts:92-100 | rejection columns and the reason set on the user's rows only |
| AdminService.DeclinePayments | services/admin.service.ts:105-114 | only the user's pending payment rows become rejected, with the reason as notes |
| AdminService.Reread | services/admin.service.ts:46-51 | the profile is returned iff the read succeeds and exactly one row has the id, and it is that row |
| AdminService.Notify | services/admin.service.ts:46-70 | one email of the given kind is attempted iff the re-read finds the profile, sent to that profile's address and name. Otherwise none is attempted |
| AdminService.ApproveToast | services/admin.service.ts:72-84 | 'User approved successfully' after success, and otherwise the error's message or, when it is empty, 'Failed to approve user' |
| AdminService.RejectToast | services/admin.service.ts:147-160 | 'User rejected with notification sent' after success, and otherwise the error's message or, when it is empty, 'Failed to reject user' |
| AdminService.ReviewToasts | services/admin.service.ts:18-86 | unless an error reads like the success text, the success toast shows iff both writes succeed |
| AdminService.Approve | services/admin.service.ts:18-87 | a failed profile write changes nothing. A failed payment write leaves the payments unchanged and sends no email. The call is Done iff both writes succeed, and only then is an email attempted. admin_users never changes |
| AdminService.Reject | services/admin.service.ts:89-162 | the same ordering and failure behaviour as approve, with the rejection writes and the rejection email |
| AdminService.ApproveSetsProfileColumns | services/admin.service.ts:21-31 | approved, payment_verified, approved_by and approved_at are set on the user's row, and its other columns and every other row are kept |
| AdminService.ApproveVerifiesPendingPayments | services/admin.service.ts:34-44 | after a successful approval, exactly the user's pending payments are verified, and the rest are unchanged |
| AdminService.RejectRecordsReason | services/admin.service.ts:92-116 | the reason is stored as given, payment_verified is kept, and the user's pending payments are rejected with the reason as notes |
| AdminService.ApproveTwice | services/admin.service.ts:21-42 | approving again after a successful approval changes only approved_at |
| AdminService.ReviewsKeepApprovedVerified | services/admin.service.ts:21-29 | neither review breaks "approved implies payment verified", whatever fails |
| AdminService.ReviewsKeepRejectedReasons | services/admin.service.ts:92-100 | neither review breaks "rejected implies a non-empty reason", given a non-empty reason |
| AdminService.ReviewedLeavesPendingList | services/admin.service.ts:12-29 | once the profile write succeeds, the user leaves the pending list and every other pending user stays |
| AdminService.AdminTables.GetPendingUsers | services/admin.service.ts:5-16 | returns the pending list of the current tables |
| AdminService.AdminTables.IsAdmin | services/admin.service.ts:164-172 | true iff the lookup succeeds and admin_users holds the id |
| AdminService.AdminTables.ApproveUser | services/admin.service.ts:18-87 | ordered writes with early returns, and the new tables and outcome are those of Approve |
| AdminService.AdminTables.RejectUser | services/admin.service.ts:89-162 | ordered writes with early returns, and the new tables and outcome are those of Reject |
| SignUp.AccountError | pages/SignUp.tsx:21-34 | no error iff all six fields are filled, the passwords are equal and the password's `length` is at least 6 UTF-16 code units. The first broken rule in the fixed order gives the message |
| SignUp.FullNameParts | pages/SignUp.tsx:38 | the full name is the first name, one space, then the last name |
| SignUp.PasswordLengthBoundary | pages/SignUp.tsx:31-34 | 6 code units pass and 5 are refused with the length message. Six characters always pass, and two or fewer are always refused |
| SignUp.EmojiPasswordAccepted | pages/SignUp.tsx:31-34 | four letters and an emoji make 5 characters but 6 code units, and the form passes |
| Text.Utf16Length | pages/SignUp.tsx:31 | `length` counts code units: between the number of characters and twice that, and equal to it for text in the Basic Multilingual Plane |
| SignUp.SignUpPage.constructor | pages/SignUp.tsx:8-16 | starts on the account step, not loading, with nothing sent |
| SignUp.SignUpPage.HandleAccountSubmit | pages/SignUp.tsx:18-49 | an invalid form gives one alert and no request. A valid form sends email, password, full name and phone. The step becomes payment only when the provider returns no error |
| Text.ContainsIffOccurs | pages/AdminDashboard.tsx:66-67 | `includes` holds iff the term occurs at some position |
| Text.TrimEmptyIffBlank | pages/AdminDashboard.tsx:51 | the trimmed reason is empty iff the reason is all JavaScript whitespace |
| AdminDashboard.FilteredUsers | pages/AdminDashboard.tsx:65-68 | an order-preserving subsequence holding exactly the entries whose name or email contains the term, ignoring case |
| AdminDashboard.EmptySearchKeepsNamed | pages/AdminDashboard.tsx:65-68 | the empty term keeps exactly the entries with a name or an email |
| AdminDashboard.RejectGuardGivesReason | pages/AdminDashboard.tsx:51 | a reason that passes the guard is non-empty and not blank |
| AdminDashboard.AdminDashboardPage.constructor | pages/AdminDashboard.tsx:16-21 | the initial page state |
| AdminDashboard.AdminDashboardPage.CheckAdminAccess | pages/AdminDashboard.tsx:28-34 | with no user nothing happens, and a non-admin is sent to /home |
| AdminDashboard.AdminDashboardPage.LoadPendingUsers | pages/AdminDashboard.tsx:36-41 | the list is the service's pending list, or empty when the query fails |
| AdminDashboard.AdminDashboardPage.OpenRejectModal | pages/AdminDashboard.tsx:60-63 | selects the entry and opens the modal |
| AdminDashboard.AdminDashboardPage.HandleApprove | pages/AdminDashboard.tsx:43-48 | without a user or confirmation nothing changes. Otherwise the service is approved as that admin and the list reloaded. The search term and redirect are kept and nothing is left loading |
| AdminDashboard.AdminDashboardPage.HandleReject | pages/AdminDashboard.tsx:50-58 | without a user, a selection or a non-blank reason nothing changes. Otherwise the untrimmed reason is passed, the modal is closed, the selection and reason are cleared, and the list is reloaded. The search term and redirect are kept and nothing is left loading |
| Text.DecimalRoundTrip | pages/PaymentVerification.tsx:52 | the decimal text of the timestamp reads back as the same number |
| PaymentVerificationPage.ProofPathShape | pages/PaymentVerification.tsx:50-53 | the path is user id, "-", timestamp, ".jpg", and different instants give different paths |
| PaymentVerificationPage.StatusBadge | pages/PaymentVerification.tsx:77-118 | a badge exists iff a payment status exists. Pending gives the under-review badge, verified the verified badge, and rejected the failure title with the notes, or the default text when they are empty |
| PaymentVerificationPage.ShownTogether | pages/PaymentVerification.tsx:105-135 | the form is shown iff there is no status or it is rejected. The rejected badge shows the notes when not empty, and otherwise the default text |
| PaymentVerificationPage.PaymentVerificationPage.constructor | pages/PaymentVerification.tsx:11-17 | empty fields and the 'bank_transfer' default method |
| PaymentVerificationPage.PaymentVerificationPage.HandleImagePick | pages/PaymentVerification.tsx:31-39 | a picked image and its preview are stored, and a failed pick changes nothing |
| PaymentVerificationPage.PaymentVerificationPage.HandleSubmit | pages/PaymentVerification.tsx:41-75 | a failed guard changes nothing. Without an image nothing is uploaded and the proof URL is ''. A failed upload means no submission. Fields are cleared and the status reloaded only on success. isSubmitting always ends false |
| MessageService.ConversationOf | services/message.service.ts:25-44 | keeps the id, counts the unread messages, and uses last_message_at or else created_at |
| MessageService.ConversationShowsOther | services/message.service.ts:26-41 | shows the other participant with the 'Unknown' name fallback, and the last message or 'No messages yet' |
| MessageService.UnreadPartition | services/message.service.ts:43 | unread plus read is the number of messages, and unread is 0 iff every message is read |
| MessageService.Mine | services/message.service.ts:11-20 | exactly the rows the user takes part in |
| MessageService.MineViewsComplete | services/message.service.ts:24-45 | every conversation the user takes part in has its view listed, and every listed view is of such a conversation |
| MessageService.GetConversations | services/message.service.ts:6-52 | 'Not authenticated' without a user, and the query's error when it fails. Otherwise one view per conversation the user takes part in, each the transform of that row |
| MessageService.MessageOf | services/message.service.ts:73-81 | sender is me iff the sender id is the signed-in user's, and type defaults to 'text'. The id, text, time, media URL and duration are copied |
| MessageService.ConversationMessages | services/message.service.ts:56-63 | exactly the conversation's messages, oldest first, as a permutation |
| MessageService.MessageViews | services/message.service.ts:73-81 | one view per message, in order, each its transform |
| MessageService.ConversationMessageViews | services/message.service.ts:56-81 | the views are in ascending time, every message of the conversation has its view, and every view is of such a message |
| MessageService.GetMessages | services/message.service.ts:55-84 | Ok iff the query succeeds, and a failed query gives its error. Otherwise one view per message of the conversation, oldest first, each the transform of that message, and every message of the conversation has its view |
| MessageService.Touch | services/message.service.ts:106-110 | only the conversation with the id gets the new last_message_at |
| MessageService.Send | services/message.service.ts:87-117 | no user or a failed insert changes nothing and gives the error. Otherwise the message is appended with the user as sender, the given content, type ('text' by default) and media URL. A successful touch sets last_message_at on the conversation, and a failed one leaves the conversations alone |
| MessageService.Create | services/message.service.ts:120-151 | 'Not authenticated' without a user. A successful lookup with exactly one row for the pair returns that row and changes nothing. Otherwise a failed insert gives its error, and a successful one appends and returns the new row with the user as participant 1. Messages never change |
| MessageService.PairRowsAtMostOne | services/message.service.ts:126-130 | under one-conversation-per-pair, at most one row matches the pair |
| MessageService.CreateFindsExisting | services/message.service.ts:125-132 | an existing row for the pair, in either order, is returned without an insert, and one-per-pair is kept |
| MessageService.MessageTables.SendMessage | services/message.service.ts:87-117 | insert, then touch, with the state and result of Send |
| MessageService.MessageTables.CreateConversation | services/message.service.ts:120-151 | lookup, then insert, with the state and result of Create |
| Ordering.InsertDescSorted | services/post.service.ts:15 | inserting into a newest-first sequence keeps it newest first |
| Ordering.InsertDescRows | services/post.service.ts:15 | inserting adds exactly the one row to the multiset of rows |
| Ordering.InsertDescMembers | services/post.service.ts:15 | after inserting, a row is present iff it is the inserted row or was present before |
| Ordering.SortDesc | services/post.service.ts:15 | the rows newest first, as a permutation |
| Ordering.Take | services/post.service.ts:16 | a prefix of length `limit`, or everything when there are fewer rows |
| PostService.Bump | services/post.service.ts:98-101 | only the post with the id has its counter moved by the delta |
| PostService.Toggle | services/post.service.ts:77-120 | 'Not authenticated' without a user, and otherwise no error. An existing like is removed and a missing one added. The counter moves by -1 or +1 to match. A failed lookup counts as "not liked". A failed like write keeps the likes, and a failed counter write keeps the posts |
| PostService.ToggleFlipsMembership | services/post.service.ts:90-112 | liking adds the user to the post's likers, and unliking removes them |
| PostService.ToggleTwiceRestores | services/post.service.ts:83-113 | two toggles restore the likes and every counter |
| PostService.ToggleKeepsCounts | services/post.service.ts:90-112 | a toggle keeps "each counter equals the number of likers" |
| PostService.FeedItemOf | services/post.service.ts:24-34 | likes_count is the first aggregate or 0, comments_count defaults to 0, the author defaults to 'Unknown', and is_liked holds iff user_liked is non-empty. The id, title, excerpt, image and creation time are copied |
| PostService.NewestRows | services/post.service.ts:15-16 | min(limit, rows) rows, newest first, a sub-multiset of the rows, and no row left out is newer than a row kept. They are the first `limit` rows of a newest-first rearrangement of all the rows |
| PostService.NewestItems | services/post.service.ts:15-34 | the items are the transforms of the newest rows, one per row in the same order. They number min(limit, rows), are newest first, and no row left out is newer than an item shown |
| PostService.GetFeed | services/post.service.ts:6-37 | Ok iff the query succeeds, and a failed query gives its error. Otherwise item i is the transform of row i of the newest rows, so there are min(limit, rows) items, newest first. The limit defaults to 20 |
| PostService.FeedKeepsNewest | services/post.service.ts:15-16 | a successful feed loads, and no row left out of it is newer than an item in it |
| PostService.Create | services/post.service.ts:40-74 | the content equals the excerpt and the author is the user. Without a user or with a failed insert nothing is inserted |
| PostService.Without | services/post.service.ts:125-128 | removes exactly the rows with the id, keeping order |
| PostService.Delete | services/post.service.ts:123-147 | on success the posts become the table without the rows with the id, in table order, and likes are unchanged. On failure the error is returned and nothing changes |
| PostService.UserPosts | services/post.service.ts:150-158 | Ok iff the query succeeds, and a failed query gives its error. Otherwise exactly the user's posts, each as often as in the table, newest first |
| PostService.PostTables.ToggleLike | services/post.service.ts:77-120 | lookup, then the like write and the counter write, with the state and result of Toggle |
| PostService.PostTables.CreatePost | services/post.service.ts:40-74 | the state and result of Create |
| PostService.PostTables.DeletePost | services/post.service.ts:123-147 | the state and error of Delete |
| MemberService.MemberViewOf | services/member.service.ts:21-32 | name defaults to 'Unknown', bio to '', image to the placeholder, and is_friend is false. The id, user id, position, company, category and verified flag are copied |
| MemberService.MemberViews | services/member.service.ts:21-32 | one view per row, in order, each its transform |
| MemberService.MemberViewsComplete | services/member.service.ts:21-32 | every row's view is listed, and every listed view is of a row |
| MemberService.GetMembers | services/member.service.ts:6-35 | Ok iff the query succeeds, and a failed query gives its error. Otherwise the views, in order, of a newest-first rearrangement of the rows, so every member's view appears and only those |
| MemberService.GetMember | services/member.service.ts:38-54 | a result comes iff the query succeeds and exactly one row has the id, and it is that row |
| MemberService.GetMemberProfile | services/member.service.ts:57-80 | 'Member not found' iff there is no member. Otherwise role 'Member', is_friend false and all stats zero, with the name, email, phone, bio and avatar copied from the profile |
| MemberService.Request | services/member.service.ts:83-115 | a pending row from the user to the friend. Without a user or with a failed insert nothing is inserted |
| MemberService.MarkAccepted | services/member.service.ts:120-123 | only rows with the id become accepted |
| MemberService.Accept | services/member.service.ts:118-139 | succeeds iff exactly one row has the id. That row becomes accepted, and no other row changes |
| MemberService.GetConnections | services/member.service.ts:142-153 | Ok iff the query succeeds, and a failed query gives its error. Otherwise exactly the accepted rows the user sent, in table order |
| MemberService.AcceptedLinks | services/member.service.ts:157-161 | the accepted rows joining the two users in either direction |
| MemberService.AcceptedLinksSymmetric | services/member.service.ts:160 | the selected rows do not depend on the order of the two ids |
| MemberService.AreConnected | services/member.service.ts:156-165 | true iff the lookup succeeds and exactly one accepted row joins the two users, so true implies that such a row exists |
| MemberService.AreConnectedSymmetric | services/member.service.ts:156-165 | symmetric in the two ids |
| MemberService.MutualRequestsNotConnected | services/member.service.ts:156-165 | two cross requests, both accepted, are reported as not connected |
| MemberService.AreConnectedIntended | services/member.service.ts:156-165 | true iff the lookup succeeds and some accepted row joins the two users |
| MemberService.AreConnectedIntendedProperties | services/member.service.ts:156-165 | the intended check is symmetric, implied by the check as written, and equal to it when at most one accepted row joins them |
| MemberService.ConnectionTable.SendConnectionRequest | services/member.service.ts:83-115 | the table and result of Request |
| MemberService.ConnectionTable.AcceptConnection | services/member.service.ts:118-139 | the table and result of Accept |
| BusinessService.ListingRows | services/business.service.ts:7-17 | newest first. A permutation of all rows when no category filter applies. Otherwise exactly the rows of that category |
| BusinessService.ViewOf | services/business.service.ts:27-45 | rating defaults to 0, and the owner's name and avatar come from the join |
| BusinessService.SelectedRows | services/business.service.ts:15-17 | exactly the rows of the category when the listing is filtered, and all rows otherwise |
| BusinessService.ListingViews | services/business.service.ts:27-45 | one view per row, in order, each its transform with is_owned false |
| BusinessService.ListingViewsComplete | services/business.service.ts:7-46 | every selected row's view is listed, and every listed view is of a selected row |
| BusinessService.GetBusinesses | services/business.service.ts:6-48 | Ok iff the query succeeds, and a failed query gives its error. Otherwise the views, in order, of a newest-first rearrangement of the selected rows, so every selected row is shown and only those. Without a filter there are as many views as rows |
| BusinessService.ListingCategoryAndOwnership | services/business.service.ts:15-46 | is_owned is false everywhere, and a real category shows only businesses of that category |
| BusinessService.NoFilterCategories | services/business.service.ts:15-17 | an absent, empty or 'All' category gives the same listing |
| BusinessService.GetBusiness | services/business.service.ts:51-87 | the query's error on failure, and the single-row error unless exactly one row has the id. Otherwise the detail view of that one row, with no ownership flag |
| BusinessService.UserBusinesses | services/business.service.ts:181-184 | exactly the rows the user owns, in table order |
| BusinessService.GetUserBusinesses | services/business.service.ts:180-187 | Ok iff the query succeeds, and a failed query gives its error. Otherwise exactly the rows the user owns, in table order |
| BusinessService.Create | services/business.service.ts:90-121 | the owner is the signed-in user whatever the draft says. Without a user or with a failed insert nothing is inserted |
| BusinessService.CreatedIsOwned | services/business.service.ts:97-100 | the new business is listed for its creator and for no one else |
| BusinessService.Patched | services/business.service.ts:126-129 | only rows with the id are patched |
| BusinessService.Update | services/business.service.ts:124-150 | succeeds iff exactly one row has the id. Only that row's columns change |
| BusinessService.UpdateKeepsOwners | services/business.service.ts:126-129 | a patch of the modelled columns leaves every row's id, owner and creation time alone |
| BusinessService.Without | services/business.service.ts:155-158 | removes exactly the rows with the id, keeping order |
| BusinessService.Delete | services/business.service.ts:153-177 | on failure the table is kept and the error returned |
| BusinessService.DeleteRemovesOnlyId | services/business.service.ts:155-158 | after a delete no row has the id, and every other row remains, in order |
| BusinessService.BusinessTable.CreateBusiness | services/business.service.ts:90-121 | the table and result of Create |
| BusinessService.BusinessTable.UpdateBusiness | services/business.service.ts:124-150 | the table and result of Update |
| BusinessService.BusinessTable.DeleteBusiness | services/business.service.ts:153-177 | the table and error of Delete |

## Left out

- Email delivery and the HTML bodies of the approval and rejection emails. The model records an attempted email: recipient, name and kind. The answer of the email function is not checked by the source, so it is not modelled.
- Toasts and alerts. Only the sign-up page's alerts and the admin review toasts (`AdminService.ApproveToast`, `AdminService.RejectToast`) are modelled. The other services' toast texts are not.
- Clock and locale formatting. Timestamps are natural numbers, and the views carry the instant instead of its formatted text. Each operation takes one `now`, so clock reads within one call are taken to be equal: approved_at and verified_at in the approval, and created_at and last_message_at in sending a message.
- `parseFloat` of the payment amount. The amount stays the guarded string.
- BusinessService.ViewOf: a rating is an exact `real`, so floating-point rounding and NaN are not modelled. `rating || 0` also maps NaN to 0, and the model has no NaN.
- Camera, image picking and the storage service. An upload is a parameter that gives a URL or fails.
- Realtime message subscriptions and the auth-state listener. They are change feeds with no rule to state.
- The identity provider: `services/auth.service.ts` is not part of this model. Its answers are parameters: the sign-up error, whether the payment submission threw, and the reloaded payment status.
- `services/supabase.ts` is not part of this model. `supabase.raw('likes_count ± 1')` is taken to be the SQL expression it names.
- Join semantics of the hosted backend. The feed, conversation, member-directory and business queries are given as already-joined rows. This includes the `!inner` join in the feed query. That join drops the posts nobody liked, and its `user_id` list is not narrowed to the signed-in user, so the model's `isLiked` means "some user liked it", as the query returns it. The order of each conversation's embedded messages is not modelled either.
- MemberService.GetConnections: returns the bare connection rows. The embedded friend profile that the query joins in is not modelled.
- The `conversations` list is ordered by last_message_at. That order is not modelled and the list keeps table order.
- Case-insensitive search: `Text.Lower` lower-cases ASCII letters only, not the full Unicode case mapping of `toLowerCase`.
- Like rows are keyed by their post and user; their backend ids are not modelled, so a user likes a post at most once.
- Defaults the backend supplies on insert: is_read false for a message, likes_count 0 and no comments_count for a post.
- Selected columns. `createConversation` returns only the id of an existing row, and the model returns the whole row.
- A stale rejection_reason. An approval after a rejection keeps the old rejection_reason, because the approve write does not clear it. The model does the same.
- UI shell, routing and the app configuration.
- MemberService.GetMember: the error of a failed lookup is not modelled, only the absence of data. The profile page ignores that error.
- MemberService.AreConnected: the error the call returns beside `isConnected` is not modelled. A failed lookup gives false.
- BusinessService.Update: the patch changes the row's columns, not its id or owner_id.
- BusinessService.UpdateKeepsOwners: holds for the modelled patch only. `updateBusiness(id, updates)` passes any object to `.update`, so a caller of the real service can rewrite owner_id.
- MessageService.GetConversations: the list keeps table order, not the last_message_at order of the query, as above.

## Findings

| source | as written | input that shows it | evidently intended | confidence | as-written member | corrected member |
|---|---|---|---|---|---|---|
| services/member.service.ts:156-165 | `areConnected` uses `.single()`, so it is true only when exactly one accepted row joins the two users | user a asks b, b asks a, and both requests are accepted: two accepted rows, so `areConnected(a, b)` is false | true when at least one accepted row joins them, in either direction | not executed | MemberService.MutualRequestsNotConnected | MemberService.AreConnectedIntended |

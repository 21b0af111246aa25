# Comment form and community transfer, modelled in Dafny

This project models two small pieces of Lemmy.

- **The comment form widget** (`ui/src/components/comment-form.tsx`, module `CommentFormModel`, file `comment_form.dfy`).
  - The form seeds a draft for a new comment, a reply or an edit.
  - It sends exactly one create or edit request on submit, then clears the content.
  - It tells the host when the user cancels.
  - It runs the user and community mention lookups. Each lookup sends a search over the shared websocket and subscribes a listener to the one shared inbound stream.
  - The class `CommentForm` holds:
    - the draft;
    - a log of outbound requests;
    - a count of `onReplyCancel` calls;
    - a log of autocomplete callback invocations;
    - the listeners it subscribed, in order;
    - the set of unsubscribed listeners;
    - the two slots `userSub` and `communitySub`.
  - `DeliverFrom` states what one inbound message does to those listeners.
- **Community ownership transfer** (`crates/api/src/community/transfer.rs`, module `CommunityTransfer`, file `transfer.dfy`).
  - Authorisation: the caller must be the first moderator or an admin.
  - Lookup of the transferee.
  - The `remove`/`insert(0, ..)` reorder.
  - Delete-then-rejoin of the community's `community_moderator` rows, and the mod-log entry.
  - The database is a class `Database` with two tables held as sequences.
  - `NewOrder` is the pure decision that `Perform` is proved against.

`common.dfy` holds the shared `Option` and `Result` types.

## How the lookups really behave

Inbound messages are assumed to reach listeners in subscription order. A listener is skipped if it is already unsubscribed when its turn comes, even if that happened earlier in the same delivery. The model follows the code as written:

- Every live listener ignores any operation except `Search`. On `Search` it answers its own callback. Then it unsubscribes **whatever subscription its kind's slot holds at that moment**.
- A new lookup overwrites its slot without unsubscribing the old subscription.
- Take two user lookups in a row. The first `Search` response goes to the **first** lookup's callback, and that listener then unsubscribes the second one. The first listener stays subscribed and answers every later `Search` message too (`SupersededLookupAnswersFirst`, `SupersededListenerStaysSubscribed`).
- User and community listeners both answer any `Search` message (`SearchReachesBothKinds`).
- `SearchDelivery` gives the exact rule. A live listener fires unless it is its slot's listener and an older live listener of its kind comes before it. A delivery ends only the slots' subscriptions.

Three consequences of the code as written:
- With overlapping lookups, the newest callback is not the one answered. User and community lookups are not isolated from each other.
- `handleCommentSubmit` has no empty-content check; only the text area's `required` attribute has one, in the browser.
- `handleReplyCancel` only notifies the host; the draft is kept.

One more point about the code: with `edit` set and no `node`, the title and the draft are in "post" mode, but submit still sends `editComment` (`HandleCommentSubmit`).

## Model

| member | source | states |
|---|---|---|
| `CommentFormModel.CommentForm.constructor` | ui/src/components/comment-form.tsx:30-102 | `post_id` comes from the node when there is one, else from `postId`. Edit mode copies the comment's id as `edit_id`, and also its `parent_id`, `content` and `creator_id`. Reply mode sets `parent_id` to the comment's id and no `edit_id`. The title is post without a node, edit with a node and `edit`, reply otherwise. Nothing is sent and no listener exists yet. |
| `CommentFormModel.CommentForm.HandleCommentSubmit` | ui/src/components/comment-form.tsx:136-152 | Appends exactly one request: `editComment` of the draft iff `edit`, else `createComment`. Clears only `content`. Calls `onReplyCancel` once iff a node is present. The mode invariant is kept. |
| `CommentFormModel.CommentForm.HandleCommentContentChange` | ui/src/components/comment-form.tsx:154-157 | The content becomes the text area's value (also what the `tribute-replaced` listener at :109-113 does). Every other field is unchanged. |
| `CommentFormModel.CommentForm.HandleReplyCancel` | ui/src/components/comment-form.tsx:159-161 | Calls `onReplyCancel` once. Sends nothing and leaves the draft alone. |
| `CommentFormModel.CommentForm.Search` | ui/src/components/comment-form.tsx:163-223 | Empty text answers `[]` at once, with no request and no listener. Other text sends one `SearchForm` (`q` = text, the lookup's type, `TopAll`, page 1, limit 6) and subscribes a listener. The new listener overwrites the slot; nothing is unsubscribed. |
| `CommentFormModel.CommentForm.Receive` | ui/src/components/comment-form.tsx:177-215 | The unsubscribed set and the callback log become exactly what `DeliverFrom` gives for the listeners in subscription order. Each slot still holds the newest listener of its kind. |
| `CommentFormModel.LastOn` | ui/src/components/comment-form.tsx:175 | The slot's subscription is the newest listener of its kind, or none when that kind never subscribed. |
| `CommentFormModel.Results` | ui/src/components/comment-form.tsx:179-213 | A user listener hands over the response's users, a community listener its communities, each projected by `Keys`. |
| `CommentFormModel.Keys` | ui/src/components/comment-form.tsx:181 | The callback receives one `{key: name}` per result, in the response's order. |
| `CommentFormModel.DeliverFrom` | ui/src/components/comment-form.tsx:177-215 | One inbound message offered to the listeners in subscription order. A live listener ignores non-`Search` ops. On `Search` it answers its callback and then ends whatever its slot holds. `OtherOperationIgnored`, `SearchDelivery` and `SupersededListenerStaysSubscribed` state its properties. |
| `CommentFormModel.OtherOperationIgnored` | ui/src/components/comment-form.tsx:178-179 | A message of any other operation fires no callback and unsubscribes nothing. |
| `CommentFormModel.SearchDelivery` | ui/src/components/comment-form.tsx:177-184 | On `Search` the answers are, in order, those of the listeners that were live and are not a slot's listener behind an older live one of the same kind. The only subscriptions ended are the slots of kinds that had a live listener. |
| `CommentFormModel.SupersededListenerStaysSubscribed` | ui/src/components/comment-form.tsx:175-183 | A live listener that no slot holds is never unsubscribed by any message. |
| `CommentFormModel.SupersededLookupAnswersFirst` | ui/src/components/comment-form.tsx:175-184 | After two user lookups, a `Search` response answers the first lookup's callback and unsubscribes the second. The next response answers the first callback again. |
| `CommentFormModel.SearchReachesBothKinds` | ui/src/components/comment-form.tsx:177-215 | One `Search` message answers a pending user lookup with its users and a pending community lookup with its communities. |
| `CommentFormModel.SelectTemplate` | ui/src/components/comment-form.tsx:52-79 | The three `selectTemplate` lambdas: `:k:`, `[/u/k](/u/k)` and `[/c/k](/c/k)`. `TemplateKeyRoundTrip` and `SelectTemplateInjective` state its properties. |
| `CommentFormModel.TemplateKeyRoundTrip` | ui/src/components/comment-form.tsx:52-79 | The inserted markup `:k:`, `[/u/k](/u/k)` or `[/c/k](/c/k)` gives back its key `k`. |
| `CommentFormModel.SelectTemplateInjective` | ui/src/components/comment-form.tsx:52-79 | Markup of different kinds never coincides, and different keys give different markup. |
| `CommunityTransfer.IsAdmin` | crates/api/src/community/transfer.rs:44-47 | The `any` over admin ids is membership of the caller in the admin list. |
| `CommunityTransfer.MayTransfer` | crates/api/src/community/transfer.rs:43-50 | The caller passes iff it is the first moderator or an admin (`IsAdmin`). `NewOrderErrors` states the if-and-only-if with the `not_an_admin` error. |
| `CommunityTransfer.Position` | crates/api/src/community/transfer.rs:54-57 | Returns the first index holding the transferee, or none when no moderator is the transferee. |
| `CommunityTransfer.ForCommunity` | crates/api/src/community/transfer.rs:39-40 | The moderator list holds exactly the table's rows of that community. |
| `CommunityTransfer.ExceptCommunity` | crates/api/src/community/transfer.rs:64 | Deleting a community's rows keeps exactly the other communities' rows. |
| `CommunityTransfer.MoveToFront` | crates/api/src/community/transfer.rs:58-59 | `remove(index)` then `insert(0, ..)`. `ReorderPermutes`, `ReorderKeepsOthersInOrder` and `MoveToFrontNoDuplicates` state its properties. |
| `CommunityTransfer.Reorder` | crates/api/src/community/transfer.rs:54-59 | Finds the transferee and moves it to the front, or fails when it is absent. `ReorderFirstIsIdentity` and `ReorderIdempotent` state its properties. |
| `CommunityTransfer.NewOrder` | crates/api/src/community/transfer.rs:43-59 | The decision before the table is touched: the new order, or the first error the handler hits. `NewOrderErrors` characterises it, and `Perform` is proved against it. |
| `CommunityTransfer.NewOrderErrors` | crates/api/src/community/transfer.rs:43-59 | Empty list: index error. Caller neither first moderator nor admin: `not_an_admin`. Transferee absent: not found. Otherwise success. Each case is an if-and-only-if, in the order the handler checks them. |
| `CommunityTransfer.ReorderPermutes` | crates/api/src/community/transfer.rs:58-59 | After the reorder the transferee is first, the length is unchanged and the multiset of moderators is unchanged. |
| `CommunityTransfer.ReorderKeepsOthersInOrder` | crates/api/src/community/transfer.rs:58-59 | The moderators other than the transferee keep their relative order. |
| `CommunityTransfer.ReorderFirstIsIdentity` | crates/api/src/community/transfer.rs:58-59 | A transferee already in first place leaves the list unchanged. |
| `CommunityTransfer.ReorderIdempotent` | crates/api/src/community/transfer.rs:58-59 | Reordering twice gives the same list as reordering once. |
| `CommunityTransfer.MoveToFrontNoDuplicates` | crates/api/src/community/transfer.rs:58-59 | The reorder creates no duplicate moderator. |
| `CommunityTransfer.ForCommunityAfterRewrite` | crates/api/src/community/transfer.rs:64-77 | After the delete and the in-order joins, the community's rows read back as the new order. |
| `CommunityTransfer.UniqueTableTransferSucceeds` | crates/api/src/community/transfer.rs:64-77 | With no duplicate rows in the table, no join of an authorised transfer can fail. |
| `CommunityTransfer.ExceptCommunityNoDuplicates` | crates/api/src/community/transfer.rs:64 | Deleting a community's rows keeps the table free of duplicate rows. |
| `CommunityTransfer.Database.DeleteForCommunity` | crates/api/src/community/transfer.rs:64 | Removes every row of the community and keeps the rest in order. The unique-row invariant `Valid` is kept. |
| `CommunityTransfer.Database.Join` | crates/api/src/community/transfer.rs:74-76 | Appends the row iff the same row is not already there, and reports which. The unique-row invariant `Valid` is kept. |
| `CommunityTransfer.Database.CreateModTransfer` | crates/api/src/community/transfer.rs:87 | Appends the entry to the transfer mod log. |
| `CommunityTransfer.RewriteModerators` | crates/api/src/community/transfer.rs:61-77 | Deletes the community's rows, then joins the moderators in the given order. It succeeds iff the order has no duplicates, and then the table is the other communities' rows followed by the order. On failure it stops at the first refused join: the table holds the other rows, then a prefix of the order, and the refused row is already present. |
| `CommunityTransfer.Perform` | crates/api/src/community/transfer.rs:26-98 | On a table satisfying the unique-row invariant, an authorised transfer to a present moderator always succeeds, and the invariant is kept. Any decision error returns that error with both tables untouched, so nothing is deleted. Otherwise it succeeds iff the new order has no duplicates. On success the community's rows are the new order, returned as read back. The log gains `{mod_person_id: caller, other_person_id: transferee, community_id, removed: Some(false)}`. A failed join returns `community_moderator_already_exists` after a partial rewrite and writes no log entry. |

## Left out

- Rendering is not modelled: JSX, `autosize`, `preventDefault`, the form `reset`, the random element id and i18n. The button title is the enum `ButtonTitle`.
- The mention library's own work is not modelled, because that code is not part of this model: caret scanning, trigger detection, menu display, filtering and the text replacement at the caret. Its configuration is recorded as the constants `MenuItemLimit` and `AllowSpaces`.
- The emoji catalog and the markdown preview in `menuItemTemplate` are not part of this model.
- The `auth` field of the comment form (set to `null`, later filled by the socket service) is not modelled.
- `CommentFormModel.CommentForm.HandleCommentSubmit`: the request carries a copy of the draft. In the code it is the same object; the socket service is assumed to serialise it at send time (that service is not part of this model).
- `onReplyCancel` is assumed to be supplied by the host whenever it is called.
- `CommentFormModel.CommentForm.Receive`: the `TypeError` from unsubscribing an empty slot is not modelled. Under the class invariant every listener's slot is set, so that case never arises.
- The error and completion handlers of a subscription only log, so they are not modelled. Other components' listeners on the same stream are not modelled either.
- The socket transport and the stream's delivery machinery are abstracted as described above.
- `CommunityTransfer.Perform`: the JWT lookup and the admin query become the parameters `caller` and `admins`. Database and pool errors (the `?` at :33, :35, :40, :64, :87) are not modelled. `CommunityView::read` and the rest of the response are left out; only the re-read moderator list is returned. Federation is left out.
- `CommunityTransfer.ForCommunity`: `CommunityModeratorView::for_community` is assumed to list rows in table insertion order; its query is not part of this model.
- `CommunityTransfer.Perform`: its `community_moderator_already_exists` branch stands only for a join refused because the row already exists. On a table that keeps the unique constraint (`Database.Valid`) that branch cannot be reached. The real causes of that error at :76 are not modelled: a concurrent insert between the delete at :64 and the joins, and any other database error, since `map_err` turns every join error into this one.
- `CommunityTransfer.Database.Join`: the refusal assumes a unique constraint on (community, person), which is not part of this model.

# mesto-react: the `App` state orchestrator in Dafny

This project models the `App` component of mesto-react, a single-page photo
gallery client. `App` owns seven state slots: the card collection, the current
user, three popup-open flags (edit profile, add place, edit avatar), the card
shown full-size, and a loading flag. Every user intent goes through one of its
handlers. A handler may call the remote service and, once the request settles,
commit the server's answer to state.

Files and modules:

- `outcomes.dfy` (`Outcomes`): `Option`, for a slot that still holds the empty
  object `{}`, and `Outcome`, for a request that resolved with the server's
  value or was rejected.
- `cards.dfy` (`Cards`): the `User` record and the `Card` class, plus the pure
  list computations the handlers run and the lemmas about them:
  - `LikedBy` is `likes.some`.
  - `ReplaceById` is the `state.map` that swaps in the server's card.
  - `WithoutCard` is the `state.filter` by reference.
- `app.dfy` (`App`): the class `AppState`, with the seven slots as fields and
  one method per handler. Each asynchronous handler is split in two:
  - `Begin…` is what runs before the request goes out.
  - `Settle…` is the promise continuation. It takes the service's answer as an
    `Outcome` argument.
  - `MountThenProfileEdit`, `LikeUnlikedCard` and `OverlappingRequests` are
    clients that drive a session through these contracts.

A card is a class with constant fields. The source never changes a card in
place, and deletion compares card objects by reference (`item !== card`).
Dafny's `==` on class instances is exactly that reference identity. The empty
object `{}` that `currentUser` and `selectedCard` start with is `None`.
`currentUser._id` on that empty object is `undefined` and matches no like, so
`CurrentUserId()` is `None` then.

Points where the code's behaviour is easy to misread:

- A like replaces every card with the liked card's id, not only one.
- Deletion removes every occurrence of the same object. A card with the same id
  but a different object is kept. The collection shrinks by exactly one only
  when that object occurs once, which `DeleteRemovesExactlyOne` derives from
  unique ids.
- A like list is an ordered list, not a set.
- Nothing in the code keeps the loading flag tied to one outstanding request,
  and nothing keeps the three popup flags mutually exclusive. The model keeps
  three independent flags. An open handler does not close the others.

## Model

| member | source | states |
|---|---|---|
| App.AppState.constructor | src/components/App.js:14-20 | on mount the collection is empty, no user is known, all three popups are closed, no card is selected and nothing is loading |
| App.AppState.SettleInitialCards | src/components/App.js:22-30 | a resolved card fetch sets the collection to the server's list; a rejected one leaves the slot as it was, so it keeps its initial empty value |
| App.AppState.SettleUserInfo | src/components/App.js:32-40 | a resolved user fetch sets the current user to the server's record; a rejected one leaves the slot as it was; no other slot changes |
| App.AppState.BeginCardLike | src/components/App.js:43-47 | the request targets the card's id and asks for "liked" exactly when no entry of the card's likes is the current user's id; with no user loaded it always asks for "liked"; no slot changes |
| Cards.LikedBy | src/components/App.js:45 | true exactly when some entry of the like list equals the given user id; an absent id matches nothing |
| App.AppState.SettleCardLike | src/components/App.js:48-53 | on success the collection becomes `ReplaceById` of the collection as it is when the request settles; on failure it is unchanged; only the collection may change |
| Cards.ReplaceById | src/components/App.js:49 | the length is kept; every position whose card has the id holds the server's card; every other position holds the card it held before |
| Cards.ReplaceByIdMissing | src/components/App.js:49 | when no card has the id, the collection comes back unchanged |
| Cards.ReplaceByIdIdempotent | src/components/App.js:49 | applying the same server card object twice gives the same collection as applying it once |
| Cards.ReplaceByIdLastWins | src/components/App.js:47-49 | when two like requests for one card are in flight and the first answer keeps the id, settling the first answer and then the second leaves the collection as if only the second had arrived: the last answer wins |
| Cards.ReplaceByIdServerIsTruth | src/components/App.js:48-50 | when the server's card keeps the requested id, every stored card with that id is the server's card object, hence carries the server's like list; unique ids stay unique |
| App.AppState.BeginCardDelete | src/components/App.js:57-58 | the delete request targets the card's id; no slot changes |
| App.AppState.SettleCardDelete | src/components/App.js:57-65 | on success the collection becomes `WithoutCard` of the collection and that very card object; on failure it is unchanged; only the collection may change |
| Cards.WithoutCard | src/components/App.js:60 | the card object is no longer present; every remaining card was in the collection; every other object of the collection remains, even one with the same id; each other object keeps its number of occurrences |
| Cards.WithoutCardAbsent | src/components/App.js:60 | deleting a card object that is not in the collection leaves the collection unchanged |
| Cards.WithoutCardConcat | src/components/App.js:60 | removal distributes over concatenation, so the remaining cards keep their relative order |
| Cards.WithoutCardLength | src/components/App.js:60 | the collection shrinks by exactly the number of occurrences of the card object |
| Cards.UniqueIdsOccursOnce | src/components/App.js:60 | in a collection without duplicate ids, a card object that is present occurs exactly once |
| Cards.WithoutCardKeepsUniqueIds | src/components/App.js:60 | removal never creates a duplicate id |
| Cards.DeleteRemovesExactlyOne | src/components/App.js:58-61 | deleting a present card from a collection with unique ids removes exactly one card, and ids stay unique |
| App.AppState.BeginUpdateUser | src/components/App.js:67-68 | the loading flag is set before the profile request goes out; nothing else changes |
| App.AppState.SettleUpdateUser | src/components/App.js:69-79 | on success the current user becomes the server's record and every popup is closed with no card selected; on failure the user, the three flags and the selected card keep their values; either way loading ends up false; the collection never changes |
| App.AppState.BeginUpdateAvatar | src/components/App.js:82-83 | the loading flag is set before the avatar request goes out; nothing else changes |
| App.AppState.SettleUpdateAvatar | src/components/App.js:84-94 | on success the current user becomes the server's record and every popup is closed with no card selected; on failure the user, the three flags and the selected card keep their values; either way loading ends up false; the collection never changes |
| App.AppState.BeginAddPlace | src/components/App.js:97-98 | the loading flag is set before the add-card request goes out; nothing else changes |
| App.AppState.SettleAddPlace | src/components/App.js:99-109 | on success the collection is the server's new card followed by the previous collection, and every popup is closed with no card selected; on failure the collection, the flags and the selected card keep their values; either way loading ends up false; the user never changes |
| Cards.PrependKeepsUniqueIds | src/components/App.js:101 | prepending the new card keeps ids unique exactly when no card already present has its id |
| App.AppState.SelectCard | src/components/App.js:112-114 | the clicked card becomes the selected card; no other slot changes |
| App.AppState.OpenEditProfile | src/components/App.js:116-118 | the edit-profile flag becomes true; the other two flags, the selected card and every other slot are untouched |
| App.AppState.OpenAddPlace | src/components/App.js:120-122 | the add-place flag becomes true; the other two flags, the selected card and every other slot are untouched |
| App.AppState.OpenEditAvatar | src/components/App.js:124-126 | the edit-avatar flag becomes true; the other two flags, the selected card and every other slot are untouched |
| App.AppState.CloseAllPopups | src/components/App.js:128-133 | all three flags become false and the selected card is cleared; the collection, the user and the loading flag are untouched; when everything is already closed nothing changes, so the call is idempotent |

## Left out

- The JSX render tree and the props passed to child components
  (src/components/App.js:135-182). They are presentation only.
- The `api` module (src/utils/Api.js is not part of this model). Each request's
  result is an `Outcome` argument of the matching `Settle…` method.
- The request payloads (`userData`, the avatar data, the new place's data) are
  passed to the service unread. They are not modelled.
- The `console.log` of a rejection reason. It is output only and changes no
  state.
- Promise scheduling. The model does not decide in which order requests
  settle: a caller may interleave `Begin…` and `Settle…` calls in any order.
  Two like answers settling in turn are covered by `ReplaceByIdLastWins`. The
  first of two overlapping submissions to settle clears the loading flag, as in
  the code (the client `OverlappingRequests` shows both). Only
  `SettleAddPlace`'s read of the captured collection differs (next line).
- App.AppState.SettleAddPlace: prepends to the collection as it is when the
  request settles. The source prepends to the `cards` value captured when the
  handler ran (src/components/App.js:101). The two agree unless another
  request changed the collection in between; in that interleaving the model
  prepends to the newer collection.
- The `createdAt` field and the full liker records of a card are not modelled.
  The handlers never read them, and only each liker's `_id` is compared.
- src/components/EditAvatarPopup.js. It is a form that reads its input through
  a ref and picks its button label from the loading flag. It has no state logic.

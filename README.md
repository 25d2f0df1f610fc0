# express-mesto controllers: a Dafny model

This project models the decision logic of the two Express controllers of a
"cards" backend. `controllers/users.js` holds listing, profile lookup, the
authenticated `getMe`, registration, login and the profile/avatar updates.
`controllers/cards.js` holds listing, creation, owner-only deletion and
like/unlike.

Each handler is a step function. Its inputs are:
- the acting identity (`req.user._id`);
- the request inputs;
- the store (`map<UserId, User>` or `map<CardId, Card>`);
- the persistence layer's failure, if any (`fault: Option<DbError>`, where a
  `DbError` is an error `name` plus a `code` that may be absent, a number or a
  string).

It returns the new store and the ordered list of calls the handler makes:
`Send(status, body)`, `Next(TypedError)` or `NextRaw(DbError)`. An empty list
means that no response is sent and `next` is not called. Whether a lookup
finds a document is decided by the store.

The handlers that change the store are also methods of `UserStore` and
`CardStore`. These classes hold the collection in a `map` field, and each
method's postcondition equates the new field and the returned actions with
the step function.

Modules:
- `Wrappers`: Option and Result.
- `Domain`: User and Card.
- `Errors`: the error classes and their statuses, and `DbError`.
- `Auth`: the bearer header, the signing secret and tokens.
- `Http`: response bodies and actions.
- `Users` and `Cards`: one per controller.
- `Properties`: facts that relate several calls.

Behaviours of the code that are reproduced as they are:
- `createUser`, `createCard` and `updateProfile` drop unrecognised errors: no
  response is sent and `next` is not called.
- `getMe`, `updateProfile` and `updateAvatar` call `next(NotFoundError)` and
  then still send 200 with a null user.
- `deleteCard` on a CastError calls `next` twice: first with BadRequest, then
  with the original error.
- `createUser` compares `err.code` with the string `'11000'`.
- `getMe` verifies with `JWT_SECRET`, while `login` signs with `'dev-secret'`
  outside production.

Other facts about the code:
- Unmapped errors are dropped in the three handlers above, not forwarded.
- This model covers only `getMe`'s own header check; whatever attaches
  `req.user` is outside these files.
- No handler ever produces an Internal (500) error.

## Model

| member | source | states |
|---|---|---|
| `Errors.Status` | controllers/users.js:11-15 | each error class carries a status that maps back to that same class, so no two classes share a status |
| `Errors.StatusKindOf` | controllers/cards.js:3-5 | a status code names an error class exactly when it is that class's status; the other codes name none |
| `Auth.ReplaceFirst` | controllers/users.js:83 | `replace` with a string pattern: when the string starts with the pattern, the result is the replacement followed by the rest; when the pattern does not occur, the string is unchanged |
| `Auth.BearerGate` | controllers/users.js:78-95 | refusal (401) exactly when the header is absent or does not start with "Bearer "; otherwise the token is the header with the prefix removed, and it is denied (403) exactly when verification against JWT_SECRET fails |
| `Auth.SigningSecret` | controllers/users.js:168 | the signing secret is JWT_SECRET when NODE_ENV is "production" and "dev-secret" otherwise |
| `Auth.Sign` | controllers/users.js:166-170 | signing succeeds exactly when the secret is set and non-empty; the token carries the subject id, that secret and expiry "7d" |
| `Users.GetUsers` | controllers/users.js:19-23 | one action: the listing is sent with 200, or the failure is passed on unchanged |
| `Users.ProfileFailure` | controllers/users.js:48-53 | a CastError becomes BadRequest "Невалидный id"; every other error is rethrown unchanged |
| `Users.GetProfile` | controllers/users.js:40-55 | one action; a 200 `{data}` with the stored record exactly when the lookup succeeds and finds it; NotFound when it finds none; failures classified by `ProfileFailure` |
| `Users.MeLookup` | controllers/users.js:97-104 | the lookup uses the attached identity; NotFound is emitted exactly when the lookup finds no record, and then comes first; when the lookup succeeds, the actions are exactly the 200 `{data}` with the stored record, or `next(NotFound)` followed by the 200 with null; a failure is passed on unchanged |
| `Users.GetMe` | controllers/users.js:77-105 | the only action is the 401 "Нет доступа" exactly when the header is absent or not "Bearer "; a failed verification gives Forbidden only; a verified token leads to `MeLookup` of the attached identity, whatever the token says |
| `Users.SignupFailure` | controllers/users.js:122-129 | ValidationError or CastError gives BadRequest; otherwise the name "MongoError" or the string code "11000" gives Conflict; every other error gives nothing |
| `Users.CreateUserStep` | controllers/users.js:108-131 | the store changes exactly when hashing and the insert both succeed; then exactly one record is added, with the hash as password, and only `{mail}` is sent; failures are classified by `SignupFailure`; stored records stay keyed by their id |
| `Users.Login` | controllers/users.js:162-177 | one action; success exactly when the user is found and signing succeeds; then `{jwt}` carries a token for the user's id, signed with `SigningSecret`, valid "7d"; every failure is the same Unauthorized error |
| `Users.ProfileUpdateFailure` | controllers/users.js:229-233 | only a CastError is reported, as BadRequest "Невалидные данные"; any other error, a ValidationError included, is dropped |
| `Users.UpdateProfileStep` | controllers/users.js:219-235 | only `name` and `about` of the caller's own record change, and only when there is no failure; other records and the key set are untouched; a missing record gives NotFound followed by 200 with null |
| `Users.UpdateAvatarStep` | controllers/users.js:238-250 | only `avatar` of the caller's own record changes; a failure is passed on unchanged; a missing record gives NotFound followed by 200 with null |
| `Users.UserStore.CreateUser` | controllers/users.js:112-121 | the new map and the actions are those of `CreateUserStep`; the keyed-by-id invariant is kept |
| `Users.UserStore.UpdateProfile` | controllers/users.js:222-228 | the new map and the actions are those of `UpdateProfileStep`; the invariant is kept |
| `Users.UserStore.UpdateAvatar` | controllers/users.js:242-248 | the new map and the actions are those of `UpdateAvatarStep`; the invariant is kept |
| `Cards.InsertByDate` | controllers/cards.js:12 | inserting a card into a newest-first list keeps it newest-first and adds exactly that card |
| `Cards.SortNewestFirst` | controllers/cards.js:11-12 | the result is ordered by `createdAt`, newest first, and is a permutation of the input |
| `Cards.GetCards` | controllers/cards.js:11-14 | one action: a 200 listing that is newest first and a permutation of what was found, or the failure passed on unchanged |
| `Cards.CreateFailure` | controllers/cards.js:21-25 | ValidationError or CastError gives BadRequest; every other error gives nothing |
| `Cards.CreateCardStep` | controllers/cards.js:16-27 | on success exactly one card is added under the new id, carrying that id, owned by the actor, with name and link from the body and no likes, and `{data: card}` is sent; on failure the store is unchanged and the error is classified by `CreateFailure` |
| `Cards.OwnerGuard` | controllers/cards.js:35-36 | Forbidden "Нельзя удалить чужую карточку" exactly when the owner differs from the actor |
| `Cards.DeleteFailure` | controllers/cards.js:42-48 | the original error is always passed to `next` last; a CastError is first passed on as BadRequest, so `next` runs twice |
| `Cards.DeleteCardStep` | controllers/cards.js:29-49 | a missing card gives NotFound for any actor, before ownership is looked at; a non-owner gets Forbidden and the store is unchanged; the store changes exactly when the owner deletes an existing card, and then only that card is removed and "Карточка удалена" is sent |
| `Cards.LikeFailure` | controllers/cards.js:60-65 | a CastError becomes BadRequest; anything else is rethrown unchanged |
| `Cards.UpdateLikes` | controllers/cards.js:53-58 | only the `likes` of the named card change: the actor is added or removed; keys, other cards and other fields are untouched; a missing card gives NotFound; the updated card is sent |
| `Cards.LikeStep` | controllers/cards.js:51-67 | afterwards the actor is among the likes, and the other likers are exactly as before |
| `Cards.DislikeStep` | controllers/cards.js:69-85 | afterwards the actor is not among the likes; if the actor was not there, the store is unchanged |
| `Cards.CardStore.CreateCard` | controllers/cards.js:17-20 | the new map and the actions are those of `CreateCardStep`; the invariant is kept |
| `Cards.CardStore.DeleteCard` | controllers/cards.js:30-41 | the new map and the actions are those of `DeleteCardStep`; the invariant is kept |
| `Cards.CardStore.LikeCard` | controllers/cards.js:52-59 | the new map and the actions are those of `LikeStep`; the invariant is kept |
| `Cards.CardStore.DislikeCard` | controllers/cards.js:70-77 | the new map and the actions are those of `DislikeStep`; the invariant is kept |
| `Cards.CardStore.SetLike` | controllers/cards.js:71 | the in-place `$addToSet`/`$pull`: the new map and the actions are those of `UpdateLikes` |
| `Properties.LikeIdempotent` | controllers/cards.js:53 | liking twice leaves the same store and gives the same answer as liking once |
| `Properties.DislikeUndoesLike` | controllers/cards.js:71 | unliking after a like by a user who had not liked the card restores the store |
| `Properties.LoginFailuresIndistinguishable` | controllers/users.js:173-176 | any two failed credential checks give the identical single Unauthorized action |
| `Properties.DevTokenRefusedByGetMe` | controllers/users.js:85-95 | outside production, when JWT_SECRET is not "dev-secret", a token fresh from `login` is refused by `getMe` with Forbidden, under any verifier that accepts a token only with its own secret |
| `Properties.ProductionTokenAdmittedByGetMe` | controllers/users.js:85-97 | in production with JWT_SECRET set, a token fresh from `login` passes `getMe`'s check, under any verifier that accepts a token with its own secret; the lookup of the attached identity follows |
| `Properties.NumericDuplicateKeyDropped` | controllers/users.js:126-129 | a duplicate-key error named "MongoServerError" with the numeric code 11000 gives no response and leaves the store unchanged |
| `Properties.CardLifecycle` | controllers/cards.js:16-49 | create as U1, like as U2, delete as U2 (Forbidden, nothing changes), delete as U1 (removed), then a like finds nothing (NotFound) |

## Left out

- Password hashing (`bcrypt.hash`, controllers/users.js:112-113) is a foreign
  cryptographic call. Its outcome is a parameter: the hash string or the error
  it rejected with.
- `jwt.verify` is a parameter `verify(token, JWT_SECRET)`; signature and
  expiry checking are not modelled. A signed token is the value `Token(subject,
  secret, expiresIn)`. Its text is a parameter `encode` in the two lemmas that
  connect `login` to `getMe`.
- `User.findUserByCredentials` (controllers/users.js:164) lives in
  models/user.js, which is not part of this model. Its outcome is the `found`
  parameter of `Login`.
- Mongoose and the database are left out. Query failures are the `fault`
  parameter. Ids of new documents and `createdAt` are parameters. A new id is
  required to be unused, as the database guarantees. Atomicity of updates is
  the database's and is not modelled.
- Unique-email enforcement is the database index's. It appears only as the
  error it reports.
- `Users.GetUsers` and `Cards.GetCards` take the documents found by
  `find({})` as a parameter rather than reading the store map. The order
  produced by the database for equal `createdAt` values is unspecified and is
  not modelled.
- Schemas, defaults and validators of models/user.js and models/card.js are
  not part of this model. A rejected validation arrives as a `fault` named
  "ValidationError". Body fields are always present strings.
- The error classes in errors/ are not part of this model. Their statuses are
  taken from their names, and their `name` is assumed not to be "CastError",
  so that a rethrown typed error is forwarded unchanged.
- The status table `Errors.Status` is not connected to the handlers: a
  `Next` action carries the error class, and turning it into a wire status
  is the job of the error handler outside these files.
- `process.env` is read once into the `Env` parameter.
- Express plumbing is left out. The model records only the calls on `res` and
  `next`, in order. What Express does with a second response after `next` has
  already answered is not modelled, and neither is async scheduling.
- The failure of the unreturned `Card.deleteOne` promise
  (controllers/cards.js:38-39) is never observed by the handler and is not
  modelled.
- The commented-out older versions in both files are left out.

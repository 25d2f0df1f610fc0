/** Properties that relate several handler calls to one another. */
module Properties {
  import opened Wrappers
  import opened Domain
  import opened Errors
  import opened Auth
  import opened Http
  import opened Users
  import opened Cards

  /** Liking a card a second time changes nothing and answers the same. */
  lemma LikeIdempotent(cards: map<CardId, Card>, actor: UserId, cardId: CardId)
    ensures var once := LikeStep(cards, actor, cardId, None);
      LikeStep(once.store, actor, cardId, None) == once
  {
    var once := LikeStep(cards, actor, cardId, None);
    if cardId in cards {
      var card := once.store[cardId];
      assert card.likes + {actor} == card.likes;
      assert once.store[cardId := card] == once.store;
    }
  }

  /** Unliking undoes a like by someone who had not liked the card before. */
  lemma DislikeUndoesLike(cards: map<CardId, Card>, actor: UserId, cardId: CardId)
    requires cardId in cards && actor !in cards[cardId].likes
    ensures DislikeStep(LikeStep(cards, actor, cardId, None).store, actor, cardId, None).store == cards
  {
    var liked := LikeStep(cards, actor, cardId, None).store;
    var back := DislikeStep(liked, actor, cardId, None).store;
    assert cards[cardId].likes + {actor} - {actor} == cards[cardId].likes;
    assert back[cardId] == cards[cardId];
    assert forall k :: k in cards ==> back[k] == cards[k];
  }

  /** A failed login looks the same whatever made it fail. */
  lemma LoginFailuresIndistinguishable(env: Env, e1: DbError, e2: DbError)
    ensures Login(env, Err(e1)) == Login(env, Err(e2)) == [Next(LoginFailed)]
  {
  }

  /** A verifier that accepts a token only under the secret it was signed with. */
  ghost predicate SoundVerifier(verify: (string, Option<string>) -> bool, encode: Token -> string) {
    forall t, s :: verify(encode(t), s) ==> s == Some(t.secret)
  }

  /** The text of an Authorization header carrying `token`. */
  function BearerHeader(token: string): (h: Option<string>)
    ensures HasBearer(h) && h.value[|BearerPrefix|..] == token
  {
    var v := BearerPrefix + token;
    assert v[..|BearerPrefix|] == BearerPrefix;
    Some(v)
  }

  /** Outside production, login signs with the development secret while getMe
      verifies against JWT_SECRET, so unless the two coincide, a token fresh
      from login is refused by getMe with Forbidden. */
  lemma DevTokenRefusedByGetMe(
    env: Env, verify: (string, Option<string>) -> bool, encode: Token -> string,
    user: User, actor: UserId, users: map<UserId, User>, fault: Option<DbError>)
    requires SoundVerifier(verify, encode)
    requires env.nodeEnv != Some(Production) && env.jwtSecret != Some(DevSecret)
    ensures var token := Token(user.id, DevSecret, Validity);
      && Login(env, Ok(user)) == [Send(200, Jwt(token))]
      && GetMe(BearerHeader(encode(token)), env, verify, actor, users, fault) == [Next(AccessDenied)]
  {
    var token := Token(user.id, DevSecret, Validity);
    var h := BearerHeader(encode(token));
    assert !verify(h.value[|BearerPrefix|..], env.jwtSecret);
  }

  /** In production, with JWT_SECRET set, a token fresh from login passes
      getMe's check, which then looks up the attached identity. */
  lemma ProductionTokenAdmittedByGetMe(
    env: Env, verify: (string, Option<string>) -> bool, encode: Token -> string,
    user: User, actor: UserId, users: map<UserId, User>, fault: Option<DbError>)
    requires forall t :: verify(encode(t), Some(t.secret))
    requires env.nodeEnv == Some(Production) && env.jwtSecret.Some? && env.jwtSecret.value != ""
    ensures var token := Token(user.id, env.jwtSecret.value, Validity);
      && Login(env, Ok(user)) == [Send(200, Jwt(token))]
      && GetMe(BearerHeader(encode(token)), env, verify, actor, users, fault) == MeLookup(actor, users, fault)
  {
    var token := Token(user.id, env.jwtSecret.value, Validity);
    var h := BearerHeader(encode(token));
    assert verify(h.value[|BearerPrefix|..], env.jwtSecret);
  }

  /** A duplicate-key error reported with a numeric code and a name other than
      "MongoError" is neither Conflict nor anything else: createUser answers
      nothing and the store is unchanged. */
  lemma NumericDuplicateKeyDropped(
    users: map<UserId, User>, newId: UserId, form: Signup, hash: string)
    requires newId !in users
    ensures var r := CreateUserStep(users, newId, form, Ok(hash), Some(DbError("MongoServerError", NumCode(11000))));
      r.store == users && r.actions == []
  {
  }

  /** A user creates a card, another likes it and fails to delete it, the
      owner deletes it, and afterwards it is gone. */
  lemma CardLifecycle(u1: UserId, u2: UserId, cardId: CardId, now: int)
    requires u1 != u2
    ensures
      var created := CreateCardStep(map[], u1, "Eiffel", "http://x", cardId, now, None);
      var liked := LikeStep(created.store, u2, cardId, None);
      var refused := DeleteCardStep(liked.store, u2, cardId, None);
      var deleted := DeleteCardStep(refused.store, u1, cardId, None);
      var gone := LikeStep(deleted.store, u1, cardId, None);
      && created.actions == [Send(200, CardData(Card(cardId, "Eiffel", "http://x", u1, {}, now)))]
      && liked.actions == [Send(200, CardDoc(Card(cardId, "Eiffel", "http://x", u1, {u2}, now)))]
      && refused.actions == [Next(NotOwner)] && refused.store == liked.store
      && deleted.actions == [Send(200, Message(DeletedMessage))] && deleted.store == map[]
      && gone.actions == [Next(NoCard)]
  {
    var created := CreateCardStep(map[], u1, "Eiffel", "http://x", cardId, now, None);
    assert created.store[cardId].likes == {};
    var liked := LikeStep(created.store, u2, cardId, None);
    assert liked.store[cardId].likes == {u2};
  }
}

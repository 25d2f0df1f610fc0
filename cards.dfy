/** The card controller: listing newest first, creation, owner-only
    deletion, and liking/unliking. */
module Cards {
  import opened Wrappers
  import opened Domain
  import opened Errors
  import opened Http

  const InvalidCard := TypedError(BadRequest, "Данные не прошли валидацию")
  const NoCard := TypedError(NotFound, "Карточка с таким id не найдена")
  const NotOwner := TypedError(Forbidden, "Нельзя удалить чужую карточку")
  const DeletedMessage: string := "Карточка удалена"

  // ---------------------------------------------------------------- getCards

  /** Ordered by `createdAt`, newest first. */
  predicate NewestFirst(cs: seq<Card>) {
    forall i, j :: 0 <= i < j < |cs| ==> cs[i].createdAt >= cs[j].createdAt
  }

  /** Places `c` into a newest-first sequence. */
  function InsertByDate(c: Card, cs: seq<Card>): (r: seq<Card>)
    requires NewestFirst(cs)
    ensures NewestFirst(r)
    ensures multiset(r) == multiset(cs) + multiset{c}
  {
    if cs == [] || c.createdAt >= cs[0].createdAt then [c] + cs
    else
      var rest := InsertByDate(c, cs[1..]);
      assert cs == [cs[0]] + cs[1..];
      assert forall x :: x in rest ==> x.createdAt <= cs[0].createdAt by {
        forall x | x in rest ensures x.createdAt <= cs[0].createdAt {
          assert x in multiset(rest);
          assert x == c || x in multiset(cs[1..]);
        }
      }
      [cs[0]] + rest
  }

  /** The `.sort({ createdAt: -1 })` of the listing query. */
  function SortNewestFirst(cs: seq<Card>): (r: seq<Card>)
    ensures NewestFirst(r)
    ensures multiset(r) == multiset(cs)
  {
    if cs == [] then []
    else
      assert cs == [cs[0]] + cs[1..];
      InsertByDate(cs[0], SortNewestFirst(cs[1..]))
  }

  /** getCards: the cards found, newest first; a failure is passed on unchanged. */
  function GetCards(found: Result<seq<Card>, DbError>): (acts: seq<Action>)
    ensures |acts| == 1
    ensures found.Ok? ==>
      && acts[0].Send? && acts[0].status == 200 && acts[0].body.CardList?
      && NewestFirst(acts[0].body.cards)
      && multiset(acts[0].body.cards) == multiset(found.value)
    ensures found.Err? ==> acts[0] == NextRaw(found.error)
  {
    match found
    case Ok(cs) => [Send(200, CardList(SortNewestFirst(cs)))]
    case Err(e) => [NextRaw(e)]
  }

  // -------------------------------------------------------------- createCard

  /** createCard's catch block: validation and cast failures are BadRequest;
      anything else falls out of the block and is dropped. */
  function CreateFailure(e: DbError): (t: Option<TypedError>)
    ensures t.Some? <==> IsValidation(e) || IsCast(e)
    ensures t.Some? ==> t.value == InvalidCard
  {
    if IsValidation(e) || IsCast(e) then Some(InvalidCard) else None
  }

  /** createCard: on success one card is added under the new id, owned by the
      acting identity, with no likes, and is sent back as `{data}`; on a
      failure the store is unchanged. */
  function CreateCardStep(
    cards: map<CardId, Card>, actor: UserId, name: string, link: string,
    newId: CardId, now: int, fault: Option<DbError>): (r: Step<map<CardId, Card>>)
    requires newId !in cards
    ensures CardsKeyed(cards) ==> CardsKeyed(r.store)
    ensures fault.Some? ==> r.store == cards && r.actions == Forward(CreateFailure(fault.value))
    ensures fault.None? ==>
      && r.store.Keys == cards.Keys + {newId}
      && (forall k :: k in cards ==> r.store[k] == cards[k])
      && var card := r.store[newId];
      && card.id == newId && card.owner == actor && card.likes == {} && card.name == name && card.link == link
      && r.actions == [Send(200, CardData(card))]
  {
    match fault
    case Some(e) => Step(cards, Forward(CreateFailure(e)))
    case None =>
      var card := Card(newId, name, link, actor, {}, now);
      assert newId in cards[newId := card];
      Step(cards[newId := card], [Send(200, CardData(card))])
  }

  // -------------------------------------------------------------- deleteCard

  /** The ownership comparison, made only on a card that exists. */
  function OwnerGuard(card: Card, actor: UserId): (t: Option<TypedError>)
    ensures t.None? <==> card.owner == actor
    ensures t.Some? ==> t.value == NotOwner
  {
    if card.owner != actor then Some(NotOwner) else None
  }

  /** deleteCard's catch block: a CastError is handed to `next` as BadRequest
      and then rethrown, so `next` runs a second time with the original. */
  function DeleteFailure(e: DbError): (acts: seq<Action>)
    ensures acts != [] && acts[|acts| - 1] == NextRaw(e)
    ensures |acts| == 2 <==> IsCast(e)
    ensures IsCast(e) ==> acts[0] == Next(InvalidCard)
    ensures |acts| <= 2
  {
    if IsCast(e) then [Next(InvalidCard), NextRaw(e)] else [NextRaw(e)]
  }

  /** deleteCard: existence is checked before ownership; only the owner's
      request removes the card, and it removes that card alone. */
  function DeleteCardStep(
    cards: map<CardId, Card>, actor: UserId, cardId: CardId,
    fault: Option<DbError>): (r: Step<map<CardId, Card>>)
    ensures CardsKeyed(cards) ==> CardsKeyed(r.store)
    ensures fault.Some? ==> r.store == cards && r.actions == DeleteFailure(fault.value)
    ensures fault.None? && cardId !in cards ==> r.store == cards && r.actions == [Next(NoCard)]
    ensures fault.None? && cardId in cards && cards[cardId].owner != actor ==>
      r.store == cards && r.actions == [Next(NotOwner)]
    ensures r.store != cards <==> fault.None? && cardId in cards && cards[cardId].owner == actor
    ensures r.store != cards ==>
      && r.store.Keys == cards.Keys - {cardId}
      && (forall k :: k in r.store ==> r.store[k] == cards[k])
      && r.actions == [Send(200, Message(DeletedMessage))]
  {
    match fault
    case Some(e) => Step(cards, DeleteFailure(e))
    case None =>
      if cardId !in cards then Step(cards, [Next(NoCard)])
      else
        match OwnerGuard(cards[cardId], actor)
        case Some(t) => Step(cards, [Next(t)])
        case None =>
          assert cardId !in cards - {cardId};
          Step(cards - {cardId}, [Send(200, Message(DeletedMessage))])
  }

  // ------------------------------------------------------ likeCard / dislikeCard

  /** The catch block shared by likeCard and dislikeCard: a CastError becomes
      BadRequest, anything else (NotFound included) is rethrown unchanged. */
  function LikeFailure(e: DbError): (a: Action)
    ensures a == Next(InvalidCard) <==> IsCast(e)
    ensures !IsCast(e) ==> a == NextRaw(e)
  {
    if IsCast(e) then Next(InvalidCard) else NextRaw(e)
  }

  /** `$addToSet` (add) or `$pull` (remove) of `actor` on one card's likes,
      answered with the updated card. */
  function UpdateLikes(
    cards: map<CardId, Card>, actor: UserId, cardId: CardId, add: bool,
    fault: Option<DbError>): (r: Step<map<CardId, Card>>)
    ensures CardsKeyed(cards) ==> CardsKeyed(r.store)
    ensures r.store.Keys == cards.Keys
    ensures forall k :: k in cards && k != cardId ==> r.store[k] == cards[k]
    ensures cardId in cards ==>
      r.store[cardId] == cards[cardId].(likes := r.store[cardId].likes)
    ensures fault.Some? ==> r.store == cards && r.actions == [LikeFailure(fault.value)]
    ensures fault.None? && cardId !in cards ==> r.actions == [Next(NoCard)]
    ensures fault.None? && cardId in cards ==>
      && r.store[cardId].likes == (if add then cards[cardId].likes + {actor} else cards[cardId].likes - {actor})
      && r.actions == [Send(200, CardDoc(r.store[cardId]))]
  {
    match fault
    case Some(e) => Step(cards, [LikeFailure(e)])
    case None =>
      if cardId !in cards then Step(cards, [Next(NoCard)])
      else
        var card := cards[cardId];
        var updated := card.(likes := if add then card.likes + {actor} else card.likes - {actor});
        Step(cards[cardId := updated], [Send(200, CardDoc(updated))])
  }

  /** likeCard: afterwards the actor is among the likes, nothing else changed. */
  function LikeStep(cards: map<CardId, Card>, actor: UserId, cardId: CardId, fault: Option<DbError>): (r: Step<map<CardId, Card>>)
    ensures fault.None? && cardId in cards ==>
      && cardId in r.store
      && actor in r.store[cardId].likes
      && r.store[cardId].likes - {actor} == cards[cardId].likes - {actor}
  {
    UpdateLikes(cards, actor, cardId, true, fault)
  }

  /** dislikeCard: afterwards the actor is not among the likes; if it was not
      there, the card is as it was. */
  function DislikeStep(cards: map<CardId, Card>, actor: UserId, cardId: CardId, fault: Option<DbError>): (r: Step<map<CardId, Card>>)
    ensures fault.None? && cardId in cards ==> cardId in r.store && actor !in r.store[cardId].likes
    ensures cardId in cards && actor !in cards[cardId].likes ==> r.store == cards
  {
    var r := UpdateLikes(cards, actor, cardId, false, fault);
    assert cardId in cards && actor !in cards[cardId].likes ==> r.store == cards by {
      if cardId in cards && actor !in cards[cardId].likes {
        assert cards[cardId].likes - {actor} == cards[cardId].likes;
        assert forall k :: k in cards ==> r.store[k] == cards[k];
      }
    }
    r
  }

  /** The card collection the controller writes to. */
  class CardStore {
    var cards: map<CardId, Card>

    ghost predicate Valid()
      reads this
    {
      CardsKeyed(cards)
    }

    constructor ()
      ensures Valid() && cards == map[]
    {
      cards := map[];
    }

    method CreateCard(actor: UserId, name: string, link: string, newId: CardId, now: int, fault: Option<DbError>)
      returns (acts: seq<Action>)
      requires Valid() && newId !in cards
      modifies this
      ensures Valid()
      ensures Step(cards, acts) == CreateCardStep(old(cards), actor, name, link, newId, now, fault)
    {
      if fault.Some? {
        acts := Forward(CreateFailure(fault.value));
      } else {
        var card := Card(newId, name, link, actor, {}, now);
        cards := cards[newId := card];
        acts := [Send(200, CardData(card))];
      }
    }

    method DeleteCard(actor: UserId, cardId: CardId, fault: Option<DbError>)
      returns (acts: seq<Action>)
      requires Valid()
      modifies this
      ensures Valid()
      ensures Step(cards, acts) == DeleteCardStep(old(cards), actor, cardId, fault)
    {
      if fault.Some? {
        acts := DeleteFailure(fault.value);
        return;
      }
      if cardId !in cards {
        acts := [Next(NoCard)];
        return;
      }
      var denied := OwnerGuard(cards[cardId], actor);
      if denied.Some? {
        acts := [Next(denied.value)];
      } else {
        cards := cards - {cardId};
        acts := [Send(200, Message(DeletedMessage))];
      }
    }

    method LikeCard(actor: UserId, cardId: CardId, fault: Option<DbError>)
      returns (acts: seq<Action>)
      requires Valid()
      modifies this
      ensures Valid()
      ensures Step(cards, acts) == LikeStep(old(cards), actor, cardId, fault)
    {
      acts := SetLike(actor, cardId, true, fault);
    }

    method DislikeCard(actor: UserId, cardId: CardId, fault: Option<DbError>)
      returns (acts: seq<Action>)
      requires Valid()
      modifies this
      ensures Valid()
      ensures Step(cards, acts) == DislikeStep(old(cards), actor, cardId, fault)
    {
      acts := SetLike(actor, cardId, false, fault);
    }

    /** The in-place `$addToSet` / `$pull` on one card's likes. */
    method SetLike(actor: UserId, cardId: CardId, add: bool, fault: Option<DbError>)
      returns (acts: seq<Action>)
      requires Valid()
      modifies this
      ensures Valid()
      ensures Step(cards, acts) == UpdateLikes(old(cards), actor, cardId, add, fault)
    {
      if fault.Some? {
        acts := [LikeFailure(fault.value)];
        return;
      }
      if cardId !in cards {
        acts := [Next(NoCard)];
        return;
      }
      var card := cards[cardId];
      var likes := if add then card.likes + {actor} else card.likes - {actor};
      cards := cards[cardId := card.(likes := likes)];
      acts := [Send(200, CardDoc(cards[cardId]))];
    }
  }
}

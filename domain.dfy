/** The two persisted entities the controllers read and write. */
module Domain {
  /** Database identifiers (Mongo ObjectIds) as opaque strings. */
  type UserId = string
  type CardId = string

  /** A user document; `password` holds whatever the bcrypt hash call returned. */
  datatype User = User(
    id: UserId,
    name: string,
    about: string,
    avatar: string,
    email: string,
    password: string)

  /** A card document: one owner fixed at creation, and a set of likers. */
  datatype Card = Card(
    id: CardId,
    name: string,
    link: string,
    owner: UserId,
    likes: set<UserId>,
    createdAt: int)

  /** Every stored user sits under its own id. */
  predicate UsersKeyed(users: map<UserId, User>) {
    forall k :: k in users ==> users[k].id == k
  }

  /** Every stored card sits under its own id. */
  predicate CardsKeyed(cards: map<CardId, Card>) {
    forall k :: k in cards ==> cards[k].id == k
  }
}

/** What a handler does to the response: the ordered list of calls it makes
    on `res` and `next`. */
module Http {
  import opened Wrappers
  import opened Domain
  import opened Errors
  import opened Auth

  /** The JSON bodies the handlers send. */
  datatype Body =
    | Message(text: string)          // { message }
    | UserData(user: Option<User>)   // { data: user }, user possibly null
    | UserDoc(doc: Option<User>)     // the user document itself, possibly null
    | UserList(users: seq<User>)
    | Mail(mail: string)             // { mail }
    | Jwt(token: Token)              // { jwt }
    | CardData(card: Card)           // { data: card }
    | CardDoc(item: Card)            // the card document itself
    | CardList(cards: seq<Card>)

  /** `res.status(s).send(b)`, `next(typedError)` or `next(rawError)`. */
  datatype Action =
    | Send(status: int, body: Body)
    | Next(error: TypedError)
    | NextRaw(raw: DbError)

  /** A handler's effect: the store afterwards and the actions, in order. */
  datatype Step<S> = Step(store: S, actions: seq<Action>)

  /** A classifier's verdict passed on by `.catch(next)`: nothing when the
      catch block returned normally, otherwise one `next` call. */
  function Forward(t: Option<TypedError>): (acts: seq<Action>)
    ensures t.None? <==> acts == []
    ensures t.Some? ==> acts == [Next(t.value)]
  {
    if t.None? then [] else [Next(t.value)]
  }
}

/** The browser's `localStorage` as far as the client uses it: the items
    "token" and "username", each a string or absent. Durability across
    reloads is not modelled; the record is the whole store. */
module Storage {
  import opened Js

  datatype Session = Session(token: Option<string>, username: Option<string>)

  /** A store holding neither item. */
  const Cleared := Session(None, None)

  /** `!!localStorage.getItem("token")`: a token is present and non-empty. */
  predicate HasToken(s: Session) {
    Truthy(Item(s.token))
  }

  /** `localStorage.setItem("token", v)`: the item becomes `String(v)`. */
  function StoreToken(s: Session, v: Value): (r: Session)
    ensures r.token.Some?
    ensures v.Str? ==> r.token.value == v.s
    ensures v.Undefined? ==> r.token.value == "undefined"
    ensures v.Null? ==> r.token.value == "null"
    ensures r.username == s.username
  {
    s.(token := Some(ToText(v)))
  }

  /** `localStorage.removeItem("token")`: the item is gone, so `getItem`
      returns null afterwards. */
  function RemoveToken(s: Session): (r: Session)
    ensures r.token == None && !HasToken(r) && r.username == s.username
  {
    s.(token := None)
  }
}

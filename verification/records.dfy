/**
 * Records shared by several pages: the signed-in user, catalogue entries,
 * the browser's key/value storage, and the calls a page makes into
 * collaborators whose code is not part of this model (the cart store and
 * the router).
 */
module Records {
  import opened Wrappers

  /** `localStorage`: string keys to string values. */
  type Storage = map<string, string>

  /** The storage key holding the bearer credential. */
  const TokenKey: string := "token"

  /** The storage key of a cached user record, which only the HTTP client's 401 handling touches. */
  const UserKey: string := "user"

  /**
   * The stored credential as `if (token)` sees it: `getItem` gives null for a
   * missing key, and the empty string is falsy, so both count as no token.
   */
  function StoredToken(storage: Storage): (t: Option<string>)
    ensures t.Some? ==> TokenKey in storage && t.value == storage[TokenKey] && t.value != ""
    ensures t.None? <==> TokenKey !in storage || storage[TokenKey] == ""
  {
    if TokenKey in storage && storage[TokenKey] != "" then Some(storage[TokenKey]) else None
  }

  /** The one privileged role name; every other role string is an ordinary user. */
  const AdminRole: string := "ADMIN"

  /**
   * A user id. The session store builds it as `decoded.id || decoded.sub || 0`,
   * so despite its numeric type it can hold the token's subject string.
   */
  datatype UserId = NumericId(n: int) | SubjectId(subject: string)

  /** The signed-in identity. `email` can be absent when the token carries neither `sub` nor `email`. */
  datatype User = User(id: UserId, email: Option<string>, name: string, role: string)

  /** `user?.role === "ADMIN"`: false for a missing user. */
  predicate IsAdmin(user: Option<User>) {
    user.Some? && user.value.role == AdminRole
  }

  datatype Category = Category(id: int, name: string)

  /** A catalogue product as the REST backend returns it; `category` may be null. */
  datatype Product = Product(id: int, name: string, price: int, image: string, category: Option<Category>)

  /** The argument of the cart store's `addToCart`: a line without its quantity. */
  datatype CartItem = CartItem(id: string, name: string, price: int, image: string)

  /** A line of the cart store as the checkout page reads it. */
  datatype CartLine = CartLine(id: string, name: string, price: int, image: string, quantity: int)

  /** A call a page makes into the cart store or the router, in the order made. */
  datatype Call =
    | AddToCart(item: CartItem)
    | ClearCart
    | Navigate(to: string, replace: bool)

  /**
   * A JSON response body as the pages inspect it: an array, an object whose
   * `content` field may hold the array (a paged reply), or null.
   */
  datatype Payload<T> = JsonArray(items: seq<T>) | JsonObject(content: Option<seq<T>>) | JsonNull

  /** `Array.isArray(data) ? data : []`. */
  function ArrayOrEmpty<T>(p: Payload<T>): (r: seq<T>)
    ensures p.JsonArray? ==> r == p.items
    ensures !p.JsonArray? ==> r == []
  {
    if p.JsonArray? then p.items else []
  }

  /**
   * `Array.isArray(data) ? data : data.content || []`; `None` where reading
   * `content` of null throws.
   */
  function ArrayOrContent<T>(p: Payload<T>): (r: Option<seq<T>>)
    ensures r.None? <==> p.JsonNull?
    ensures p.JsonArray? ==> r == Some(p.items)
    ensures p.JsonObject? ==> r == Some(if p.content.Some? then p.content.value else [])
  {
    match p
    case JsonArray(items) => Some(items)
    case JsonObject(content) => Some(content.GetOr([]))
    case JsonNull => None
  }

  /** How many times `c` occurs in `calls`. */
  function CountOf(calls: seq<Call>, c: Call): nat
    decreases |calls|
  {
    if |calls| == 0 then 0
    else (if calls[0] == c then 1 else 0) + CountOf(calls[1..], c)
  }
}

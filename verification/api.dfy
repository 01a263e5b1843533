/**
 * The shared HTTP client of src/lib/api.ts: two request interceptors (the
 * bearer credential, and dropping an explicit content type from multipart
 * bodies) and one response interceptor (a 401 ends the session).
 */
module Api {
  import opened Wrappers
  import opened Records

  /** A request's own headers and, when present, the `common` defaults attached to it. */
  datatype Headers = Headers(own: map<string, string>, common: Option<map<string, string>>)

  /** Only whether the body is a `FormData` matters to the interceptors. */
  datatype Body = FormData | OtherBody

  datatype Request = Request(headers: Headers, body: Body)

  const AuthorizationKey: string := "Authorization"

  /** The spellings of the content-type header the multipart interceptor removes. */
  const ContentTypeKeys: set<string> := {"Content-Type", "content-type"}

  /** `if (m[key]) delete m[key]`: a header is removed only when its value is truthy, that is non-empty. */
  function DeleteIfSet(m: map<string, string>, key: string): (r: map<string, string>)
    ensures key in r ==> key in m && r[key] == "" == m[key]
    ensures forall k :: k != key ==> (k in r <==> k in m) && (k in r ==> r[k] == m[k])
  {
    if key in m && m[key] != "" then m - {key} else m
  }

  function StripContentTypes(m: map<string, string>): (r: map<string, string>)
    ensures forall k :: k in ContentTypeKeys && k in r ==> r[k] == ""
    ensures forall k :: k !in ContentTypeKeys ==> (k in r <==> k in m) && (k in r ==> r[k] == m[k])
    ensures forall k :: k in r ==> k in m && r[k] == m[k]
  {
    DeleteIfSet(DeleteIfSet(m, "Content-Type"), "content-type")
  }

  /** First request interceptor: attach `Bearer <token>` when storage holds a non-empty token. */
  function AttachBearer(req: Request, storage: Storage): (r: Request)
    ensures StoredToken(storage).None? ==> r == req
    ensures StoredToken(storage).Some? ==>
      r == req.(headers := req.headers.(own := req.headers.own[AuthorizationKey := "Bearer " + storage[TokenKey]]))
  {
    match StoredToken(storage)
    case None => req
    case Some(token) => req.(headers := req.headers.(own := req.headers.own[AuthorizationKey := "Bearer " + token]))
  }

  /**
   * Second request interceptor: for a `FormData` body, drop any set
   * content-type header, own or common, so the browser can supply the
   * multipart boundary. Other bodies pass untouched.
   */
  function StripMultipartContentType(req: Request): (r: Request)
    ensures req.body != FormData ==> r == req
    ensures r.body == req.body && r.headers.common.Some? == req.headers.common.Some?
    ensures req.body == FormData ==>
      (forall k :: k in ContentTypeKeys && k in r.headers.own ==> r.headers.own[k] == "") &&
      (r.headers.common.Some? ==> forall k :: k in ContentTypeKeys && k in r.headers.common.value ==>
        r.headers.common.value[k] == "")
    ensures forall k :: k !in ContentTypeKeys ==>
      (k in r.headers.own <==> k in req.headers.own) &&
      (k in r.headers.own ==> r.headers.own[k] == req.headers.own[k])
    ensures r.headers.common.Some? ==> forall k :: k !in ContentTypeKeys ==>
      (k in r.headers.common.value <==> k in req.headers.common.value) &&
      (k in r.headers.common.value ==> r.headers.common.value[k] == req.headers.common.value[k])
  {
    if req.body != FormData then req
    else
      var common := match req.headers.common
        case None => None
        case Some(c) => Some(StripContentTypes(c));
      req.(headers := Headers(StripContentTypes(req.headers.own), common))
  }

  /** axios runs request interceptors last-registered first: the multipart one, then the bearer one. */
  function OnRequest(req: Request, storage: Storage): (r: Request)
    ensures r.body == req.body
    ensures StoredToken(storage).Some? ==>
      AuthorizationKey in r.headers.own && r.headers.own[AuthorizationKey] == "Bearer " + storage[TokenKey]
    ensures StoredToken(storage).None? ==> r == StripMultipartContentType(req)
    ensures req.body == FormData ==> forall k :: k in ContentTypeKeys && k in r.headers.own ==> r.headers.own[k] == ""
    ensures forall k :: k !in ContentTypeKeys && k != AuthorizationKey ==>
      (k in r.headers.own <==> k in req.headers.own) &&
      (k in r.headers.own ==> r.headers.own[k] == req.headers.own[k])
  {
    AttachBearer(StripMultipartContentType(req), storage)
  }

  /** The two request interceptors touch disjoint headers, so their registration order does not matter. */
  lemma InterceptorsCommute(req: Request, storage: Storage)
    ensures AttachBearer(StripMultipartContentType(req), storage) ==
            StripMultipartContentType(AttachBearer(req, storage))
  {
    if req.body == FormData && StoredToken(storage).Some? {
      var token := "Bearer " + storage[TokenKey];
      var own := req.headers.own;
      assert AuthorizationKey !in ContentTypeKeys;
      assert StripContentTypes(own)[AuthorizationKey := token] == StripContentTypes(own[AuthorizationKey := token]);
    }
  }

  /** The bearer header is present exactly when storage holds a non-empty token. */
  lemma BearerIffToken(req: Request, storage: Storage)
    requires AuthorizationKey !in req.headers.own
    ensures var r := OnRequest(req, storage);
      (AuthorizationKey in r.headers.own <==> StoredToken(storage).Some?) &&
      (AuthorizationKey in r.headers.own ==> r.headers.own[AuthorizationKey] == "Bearer " + storage[TokenKey])
  {
  }

  /** An HTTP failure; `status` is absent when no response arrived. */
  datatype HttpError = HttpError(status: Option<int>)

  datatype Settled<T> = Fulfilled(value: T) | Rejected(error: HttpError)

  /** The page the response interceptor sends the window to on a 401. */
  const LoginPath: string := "/login"

  /** `error.response?.status === 401`. */
  predicate IsUnauthorized<T>(outcome: Settled<T>) {
    outcome.Rejected? && outcome.error.status == Some(401)
  }

  /**
   * A settled request after the response interceptor: the outcome the
   * caller's `await` sees, the storage, and the page `window.location.href`
   * was set to, if any.
   */
  datatype Intercepted<T> = Intercepted(outcome: Settled<T>, storage: Storage, reload: Option<string>)

  /**
   * The response interceptor: success passes through, every error is
   * rejected again, and a 401 first removes the token and the stored user
   * and sends the window to `/login`.
   */
  function OnResponse<T>(outcome: Settled<T>, storage: Storage): (r: Intercepted<T>)
    ensures r.outcome == outcome
    ensures IsUnauthorized(outcome) ==>
      && TokenKey !in r.storage && UserKey !in r.storage
      && (forall k :: k in storage && k != TokenKey && k != UserKey ==> k in r.storage && r.storage[k] == storage[k])
      && (forall k :: k in r.storage ==> k in storage)
      && r.reload == Some(LoginPath)
    ensures !IsUnauthorized(outcome) ==> r.storage == storage && r.reload.None?
  {
    if IsUnauthorized(outcome) then Intercepted(outcome, storage - {TokenKey, UserKey}, Some(LoginPath))
    else Intercepted(outcome, storage, None)
  }
}

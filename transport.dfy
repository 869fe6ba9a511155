/** The shared HTTP client of `src/api/index.js`: the request interceptor that
    attaches the stored token, the response interceptor that unwraps the body
    and turns a 401 into a forced logout, and `checkToken`. */
module Transport {
  import opened Js
  import opened Host

  const TokenKey := "token"
  const AuthorizationHeader := "Authorization"
  const LoginPath := "/login"
  const Unauthorized := 401

  /** An axios error: the HTTP status of `error.response`, if a response came. */
  datatype HttpError = HttpError(status: Option<int>)

  /** What axios hands the response interceptors. */
  datatype Settled<+T> = Fulfilled(status: int, data: T) | Failed(error: HttpError)

  /** What a caller of `request` observes: the body, or the rejection. */
  datatype Reply<+T> = Resolved(value: T) | Rejected(error: HttpError)

  /** The backend's status envelope `{ code, data }`; `code === 0` is success. */
  datatype Envelope<+T> = Envelope(code: int, data: T)

  /** A GET request with its query parameters. */
  datatype ApiRequest = ApiRequest(path: string, params: map<string, int>)

  /** `checkToken()`: `!!localStorage.getItem('token')`. */
  function CheckToken(storage: map<string, string>): (b: bool)
    ensures b <==> TokenKey in storage && storage[TokenKey] != ""
  {
    Truthy(GetItem(storage, TokenKey))
  }

  /** The request interceptor: `Authorization` carries the stored token when
      one is stored and non-empty; otherwise the headers pass untouched. */
  function AttachToken(storage: map<string, string>, headers: map<string, string>): (h: map<string, string>)
    ensures CheckToken(storage) ==> AuthorizationHeader in h && h[AuthorizationHeader] == storage[TokenKey]
    ensures CheckToken(storage) ==> h.Keys == headers.Keys + {AuthorizationHeader}
    ensures !CheckToken(storage) ==> h == headers
    ensures forall k :: k in headers && k != AuthorizationHeader ==> k in h && h[k] == headers[k]
  {
    var token := GetItem(storage, TokenKey);
    if Truthy(token) then headers[AuthorizationHeader := token.s] else headers
  }

  /** The error a 401 response carries. */
  predicate IsUnauthorized(e: HttpError) {
    e.status == Some(Unauthorized)
  }

  /** The response interceptors: a response is reduced to its `data`; every
      error is passed on as a rejection, and a 401 first clears the stored
      token and sends the browser to the login page. */
  method Receive<T>(w: Window, s: Settled<T>) returns (r: Reply<T>)
    modifies w
    ensures s.Fulfilled? ==> r == Resolved(s.data)
    ensures s.Failed? ==> r == Rejected(s.error)
    ensures s.Failed? && IsUnauthorized(s.error) ==>
      w.localStorage == old(w.localStorage) - {TokenKey} && w.location == LoginPath
    ensures !(s.Failed? && IsUnauthorized(s.error)) ==>
      w.localStorage == old(w.localStorage) && w.location == old(w.location)
    ensures w.title == old(w.title)
  {
    match s
    case Fulfilled(_, data) =>
      r := Resolved(data);
    case Failed(e) =>
      if IsUnauthorized(e) {
        w.RemoveItem(TokenKey);
        w.location := LoginPath;
      }
      r := Rejected(e);
  }

  /** After a 401, `checkToken()` is false and no request carries a token. */
  lemma UnauthorizedClearsToken(storage: map<string, string>, headers: map<string, string>)
    ensures !CheckToken(storage - {TokenKey})
    ensures AttachToken(storage - {TokenKey}, headers) == headers
  {
  }

  /** A request is authorised exactly when `checkToken()` holds. */
  lemma AuthorizedIffCheckToken(storage: map<string, string>)
    ensures AuthorizationHeader in AttachToken(storage, map[]) <==> CheckToken(storage)
  {
  }
}

/** The shared REST client's two interceptors (src/api.js) and the browser's
    local storage they read and clear. */
module Session {
  import opened Base

  /** `window.localStorage`: string keys to string values. */
  class LocalStorage {
    var items: map<string, string>

    constructor (initial: map<string, string>)
      ensures items == initial
    {
      items := initial;
    }

    /** `getItem(key)`: the stored value, or None (JavaScript's null). */
    method GetItem(key: string) returns (v: Option<string>)
      ensures v == Lookup(items, key)
    {
      v := if key in items then Some(items[key]) else None;
    }

    method SetItem(key: string, value: string)
      modifies this
      ensures items == old(items)[key := value]
    {
      items := items[key := value];
    }

    method RemoveItem(key: string)
      modifies this
      ensures items == old(items) - {key}
    {
      items := items - {key};
    }
  }

  function Lookup(items: map<string, string>, key: string): Option<string> {
    if key in items then Some(items[key]) else None
  }

  /** The keys that hold the signed-in session. */
  const TokenKey := "token"
  const UserKey := "user"

  /** An outgoing request as the interceptor sees it. */
  datatype Request = Request(url: string, headers: map<string, string>)

  /** The request the interceptor lets through for the given storage: with a
      non-empty stored token, `Authorization` is `Bearer <token>`; otherwise
      the request is untouched. */
  function WithAuth(items: map<string, string>, req: Request): Request {
    var token := Lookup(items, TokenKey);
    if Truthy(token) then req.(headers := req.headers["Authorization" := "Bearer " + token.value])
    else req
  }

  /** The request interceptor. */
  method InterceptRequest(store: LocalStorage, req: Request) returns (out: Request)
    ensures Truthy(Lookup(store.items, TokenKey)) ==>
      && out.url == req.url
      && out.headers == req.headers["Authorization" := "Bearer " + store.items[TokenKey]]
    ensures !Truthy(Lookup(store.items, TokenKey)) ==> out == req
    ensures out == WithAuth(store.items, req)
  {
    var token := store.GetItem(TokenKey);
    out := req;
    if Truthy(token) {
      out := out.(headers := out.headers["Authorization" := "Bearer " + token.value]);
    }
  }

  /** The storage after the response interceptor has seen `outcome`: a 401
      response wipes the session, anything else keeps it. */
  function AfterResponse<T>(items: map<string, string>, outcome: Response<T>): map<string, string> {
    if outcome.Failed? && IsUnauthorized(outcome.failure) then items - {TokenKey, UserKey}
    else items
  }

  /** The response interceptor: passes every outcome on unchanged (a failure
      stays a rejection) and clears the session on a 401. */
  method InterceptResponse<T>(store: LocalStorage, outcome: Response<T>) returns (passed: Response<T>)
    modifies store
    ensures passed == outcome
    ensures store.items == AfterResponse(old(store.items), outcome)
  {
    passed := outcome;
    if outcome.Failed? && IsUnauthorized(outcome.failure) {
      store.RemoveItem(TokenKey);
      store.RemoveItem(UserKey);
    }
  }

  /** A 401 removes exactly the token and the cached user. */
  lemma UnauthorizedClearsSession<T>(items: map<string, string>, e: HttpError)
    requires e.status == Some(401)
    ensures var after := AfterResponse<T>(items, Failed(e));
      && TokenKey !in after && UserKey !in after
      && forall k :: k in items && k != TokenKey && k != UserKey ==> k in after && after[k] == items[k]
  {
  }

  /** Successes and failures other than 401 leave storage as it was. */
  lemma OtherOutcomesKeepStorage<T>(items: map<string, string>, outcome: Response<T>)
    requires outcome.Ok? || !IsUnauthorized(outcome.failure)
    ensures AfterResponse(items, outcome) == items
  {
  }

  /** Once a 401 has cleared the session, later requests go out without an
      `Authorization` header being added. */
  lemma SignedOutRequestsCarryNoToken<T>(items: map<string, string>, e: HttpError, req: Request)
    requires IsUnauthorized(e)
    ensures WithAuth(AfterResponse<T>(items, Failed(e)), req) == req
  {
  }
}

/** The user-domain wrappers of `src/api/user.js` that carry logic: `login`
    persists a string token, `logout` removes the session keys, and the
    paginated wrappers fix their default page sizes. */
module UserApi {
  import opened Js
  import opened Host
  import opened Transport

  const UserInfoKey := "userInfo"

  /** `login(phone, code)`: a non-empty string answer is the token and is
      written to storage key `token`; the answer is returned whatever its
      shape, and a failed request is re-thrown with storage untouched. */
  method Login(w: Window, reply: Reply<Value>) returns (r: Reply<Value>)
    modifies w
    ensures r == reply
    ensures reply.Resolved? && IsTruthyString(reply.value) ==>
      w.localStorage == old(w.localStorage)[TokenKey := reply.value.s]
    ensures !(reply.Resolved? && IsTruthyString(reply.value)) ==> w.localStorage == old(w.localStorage)
    ensures w.location == old(w.location) && w.title == old(w.title)
  {
    if reply.Resolved? && IsTruthyString(reply.value) {
      w.SetItem(TokenKey, reply.value.s);
    }
    r := reply;
  }

  /** `logout()`: removes `token` and `userInfo`; every other key, `phone`
      among them, stays. */
  method Logout(w: Window)
    modifies w
    ensures w.localStorage == old(w.localStorage) - {TokenKey, UserInfoKey}
    ensures forall k :: k in old(w.localStorage) && k != TokenKey && k != UserInfoKey ==>
      k in w.localStorage && w.localStorage[k] == old(w.localStorage)[k]
    ensures w.location == old(w.location) && w.title == old(w.title)
  {
    w.RemoveItem(TokenKey);
    w.RemoveItem(UserInfoKey);
  }

  /** `getUserFeeds(userId, page = 1, limit = 10)`. */
  function GetUserFeeds(userId: string, page: int := 1, limit: int := 10): (r: ApiRequest)
    ensures r.path == "/user/" + userId + "/feeds"
    ensures r.params.Keys == {"page", "limit"} && r.params["page"] == page && r.params["limit"] == limit
  {
    ApiRequest("/user/" + userId + "/feeds", map["page" := page, "limit" := limit])
  }

  /** `getFollowings(userId, page = 1, limit = 20)`. */
  function GetFollowings(userId: string, page: int := 1, limit: int := 20): (r: ApiRequest)
    ensures r.path == "/user/" + userId + "/followings"
    ensures r.params.Keys == {"page", "limit"} && r.params["page"] == page && r.params["limit"] == limit
  {
    ApiRequest("/user/" + userId + "/followings", map["page" := page, "limit" := limit])
  }

  /** `getFollowers(userId, page = 1, limit = 20)`. */
  function GetFollowers(userId: string, page: int := 1, limit: int := 20): (r: ApiRequest)
    ensures r.path == "/user/" + userId + "/followers"
    ensures r.params.Keys == {"page", "limit"} && r.params["page"] == page && r.params["limit"] == limit
  {
    ApiRequest("/user/" + userId + "/followers", map["page" := page, "limit" := limit])
  }

  /** The defaults: page 1 everywhere, 10 feed items, 20 followings or followers. */
  lemma PagingDefaults(userId: string)
    ensures GetUserFeeds(userId).params == map["page" := 1, "limit" := 10]
    ensures GetFollowings(userId).params == map["page" := 1, "limit" := 20]
    ensures GetFollowers(userId).params == map["page" := 1, "limit" := 20]
  {
  }
}

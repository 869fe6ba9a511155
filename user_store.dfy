/** The session store of `src/store/userStore.js`: the token and phone held
    in memory, their durable copies in `localStorage`, and the actions that
    move the session between logged out and logged in. Each asynchronous
    action receives the answer of its remote call as a `Reply`. */
module UserStore {
  import opened Js
  import opened Host
  import opened Transport
  import UserApi

  const PhoneKey := "phone"

  class UserStore {
    const window: Window
    var token: string
    var phone: string
    var isLoading: bool
    /** Assigned by `fetchUserInfo` and `updateUserInfo`; `undefined` at first. */
    var userInfo: Value

    /** The in-memory session agrees with its durable copy. */
    ghost predicate Synced()
      reads this, window
    {
      token == StoredText(window.localStorage, TokenKey)
      && phone == StoredText(window.localStorage, PhoneKey)
    }

    /** The store's `state()`: token and phone are read back from storage. */
    constructor (w: Window)
      ensures window == w
      ensures token == StoredText(w.localStorage, TokenKey)
      ensures phone == StoredText(w.localStorage, PhoneKey)
      ensures !isLoading && userInfo == Undefined
      ensures Synced()
    {
      window := w;
      token := StoredText(w.localStorage, TokenKey);
      phone := StoredText(w.localStorage, PhoneKey);
      isLoading := false;
      userInfo := Undefined;
    }

    /** The `isLoggedIn` getter: `!!state.token`. */
    function IsLoggedIn(): (b: bool)
      reads this
      ensures b <==> token != ""
    {
      Truthy(Str(token))
    }

    /** While the session is in sync, being logged in and `checkToken()` agree. */
    lemma LoggedInMatchesCheckToken()
      requires Synced()
      ensures IsLoggedIn() == CheckToken(window.localStorage)
    {
    }

    /** `sendCode(phone)`: a truthy answer records the phone in memory and in
        storage and is returned; any other outcome returns `null`. */
    method SendCode(ph: string, reply: Reply<Value>) returns (r: Option<Value>)
      modifies this, window
      ensures r.Some? <==> reply.Resolved? && Truthy(reply.value)
      ensures r.Some? ==>
        r.value == reply.value && phone == ph && window.localStorage == old(window.localStorage)[PhoneKey := ph]
      ensures r.None? ==> phone == old(phone) && window.localStorage == old(window.localStorage)
      ensures token == old(token) && userInfo == old(userInfo) && !isLoading
      ensures window.location == old(window.location) && window.title == old(window.title)
      ensures old(Synced()) ==> Synced()
    {
      isLoading := true;
      if reply.Resolved? && Truthy(reply.value) {
        phone := ph;
        window.SetItem(PhoneKey, ph);
        r := Some(reply.value);
      } else {
        r := None;
      }
      isLoading := false;
    }

    /** `login(phone, code)`: succeeds exactly when the answer is a non-empty
        string, which becomes the token in memory and in storage; any other
        answer or a failed request leaves the session as it was. */
    method Login(ph: string, reply: Reply<Value>) returns (ok: bool)
      modifies this, window
      ensures ok <==> reply.Resolved? && IsTruthyString(reply.value)
      ensures ok ==> token == reply.value.s && phone == ph
      ensures ok ==> window.localStorage == old(window.localStorage)[TokenKey := token][PhoneKey := ph]
      ensures !ok ==> token == old(token) && phone == old(phone)
      ensures !ok ==> window.localStorage == old(window.localStorage)
      ensures userInfo == old(userInfo) && !isLoading
      ensures window.location == old(window.location) && window.title == old(window.title)
      ensures ok ==> IsLoggedIn() && Synced()
      ensures old(Synced()) ==> Synced()
    {
      isLoading := true;
      var res := UserApi.Login(window, reply);
      if res.Resolved? && Truthy(res.value) && res.value.Str? {
        token := res.value.s;
        phone := ph;
        window.SetItem(PhoneKey, ph);
        ok := true;
      } else {
        ok := false;
      }
      isLoading := false;
    }

    /** `register(userData)`: true exactly on status code 0. */
    method Register(reply: Reply<Envelope<Value>>) returns (ok: bool)
      modifies this
      ensures ok <==> reply.Resolved? && reply.value.code == 0
      ensures token == old(token) && phone == old(phone) && userInfo == old(userInfo) && !isLoading
    {
      isLoading := true;
      ok := reply.Resolved? && reply.value.code == 0;
      isLoading := false;
    }

    /** `fetchUserInfo()`: nothing at all happens without a token; otherwise a
        code-0 answer becomes `userInfo` and its serialisation is stored. */
    method FetchUserInfo(reply: Reply<Envelope<Value>>)
      modifies this, window
      ensures token == "" ==> unchanged(this) && unchanged(window)
      ensures token != "" && reply.Resolved? && reply.value.code == 0 ==>
        userInfo == reply.value.data
        && window.localStorage == old(window.localStorage)[UserApi.UserInfoKey := window.stringify(userInfo)]
      ensures token != "" && !(reply.Resolved? && reply.value.code == 0) ==>
        userInfo == old(userInfo) && window.localStorage == old(window.localStorage)
      ensures token != "" ==> !isLoading
      ensures token == old(token) && phone == old(phone)
      ensures window.location == old(window.location) && window.title == old(window.title)
    {
      if !Truthy(Str(token)) {
        return;
      }
      isLoading := true;
      if reply.Resolved? && reply.value.code == 0 {
        userInfo := reply.value.data;
        window.SetItem(UserApi.UserInfoKey, window.stringify(userInfo));
      }
      isLoading := false;
    }

    /** `logout()`: always clears token and phone, in memory and in storage. */
    method Logout()
      modifies this, window
      ensures token == "" && phone == "" && !IsLoggedIn()
      ensures window.localStorage == old(window.localStorage) - {TokenKey, PhoneKey}
      ensures isLoading == old(isLoading) && userInfo == old(userInfo)
      ensures window.location == old(window.location) && window.title == old(window.title)
      ensures Synced()
    {
      token := "";
      phone := "";
      window.RemoveItem(TokenKey);
      window.RemoveItem(PhoneKey);
    }

    /** `updateUserInfo(newInfo)`: the given fields override, all others stay,
        and the merged record is stored. */
    method UpdateUserInfo(newInfo: Object)
      modifies this, window
      ensures userInfo == Obj(Spread(OwnProps(old(userInfo)), newInfo))
      ensures forall k :: k in newInfo ==> userInfo.props[k] == newInfo[k]
      ensures forall k :: k in OwnProps(old(userInfo)) && k !in newInfo ==> userInfo.props[k] == OwnProps(old(userInfo))[k]
      ensures window.localStorage == old(window.localStorage)[UserApi.UserInfoKey := window.stringify(userInfo)]
      ensures token == old(token) && phone == old(phone) && isLoading == old(isLoading)
      ensures window.location == old(window.location) && window.title == old(window.title)
    {
      userInfo := Obj(Spread(OwnProps(userInfo), newInfo));
      window.SetItem(UserApi.UserInfoKey, window.stringify(userInfo));
    }
  }

  /** Logging out twice leaves the same session and storage as once. */
  lemma LogoutIdempotent(storage: map<string, string>)
    ensures (storage - {TokenKey, PhoneKey}) - {TokenKey, PhoneKey} == storage - {TokenKey, PhoneKey}
    ensures !CheckToken(storage - {TokenKey, PhoneKey})
  {
  }

  /** Logging out a second time changes nothing: token, phone and storage are
      what one logout leaves. */
  method LogoutTwice(s: UserStore)
    modifies s, s.window
    ensures s.token == "" && s.phone == "" && !s.IsLoggedIn()
    ensures s.window.localStorage == old(s.window.localStorage) - {TokenKey, PhoneKey}
    ensures s.Synced()
  {
    s.Logout();
    ghost var once := s.window.localStorage;
    s.Logout();
    LogoutIdempotent(old(s.window.localStorage));
    assert s.window.localStorage == once;
  }

  /** A 401 clears the stored token and loads the login page; the store that
      page builds from storage is logged out. */
  method ForcedLogout(w: Window, s: Settled<Value>) returns (reloaded: UserStore)
    requires s.Failed? && IsUnauthorized(s.error)
    modifies w
    ensures w.location == LoginPath
    ensures !CheckToken(w.localStorage)
    ensures reloaded.window == w && !reloaded.IsLoggedIn()
  {
    var r := Receive(w, s);
    assert r.Rejected?;
    reloaded := new UserStore(w);
  }

  /** Logging in after sendCode, then out: the token is held and stored only
      in between. */
  method SessionLifecycle(w: Window, ph: string, token: string, codeReply: Value) returns (s: UserStore)
    requires token != "" && Truthy(codeReply)
    modifies w
    ensures s.window == w && !s.IsLoggedIn() && s.phone == ""
    ensures TokenKey !in w.localStorage && PhoneKey !in w.localStorage
  {
    s := new UserStore(w);
    var sent := s.SendCode(ph, Resolved(codeReply));
    assert sent == Some(codeReply) && s.phone == ph;
    var ok := s.Login(ph, Resolved(Str(token)));
    assert ok && s.IsLoggedIn() && CheckToken(w.localStorage);
    assert w.localStorage[TokenKey] == s.token == token;
    s.Logout();
  }
}

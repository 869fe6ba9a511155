/** The route table of `src/router/index.js` and its global `beforeEach`
    guard: the guard sets the page title and sends a visitor without a token
    away from any route marked `requiresAuth`. */
module Router {
  import opened Js
  import opened Host
  import Transport

  const DefaultTitle := "小红书"
  const LoginRoute := "Login"

  /** A route record's `meta` as the guard reads it. */
  datatype Meta = Meta(title: Option<string>, requiresAuth: bool)

  datatype Route = Route(path: string, name: Option<string>, meta: Meta)

  /** The resolved target of a navigation. */
  datatype Target = Target(fullPath: string, meta: Meta)

  /** What the guard passes to `next`. */
  datatype Nav =
    | Proceed                                  // `next()`
    | Redirect(name: string, redirect: string) // `next({ name, query: { redirect } })`

  function AuthMeta(title: string): Meta {
    Meta(Some(title), true)
  }

  /** The records the guard can see, in declaration order. The children of
      `/home` carry no `meta` of their own, so a navigation to one of them
      sees `/home`'s. The `/` record only redirects and is left out. */
  const Routes: seq<Route> := [
    Route("/login", Some("Login"), Meta(Some("登录 - 小红书"), false)),
    Route("/login/code", Some("CodeVerify"), Meta(Some("验证码登录 - 小红书"), false)),
    Route("/register", Some("Register"), Meta(Some("注册 - 小红书"), false)),
    Route("/home", None, AuthMeta("首页 - 小红书")),
    Route("/home/recommend", Some("recommend"), AuthMeta("首页 - 小红书")),
    Route("/home/following", Some("following"), AuthMeta("首页 - 小红书")),
    Route("/home/questionbank", Some("questionbank"), AuthMeta("首页 - 小红书")),
    Route("/food", Some("Food"), AuthMeta("美食 - 小红书")),
    Route("/beauty", Some("Beauty"), AuthMeta("美妆 - 小红书")),
    Route("/movie", Some("Movie"), AuthMeta("影视 - 小红书")),
    Route("/career", Some("Career"), AuthMeta("职场 - 小红书")),
    Route("/emotion", Some("Emotion"), AuthMeta("情感 - 小红书")),
    Route("/home", Some("HomeDecor"), AuthMeta("家居 - 小红书")),
    Route("/game", Some("Game"), AuthMeta("游戏 - 小红书")),
    Route("/travel", Some("Travel"), AuthMeta("旅行 - 小红书")),
    Route("/fitness", Some("Fitness"), AuthMeta("健身 - 小红书")),
    Route("/publish", Some("Publish"), AuthMeta("发布笔记 - 小红书")),
    Route("/publish/note", Some("PublishNote"), AuthMeta("发布笔记 - 小红书")),
    Route("/messages", Some("Messages"), AuthMeta("消息 - 小红书")),
    Route("/profile", Some("Profile"), AuthMeta("个人资料 - 小红书")),
    Route("/note/:id", Some("noteDetail"), AuthMeta("笔记详情 - 小红书")),
    Route("/user/:id", Some("UserProfile"), AuthMeta("用户主页 - 小红书")),
    Route("/question/:id", Some("questionDetail"), AuthMeta("题目详情")),
    Route("/:pathMatch(.*)*", Some("NotFound"), Meta(Some("页面未找到 - 小红书"), false))
  ]

  /** The names of the routes open without a token. */
  const PublicNames: set<Option<string>> := {Some("Login"), Some("CodeVerify"), Some("Register"), Some("NotFound")}

  /** `to.meta.title || '小红书'`: never empty. */
  function Title(meta: Meta): (t: string)
    ensures t != ""
    ensures meta.title.Some? && meta.title.value != "" ==> t == meta.title.value
    ensures meta.title.None? || meta.title.value == "" ==> t == DefaultTitle
  {
    if meta.title.Some? && Truthy(Str(meta.title.value)) then meta.title.value else DefaultTitle
  }

  /** The guard's decision: a redirect to the login page, remembering where
      the visitor was going, exactly when the target requires a token and
      none is stored; `next()` otherwise. */
  function Decide(to: Target, hasToken: bool): (nav: Nav)
    ensures nav.Redirect? <==> to.meta.requiresAuth && !hasToken
    ensures nav.Redirect? ==> nav.name == LoginRoute && nav.redirect == to.fullPath
  {
    if to.meta.requiresAuth && !hasToken then Redirect(LoginRoute, to.fullPath) else Proceed
  }

  /** `router.beforeEach`: sets `document.title`, then decides on the stored
      token; it issues exactly one navigation. */
  method BeforeEach(w: Window, to: Target) returns (nav: Nav)
    modifies w
    ensures w.title == Title(to.meta)
    ensures nav == Decide(to, Transport.CheckToken(w.localStorage))
    ensures w.localStorage == old(w.localStorage) && w.location == old(w.location)
  {
    w.title := Title(to.meta);
    if to.meta.requiresAuth {
      if !Transport.CheckToken(w.localStorage) {
        nav := Redirect(LoginRoute, to.fullPath);
        return;
      }
    }
    nav := Proceed;
  }

  /** Exactly Login, CodeVerify, Register and NotFound are open without a
      token, and they let every visitor through. */
  lemma PublicRoutesAlwaysProceed(i: int, hasToken: bool)
    requires 0 <= i < |Routes|
    ensures !Routes[i].meta.requiresAuth <==> Routes[i].name in PublicNames
    ensures Routes[i].name in PublicNames ==> Decide(Target(Routes[i].path, Routes[i].meta), hasToken) == Proceed
  {
  }

  /** The login redirect names a route of the table that lets every visitor
      through, so the guard never redirects twice in a row. */
  lemma RedirectTargetIsOpen(hasToken: bool)
    ensures exists i :: 0 <= i < |Routes| && Routes[i].name == Some(LoginRoute)
    ensures forall i :: 0 <= i < |Routes| && Routes[i].name == Some(LoginRoute) ==>
      Decide(Target(Routes[i].path, Routes[i].meta), hasToken) == Proceed
  {
    assert Routes[0].name == Some(LoginRoute);
  }

  /** Every protected route is reached with a token and refused without. */
  lemma ProtectedRoutesNeedToken(i: int, fullPath: string)
    requires 0 <= i < |Routes| && Routes[i].name !in PublicNames
    ensures Decide(Target(fullPath, Routes[i].meta), true) == Proceed
    ensures Decide(Target(fullPath, Routes[i].meta), false) == Redirect(LoginRoute, fullPath)
  {
    PublicRoutesAlwaysProceed(i, false);
  }
}

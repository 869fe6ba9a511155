/** The content-domain wrappers of `src/api/note.js` that carry logic: the two
    feed requests, whose paging parameters are named differently, and the
    decoding of the image-upload response. */
module NoteApi {
  import opened Js
  import opened Transport

  const RecommendPath := "/notes/recommend"
  const FollowingPath := "/content/getSelfFollowerFeed"

  /** The keys of the exported `noteApi` object. There is a `likeNote` but no
      `unlikeNote`. */
  const Operations: set<string> := {
    "getRecommendNotes", "getFollowingNotes", "getNoteDetail", "publishNote",
    "createContent", "uploadImage", "likeNote", "collectNote", "uncollectNote",
    "commentNote", "getNoteComments", "deleteNote", "getUserNotes",
    "getUserCollections", "getUserLikes", "getQuestionBank", "createQuestion",
    "pageQuestionList", "getQuestionDetail", "getQuestionTags",
    "getQuestionsByTag", "getNextQuestion", "getPrevQuestion",
    "getRecommendQuestions"
  }

  /** A call of `noteApi[name]` reaches a wrapper, or throws a `TypeError`
      because the property is `undefined`. */
  predicate Callable(name: string) {
    name in Operations
  }

  /** `noteApi.unlikeNote(id)` always throws, while `noteApi.likeNote(id)`
      reaches its wrapper. */
  lemma UnlikeIsNotCallable()
    ensures !Callable("unlikeNote") && Callable("likeNote")
  {
  }

  /** `getRecommendNotes(page = 1, limit = 10)`: sends `{ page, limit }`. */
  function GetRecommendNotes(page: int := 1, limit: int := 10): (r: ApiRequest)
    ensures r.path == RecommendPath
    ensures r.params.Keys == {"page", "limit"}
    ensures r.params["page"] == page && r.params["limit"] == limit
  {
    ApiRequest(RecommendPath, map["page" := page, "limit" := limit])
  }

  /** `getFollowingNotes(page = 1, limit = 10)`: sends `{ current, size }`. */
  function GetFollowingNotes(page: int := 1, limit: int := 10): (r: ApiRequest)
    ensures r.path == FollowingPath
    ensures r.params.Keys == {"current", "size"}
    ensures r.params["current"] == page && r.params["size"] == limit
  {
    ApiRequest(FollowingPath, map["current" := page, "size" := limit])
  }

  /** The page and size a feed request asks for, whichever naming it uses. */
  function RequestedPage(r: ApiRequest): (p: Option<(int, int)>)
    ensures p.Some? ==> ("page" in r.params && "limit" in r.params) || ("current" in r.params && "size" in r.params)
  {
    if "page" in r.params && "limit" in r.params then Some((r.params["page"], r.params["limit"]))
    else if "current" in r.params && "size" in r.params then Some((r.params["current"], r.params["size"]))
    else None
  }

  /** Both feeds ask for the same page and size under their own names, and
      both default to page 1 of size 10. */
  lemma FeedRequestsAgree(page: int, limit: int)
    ensures RequestedPage(GetRecommendNotes(page, limit)) == Some((page, limit))
    ensures RequestedPage(GetFollowingNotes(page, limit)) == Some((page, limit))
    ensures GetRecommendNotes().params.Keys !! GetFollowingNotes().params.Keys
    ensures RequestedPage(GetRecommendNotes()) == RequestedPage(GetFollowingNotes()) == Some((1, 10))
  {
  }

  datatype UploadError =
    | TransportError(cause: HttpError)   // the request failed; re-thrown as is
    | NoImageUrl                         // `new Error('无法获取图片URL')`

  /** `uploadImage`: the URL is the response itself when it is a non-empty
      string, else its truthy `url`, else its truthy `data.url`; anything
      else is the explicit no-URL error, and a failed request is re-thrown. */
  function UploadImage(reply: Reply<Value>): (r: Result<Value, UploadError>)
    ensures reply.Rejected? ==> r == Failure(TransportError(reply.error))
    ensures r.Success? ==> reply.Resolved? && Truthy(r.value)
    ensures r.Success? ==> r.value in {reply.value, Prop(reply.value, "url"), Prop(Prop(reply.value, "data"), "url")}
    ensures reply.Resolved? && IsTruthyString(reply.value) ==> r == Success(reply.value)
    ensures reply.Resolved? && !IsTruthyString(reply.value) && Truthy(Prop(reply.value, "url")) ==>
      r == Success(Prop(reply.value, "url"))
    ensures reply.Resolved? && !IsTruthyString(reply.value) && !Truthy(Prop(reply.value, "url")) && Truthy(Prop(Prop(reply.value, "data"), "url")) ==>
      r == Success(Prop(Prop(reply.value, "data"), "url"))
    ensures reply.Resolved? && r.Failure? ==> r.error == NoImageUrl
    ensures reply.Resolved? && r == Failure(NoImageUrl) <==>
      reply.Resolved? && !IsTruthyString(reply.value) && !Truthy(Prop(reply.value, "url"))
      && !Truthy(Prop(Prop(reply.value, "data"), "url"))
  {
    match reply
    case Rejected(e) => Failure(TransportError(e))
    case Resolved(response) =>
      if Truthy(response) && response.Str? then Success(response)
      else if Truthy(response) && Truthy(Prop(response, "url")) then Success(Prop(response, "url"))
      else if Truthy(response) && Truthy(Prop(response, "data")) && Truthy(Prop(Prop(response, "data"), "url")) then
        Success(Prop(Prop(response, "data"), "url"))
      else Failure(NoImageUrl)
  }

  /** The three shapes the backend may answer with all yield the same URL. */
  lemma UploadAcceptsEachShape(url: string)
    requires url != ""
    ensures UploadImage(Resolved(Str(url))) == Success(Str(url))
    ensures UploadImage(Resolved(Obj(map["url" := Str(url)]))) == Success(Str(url))
    ensures UploadImage(Resolved(Obj(map["data" := Obj(map["url" := Str(url)])]))) == Success(Str(url))
  {
  }

  /** A top-level `url` takes precedence over `data.url`. */
  lemma UploadPrefersTopLevelUrl(top: Value, nested: Value)
    requires Truthy(top)
    ensures UploadImage(Resolved(Obj(map["url" := top, "data" := Obj(map["url" := nested])]))) == Success(top)
  {
  }

  /** `null`, `{}`, `""` and an object whose URLs are both falsy are refused. */
  lemma UploadRejectsShapeMismatch(url: Value, nested: Value)
    requires !Truthy(url) && !Truthy(nested)
    ensures UploadImage(Resolved(Null)) == Failure(NoImageUrl)
    ensures UploadImage(Resolved(Obj(map[]))) == Failure(NoImageUrl)
    ensures UploadImage(Resolved(Str(""))) == Failure(NoImageUrl)
    ensures UploadImage(Resolved(Obj(map["url" := url, "data" := Obj(map["url" := nested])]))) == Failure(NoImageUrl)
  {
  }
}

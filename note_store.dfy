/** The note-feed store of `src/store/noteStore.js`: two feed lists selected
    by a tab, one pagination cursor shared by both tabs, the detail slot, the
    comment list and the `isLoading` gate. A note may sit in up to three
    holders at once (either list and the detail slot), and local patches are
    fanned out to each of them independently. */
module NoteStore {
  import opened Js
  import opened Transport
  import NoteApi

  type Note = Object
  type Comment = Object

  datatype Tab = Recommend | Following

  /** `res.data` of a feed answer. */
  datatype FeedData = FeedData(list: seq<Note>, totalPages: int)

  /** `res.data` of a comment-page answer. */
  datatype CommentData = CommentData(list: seq<Comment>)

  /** The three places a copy of a note can live. */
  datatype Holders = Holders(recommend: seq<Note>, following: seq<Note>, current: Option<Note>)

  /** `note.id === noteId`. */
  predicate Matches(n: Note, id: Value) {
    StrictEquals(Get(n, "id"), id)
  }

  /** `l[i]` is the first note of `l` with the given id. */
  predicate IsFirstMatch(l: seq<Note>, id: Value, i: int) {
    0 <= i < |l| && Matches(l[i], id) && forall k :: 0 <= k < i ==> !Matches(l[k], id)
  }

  /** No note of `l` has the given id. */
  predicate Absent(l: seq<Note>, id: Value) {
    forall k :: 0 <= k < |l| ==> !Matches(l[k], id)
  }

  /** `l.findIndex(note => note.id === id)`. */
  function FindIndex(l: seq<Note>, id: Value): (i: int)
    ensures -1 <= i < |l|
    ensures i >= 0 ==> IsFirstMatch(l, id, i)
    ensures i == -1 <==> Absent(l, id)
  {
    if l == [] then -1
    else if Matches(l[0], id) then 0
    else
      var j := FindIndex(l[1..], id);
      if j == -1 then -1 else j + 1
  }

  /** `currentNote?.id`: `undefined` when the slot is empty. */
  function CurrentId(cur: Option<Note>): Value {
    match cur
    case None => Undefined
    case Some(n) => Get(n, "id")
  }

  /** The properties `{ ...currentNote }` copies; none from `null`. */
  function CurrentProps(cur: Option<Note>): Note {
    match cur
    case None => map[]
    case Some(n) => n
  }

  /** `findNote(id)`: the first match in the recommend list, else the first
      in the following list, else the detail note if its id matches, else
      `null`. */
  function Find(h: Holders, id: Value): (r: Option<Note>)
    ensures r.Some? ==> Matches(r.value, id)
    ensures forall i :: IsFirstMatch(h.recommend, id, i) ==> r == Some(h.recommend[i])
    ensures Absent(h.recommend, id) ==>
      forall i :: IsFirstMatch(h.following, id, i) ==> r == Some(h.following[i])
    ensures Absent(h.recommend, id) && Absent(h.following, id) ==>
      r == (if h.current.Some? && Matches(h.current.value, id) then h.current else None)
  {
    var i := FindIndex(h.recommend, id);
    if i != -1 then Some(h.recommend[i])
    else
      var j := FindIndex(h.following, id);
      if j != -1 then Some(h.following[j])
      else if StrictEquals(CurrentId(h.current), id) then h.current
      else None
  }

  /** One list's part of `updateNoteInList`: `d` is spread over the first
      note with the id, and only over it. */
  function PatchFirst(l: seq<Note>, id: Value, d: Note): (r: seq<Note>)
    ensures |r| == |l|
    ensures forall j :: 0 <= j < |l| && IsFirstMatch(l, id, j) ==> r[j] == Spread(l[j], d)
    ensures forall j :: 0 <= j < |l| && !IsFirstMatch(l, id, j) ==> r[j] == l[j]
    ensures Absent(l, id) ==> r == l
  {
    var i := FindIndex(l, id);
    if i == -1 then l else l[i := Spread(l[i], d)]
  }

  /** The detail slot's part of `updateNoteInList`. Note that with an empty
      slot and an `undefined` id, `currentNote?.id === noteId` holds and the
      slot becomes `{ ...null, ...d }`, that is `d`. */
  function PatchCurrent(cur: Option<Note>, id: Value, d: Note): (r: Option<Note>)
    ensures cur.Some? && Matches(cur.value, id) ==> r == Some(Spread(cur.value, d))
    ensures cur.Some? && !Matches(cur.value, id) ==> r == cur
    ensures cur.None? ==> r == (if id == Undefined then Some(d) else None)
  {
    assert cur.None? ==> Spread(CurrentProps(cur), d) == d;
    if StrictEquals(CurrentId(cur), id) then Some(Spread(CurrentProps(cur), d)) else cur
  }

  /** `updateNoteInList(id, d)` on all three holders: each list gets `d`
      spread over its first note with the id and nowhere else, and the detail
      slot is patched as `PatchCurrent` says. */
  function Update(h: Holders, id: Value, d: Note): (r: Holders)
    ensures |r.recommend| == |h.recommend| && |r.following| == |h.following|
    ensures forall j :: 0 <= j < |h.recommend| ==>
      r.recommend[j] == (if IsFirstMatch(h.recommend, id, j) then Spread(h.recommend[j], d) else h.recommend[j])
    ensures forall j :: 0 <= j < |h.following| ==>
      r.following[j] == (if IsFirstMatch(h.following, id, j) then Spread(h.following[j], d) else h.following[j])
    ensures h.current.Some? && Matches(h.current.value, id) ==> r.current == Some(Spread(h.current.value, d))
    ensures h.current.Some? && !Matches(h.current.value, id) ==> r.current == h.current
    ensures h.current.None? ==> r.current == (if id == Undefined then Some(d) else None)
  {
    Holders(PatchFirst(h.recommend, id, d), PatchFirst(h.following, id, d), PatchCurrent(h.current, id, d))
  }

  /** `findNote(id)?.[key] || d` for a counter field. */
  function Count(found: Option<Note>, key: string, d: int): (c: int)
    ensures found.None? ==> c == d
    ensures found.Some? && !Truthy(Get(found.value, key)) ==> c == d
    ensures found.Some? && Get(found.value, key).Num? && Get(found.value, key).n != 0 ==> c == Get(found.value, key).n
  {
    match found
    case None => d
    case Some(n) => CountOr(Get(n, key), d)
  }

  /** The patch `likeNote` applies: `likeCount` becomes `(c || 0) + 1`. */
  function LikePatch(found: Option<Note>): (d: Note)
    ensures d.Keys == {"isLiked", "likeCount"} && d["isLiked"] == Bool(true)
    ensures d["likeCount"] == Num(Count(found, "likeCount", 0) + 1)
    ensures found.None? ==> d["likeCount"] == Num(1)
    ensures Count(found, "likeCount", 0) >= 0 ==> d["likeCount"].Num? && d["likeCount"].n >= 1
  {
    map["isLiked" := Bool(true), "likeCount" := Num(Count(found, "likeCount", 0) + 1)]
  }

  /** The patch `unlikeNote` applies: `likeCount` becomes
      `Math.max((c || 1) - 1, 0)`, which is never negative. */
  function UnlikePatch(found: Option<Note>): (d: Note)
    ensures d.Keys == {"isLiked", "likeCount"} && d["isLiked"] == Bool(false)
    ensures Count(found, "likeCount", 1) >= 1 ==> d["likeCount"] == Num(Count(found, "likeCount", 1) - 1)
    ensures Count(found, "likeCount", 1) < 1 ==> d["likeCount"] == Num(0)
    ensures d["likeCount"].Num? && d["likeCount"].n >= 0
    ensures found.None? ==> d["likeCount"] == Num(0)
  {
    var c := Count(found, "likeCount", 1) - 1;
    map["isLiked" := Bool(false), "likeCount" := Num(if c > 0 then c else 0)]
  }

  /** The patch `commentNote` applies: `commentCount` becomes `(c || 0) + 1`. */
  function CommentPatch(found: Option<Note>): (d: Note)
    ensures d.Keys == {"commentCount"}
    ensures d["commentCount"] == Num(Count(found, "commentCount", 0) + 1)
  {
    map["commentCount" := Num(Count(found, "commentCount", 0) + 1)]
  }

  /** Concatenation of a later page: `[...old, ...list]`. */
  function Paginated(prev: seq<Note>, page: int, list: seq<Note>): (r: seq<Note>)
    ensures page == 1 ==> r == list
    ensures page != 1 ==> |r| == |prev| + |list| && r[..|prev|] == prev && r[|prev|..] == list
  {
    if page == 1 then list else prev + list
  }

  // ---------------------------------------------------------------------
  // Properties of the patch fan-out

  /** A patch that leaves `id` alone keeps the first match where it was. */
  lemma {:induction false} PatchFirstKeepsIndex(l: seq<Note>, id: Value, d: Note)
    requires "id" !in d
    ensures FindIndex(PatchFirst(l, id, d), id) == FindIndex(l, id)
  {
    var r := PatchFirst(l, id, d);
    var i := FindIndex(l, id);
    var j := FindIndex(r, id);
    if i == -1 {
      assert r == l;
    } else {
      assert Get(Spread(l[i], d), "id") == Get(l[i], "id");
      assert IsFirstMatch(r, id, i);
    }
  }

  /** After a patch that leaves `id` alone, `findNote` returns the patched
      copy of the note it returned before. */
  lemma FindAfterUpdate(h: Holders, id: Value, d: Note)
    requires "id" !in d
    requires Find(h, id).Some?
    ensures Find(Update(h, id, d), id) == Some(Spread(Find(h, id).value, d))
  {
    PatchFirstKeepsIndex(h.recommend, id, d);
    PatchFirstKeepsIndex(h.following, id, d);
    var h' := Update(h, id, d);
    if FindIndex(h.recommend, id) == -1 && FindIndex(h.following, id) == -1 {
      var n := h.current.value;
      assert Get(Spread(n, d), "id") == Get(n, "id");
    }
  }

  /** A patch never changes how many notes each list holds, and touches no
      list that lacks the id. */
  lemma UpdateKeepsShape(h: Holders, id: Value, d: Note)
    ensures |Update(h, id, d).recommend| == |h.recommend|
    ensures |Update(h, id, d).following| == |h.following|
    ensures Absent(h.recommend, id) ==> Update(h, id, d).recommend == h.recommend
    ensures Absent(h.following, id) ==> Update(h, id, d).following == h.following
    ensures h.current.Some? && !Matches(h.current.value, id) ==> Update(h, id, d).current == h.current
  {
  }

  /** The intended round trip: like then unlike, both successful, on a note
      found with a count `c >= 0`, lets `findNote` see `c` again, with
      `isLiked` false (`NoteStore.UnlikeNoteIntended`). */
  lemma LikeThenUnlikeRestoresCount(h: Holders, id: Value)
    requires Find(h, id).Some?
    requires Count(Find(h, id), "likeCount", 0) >= 0
    ensures
      var h1 := Update(h, id, LikePatch(Find(h, id)));
      var h2 := Update(h1, id, UnlikePatch(Find(h1, id)));
      Find(h2, id) == Some(Spread(Find(h, id).value,
        map["isLiked" := Bool(false), "likeCount" := Num(Count(Find(h, id), "likeCount", 0))]))
  {
    var f := Find(h, id);
    var like := LikePatch(f);
    var h1 := Update(h, id, like);
    FindAfterUpdate(h, id, like);
    var f1 := Find(h1, id);
    LikedCount(f.value, like, Count(f, "likeCount", 0));
    var unlike := UnlikePatch(f1);
    FindAfterUpdate(h1, id, unlike);
    SpreadOverridden(f.value, like, unlike);
  }

  /** The liked copy shows `c + 1`, so the unlike patch brings back `c`. */
  lemma LikedCount(n: Note, like: Note, c: int)
    requires c >= 0 && like == LikePatch(Some(n)) && c == Count(Some(n), "likeCount", 0)
    ensures UnlikePatch(Some(Spread(n, like))) == map["isLiked" := Bool(false), "likeCount" := Num(c)]
  {
    assert Get(Spread(n, like), "likeCount") == Num(c + 1);
  }

  /** As written, a successful like raises the found copy's count to `c + 1`
      and marks it liked; `unlikeNote` then changes nothing
      (`NoteStore.UnlikeNote`), so that is what `findNote` keeps showing. */
  lemma LikeThenUnlikeAsWritten(h: Holders, id: Value)
    requires Find(h, id).Some?
    requires Count(Find(h, id), "likeCount", 0) >= 0
    ensures
      var h1 := Update(h, id, LikePatch(Find(h, id)));
      && Find(h1, id).Some?
      && Find(h1, id).value["likeCount"] == Num(Count(Find(h, id), "likeCount", 0) + 1)
      && Find(h1, id).value["isLiked"] == Bool(true)
      && Find(h1, id) == Some(Spread(Find(h, id).value, LikePatch(Find(h, id))))
  {
    var f := Find(h, id);
    FindAfterUpdate(h, id, LikePatch(f));
  }

  /** A second spread over the same keys hides the first. */
  lemma SpreadOverridden(n: Note, a: Note, b: Note)
    requires a.Keys == b.Keys
    ensures Spread(Spread(n, a), b) == Spread(n, b)
  {
  }

  // ---------------------------------------------------------------------
  // The store

  class NoteStore {
    var recommendNotes: seq<Note>
    var followingNotes: seq<Note>
    var currentNote: Option<Note>
    var noteComments: seq<Comment>
    var isLoading: bool
    var totalPages: int
    var currentPage: int
    var pageSize: int
    var tabType: Tab

    /** The store's `state()`. */
    constructor ()
      ensures recommendNotes == [] && followingNotes == [] && currentNote == None && noteComments == []
      ensures !isLoading && totalPages == 1 && currentPage == 1 && pageSize == 10 && tabType == Recommend
    {
      recommendNotes, followingNotes, currentNote, noteComments := [], [], None, [];
      isLoading, totalPages, currentPage, pageSize, tabType := false, 1, 1, 10, Recommend;
    }

    /** The three holders as one value. */
    function Copies(): Holders
      reads this
    {
      Holders(recommendNotes, followingNotes, currentNote)
    }

    /** `this[`${tab}Notes`]`. */
    function Notes(tab: Tab): seq<Note>
      reads this
    {
      if tab == Recommend then recommendNotes else followingNotes
    }

    /** The `displayNotes` getter: the active tab's list. */
    function DisplayNotes(): (r: seq<Note>)
      reads this
      ensures tabType == Recommend ==> r == recommendNotes
      ensures tabType == Following ==> r == followingNotes
    {
      Notes(tabType)
    }

    /** The `hasMoreNotes` getter. */
    function HasMoreNotes(): (b: bool)
      reads this
      ensures b <==> currentPage < totalPages
    {
      currentPage < totalPages
    }

    /** `findNote(id)`. */
    function FindNote(id: Value): Option<Note>
      reads this
    {
      Find(Copies(), id)
    }

    /** The feed request `fetchNotes(page)` sends for a tab: the tab's own
        endpoint, asking for the page with `pageSize` entries. */
    function FeedRequest(tab: Tab, page: int): (r: ApiRequest)
      reads this
      ensures tab == Recommend ==> r.path == NoteApi.RecommendPath
      ensures tab == Following ==> r.path == NoteApi.FollowingPath
      ensures NoteApi.RequestedPage(r) == Some((page, pageSize))
    {
      if tab == Recommend then NoteApi.GetRecommendNotes(page, pageSize)
      else NoteApi.GetFollowingNotes(page, pageSize)
    }

    twostate predicate CursorUnchanged()
      reads this
    {
      tabType == old(tabType) && currentPage == old(currentPage) && totalPages == old(totalPages)
      && pageSize == old(pageSize)
    }

    twostate predicate ListsUnchanged()
      reads this
    {
      recommendNotes == old(recommendNotes) && followingNotes == old(followingNotes)
    }

    /** The synchronous part of `fetchNotes(page)`: raise the loading flag and
        send the active tab's request. */
    method BeginFetchNotes(page: int) returns (req: ApiRequest)
      modifies this
      ensures isLoading
      ensures req == FeedRequest(tabType, page)
      ensures CursorUnchanged() && ListsUnchanged()
      ensures currentNote == old(currentNote) && noteComments == old(noteComments)
    {
      isLoading := true;
      req := FeedRequest(tabType, page);
    }

    /** The continuation of `fetchNotes(page)` once its answer arrives: on code
        0 page 1 replaces the active list, a later page is appended, and the
        cursor moves; on any other outcome lists and cursor stay. The
        loading flag ends lowered either way. */
    method CompleteFetchNotes(page: int, reply: Reply<Envelope<FeedData>>)
      modifies this
      ensures !isLoading
      ensures reply.Resolved? && reply.value.code == 0 ==>
        Notes(tabType) == Paginated(old(Notes(tabType)), page, reply.value.data.list)
        && currentPage == page && totalPages == reply.value.data.totalPages
      ensures reply.Resolved? && reply.value.code == 0 ==>
        (tabType == Recommend ==> followingNotes == old(followingNotes))
        && (tabType == Following ==> recommendNotes == old(recommendNotes))
      ensures !(reply.Resolved? && reply.value.code == 0) ==> CursorUnchanged() && ListsUnchanged()
      ensures tabType == old(tabType) && pageSize == old(pageSize)
      ensures currentNote == old(currentNote) && noteComments == old(noteComments)
    {
      if reply.Resolved? && reply.value.code == 0 {
        var data := reply.value.data;
        if tabType == Recommend {
          recommendNotes := Paginated(recommendNotes, page, data.list);
        } else {
          followingNotes := Paginated(followingNotes, page, data.list);
        }
        currentPage := page;
        totalPages := data.totalPages;
      }
      isLoading := false;
    }

    /** `await fetchNotes(page)`: both halves with the given answer. */
    method FetchNotes(page: int := 1, reply: Reply<Envelope<FeedData>>) returns (req: ApiRequest)
      modifies this
      ensures req == FeedRequest(tabType, page)
      ensures !isLoading
      ensures reply.Resolved? && reply.value.code == 0 ==>
        Notes(tabType) == Paginated(old(Notes(tabType)), page, reply.value.data.list)
        && currentPage == page && totalPages == reply.value.data.totalPages
      ensures reply.Resolved? && reply.value.code == 0 ==>
        (tabType == Recommend ==> followingNotes == old(followingNotes))
        && (tabType == Following ==> recommendNotes == old(recommendNotes))
      ensures !(reply.Resolved? && reply.value.code == 0) ==> CursorUnchanged() && ListsUnchanged()
      ensures tabType == old(tabType) && pageSize == old(pageSize)
      ensures currentNote == old(currentNote) && noteComments == old(noteComments)
    {
      req := BeginFetchNotes(page);
      CompleteFetchNotes(page, reply);
    }

    /** `loadMoreNotes()`: starts a fetch of the next page only when more pages
        exist and no fetch is in flight; otherwise nothing changes. */
    method LoadMoreNotes() returns (req: Option<ApiRequest>)
      modifies this
      ensures req.Some? <==> old(currentPage < totalPages && !isLoading)
      ensures req.Some? ==> req.value == FeedRequest(tabType, old(currentPage) + 1) && isLoading
      ensures req.Some? ==> CursorUnchanged() && ListsUnchanged()
      ensures req.Some? ==> currentNote == old(currentNote) && noteComments == old(noteComments)
      ensures req.None? ==> unchanged(this)
    {
      if HasMoreNotes() && !isLoading {
        var r := BeginFetchNotes(currentPage + 1);
        req := Some(r);
      } else {
        req := None;
      }
    }

    /** `setTabType(tab)`: switch tabs, reset the shared page to 1 and start
        fetching the first page of the new tab. */
    method SetTabType(tab: Tab) returns (req: ApiRequest)
      modifies this
      ensures tabType == tab && currentPage == 1 && isLoading
      ensures req == FeedRequest(tab, 1)
      ensures totalPages == old(totalPages) && pageSize == old(pageSize) && ListsUnchanged()
      ensures currentNote == old(currentNote) && noteComments == old(noteComments)
    {
      tabType := tab;
      currentPage := 1;
      req := BeginFetchNotes(1);
    }

    /** `fetchNoteDetail(id)`: a truthy answer becomes the detail note, with
        `like` copied to `isLiked` and `likeCount` to `likes`; a falsy answer
        changes nothing and a failed request empties the slot. */
    method FetchNoteDetail(id: Value, reply: Reply<Value>)
      modifies this
      ensures reply.Resolved? && Truthy(reply.value) ==>
        currentNote == Some(OwnProps(reply.value)["isLiked" := Prop(reply.value, "like")]
                                                 ["likes" := Prop(reply.value, "likeCount")])
      ensures reply.Resolved? && !Truthy(reply.value) ==> currentNote == old(currentNote)
      ensures reply.Rejected? ==> currentNote == None
      ensures !isLoading && CursorUnchanged() && ListsUnchanged() && noteComments == old(noteComments)
    {
      isLoading := true;
      match reply {
        case Resolved(res) =>
          if Truthy(res) {
            currentNote := Some(OwnProps(res)["isLiked" := Prop(res, "like")]["likes" := Prop(res, "likeCount")]);
          }
        case Rejected(_) =>
          currentNote := None;
      }
      isLoading := false;
    }

    /** `fetchNoteComments(id, page)`: on code 0, page 1 replaces the comments
        and a later page is appended; anything else keeps them. */
    method FetchNoteComments(id: Value, page: int := 1, reply: Reply<Envelope<CommentData>>)
      modifies this
      ensures reply.Resolved? && reply.value.code == 0 ==>
        noteComments == Paginated(old(noteComments), page, reply.value.data.list)
      ensures !(reply.Resolved? && reply.value.code == 0) ==> noteComments == old(noteComments)
      ensures !isLoading && CursorUnchanged() && ListsUnchanged() && currentNote == old(currentNote)
    {
      isLoading := true;
      if reply.Resolved? && reply.value.code == 0 {
        noteComments := Paginated(noteComments, page, reply.value.data.list);
      }
      isLoading := false;
    }

    /** `publishNote(data)`: the created note on code 0, `null` otherwise. */
    method PublishNote(reply: Reply<Envelope<Value>>) returns (r: Option<Value>)
      modifies this
      ensures r.Some? <==> reply.Resolved? && reply.value.code == 0
      ensures r.Some? ==> r.value == reply.value.data
      ensures !isLoading && CursorUnchanged() && ListsUnchanged()
      ensures currentNote == old(currentNote) && noteComments == old(noteComments)
    {
      isLoading := true;
      if reply.Resolved? && reply.value.code == 0 {
        r := Some(reply.value.data);
      } else {
        r := None;
      }
      isLoading := false;
    }

    /** `updateNoteInList(id, d)`: `d` is spread over the first match in each
        list and over the detail note when its id matches; nothing else. */
    method UpdateNoteInList(id: Value, d: Note)
      modifies this
      ensures Copies() == Update(old(Copies()), id, d)
      ensures CursorUnchanged() && isLoading == old(isLoading) && noteComments == old(noteComments)
    {
      var ri := FindIndex(recommendNotes, id);
      if ri != -1 {
        recommendNotes := recommendNotes[ri := Spread(recommendNotes[ri], d)];
      }
      var fi := FindIndex(followingNotes, id);
      if fi != -1 {
        followingNotes := followingNotes[fi := Spread(followingNotes[fi], d)];
      }
      if StrictEquals(CurrentId(currentNote), id) {
        currentNote := Some(Spread(CurrentProps(currentNote), d));
      }
    }

    /** `likeNote(id)`: once the server accepts, every copy is marked liked
        with the found copy's count plus one; a failure changes nothing. */
    method LikeNote(id: Value, reply: Reply<Value>)
      modifies this
      ensures reply.Resolved? ==> Copies() == Update(old(Copies()), id, LikePatch(old(FindNote(id))))
      ensures reply.Rejected? ==> unchanged(this)
      ensures CursorUnchanged() && isLoading == old(isLoading) && noteComments == old(noteComments)
    {
      if reply.Resolved? {
        var found := FindNote(id);
        UpdateNoteInList(id, LikePatch(found));
      }
    }

    /** `unlikeNote(id)` as written: it awaits `noteApi.unlikeNote(id)`, which
        the API object does not define, so the call throws a `TypeError`
        before any request is sent; the `catch` block only shows a toast, and
        no copy of the note changes. */
    method UnlikeNote(id: Value)
      modifies this
      ensures unchanged(this)
    {
      NoteApi.UnlikeIsNotCallable();
    }

    /** `unlikeNote(id)` as evidently intended: once the server accepts, every
        copy is marked not liked with the found copy's count less one, never
        below 0. */
    method UnlikeNoteIntended(id: Value, reply: Reply<Value>)
      modifies this
      ensures reply.Resolved? ==> Copies() == Update(old(Copies()), id, UnlikePatch(old(FindNote(id))))
      ensures reply.Rejected? ==> unchanged(this)
      ensures CursorUnchanged() && isLoading == old(isLoading) && noteComments == old(noteComments)
    {
      if reply.Resolved? {
        var found := FindNote(id);
        UpdateNoteInList(id, UnlikePatch(found));
      }
    }

    /** `commentNote(id, content)`: on code 0 the new comment goes first, every
        copy's `commentCount` becomes the found copy's plus one, and the
        result is true; otherwise false with the comments untouched. */
    method CommentNote(id: Value, reply: Reply<Envelope<Comment>>) returns (ok: bool)
      modifies this
      ensures ok <==> reply.Resolved? && reply.value.code == 0
      ensures ok ==> noteComments == [reply.value.data] + old(noteComments)
      ensures ok ==> Copies() == Update(old(Copies()), id, CommentPatch(old(FindNote(id))))
      ensures !ok ==> unchanged(this)
      ensures CursorUnchanged() && isLoading == old(isLoading)
    {
      if reply.Resolved? && reply.value.code == 0 {
        noteComments := [reply.value.data] + noteComments;
        var found := FindNote(id);
        UpdateNoteInList(id, CommentPatch(found));
        ok := true;
      } else {
        ok := false;
      }
    }
  }

  /** As written, a successful like followed by an unlike leaves the note
      liked, with the count raised by one. */
  method LikeThenUnlikeScenario(s: NoteStore, id: Value, likeReply: Value)
    requires s.FindNote(id).Some? && Count(s.FindNote(id), "likeCount", 0) >= 0
    modifies s
    ensures s.FindNote(id).Some?
    ensures Get(s.FindNote(id).value, "isLiked") == Bool(true)
    ensures Get(s.FindNote(id).value, "likeCount") == Num(Count(old(s.FindNote(id)), "likeCount", 0) + 1)
  {
    LikeThenUnlikeAsWritten(s.Copies(), id);
    s.LikeNote(id, Resolved(likeReply));
    s.UnlikeNote(id);
  }

  /** Recommend page 1 (ten notes, three pages), then `loadMoreNotes` and its
      answer: twenty notes, on page 2. */
  method PaginationScenario(page1: seq<Note>, page2: seq<Note>) returns (s: NoteStore)
    requires |page1| == 10 && |page2| == 10
    ensures s.recommendNotes == page1 + page2 && s.currentPage == 2 && s.totalPages == 3
    ensures s.DisplayNotes() == page1 + page2 && !s.isLoading
  {
    s := new NoteStore();
    var first := s.FetchNotes(1, Resolved(Envelope(0, FeedData(page1, 3))));
    assert |s.DisplayNotes()| == 10 && s.currentPage == 1;
    var next := s.LoadMoreNotes();
    assert next == Some(NoteApi.GetRecommendNotes(2, 10));
    var again := s.LoadMoreNotes();
    assert again.None?;
    s.CompleteFetchNotes(2, Resolved(Envelope(0, FeedData(page2, 3))));
  }
}

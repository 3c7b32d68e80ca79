/** The root view of the gallery: three artwork lists (all, favorites,
    rated), one pagination record shared by them, two loading flags, and a
    map from artwork id to the user's four sub-scores.

    Each list fetch is modelled in two steps, as the source runs it around
    its `await`: the handler checks its guards, sets the loading flags and
    returns the request it issues; the completion then receives the decoded
    response and updates the list, the pagination and the flags. The other
    network calls (favorite toggling, rating load and save) are modelled as
    one step that takes the response as an input. */
module Gallery {
  import opened Common

  // ---------------------------------------------------------------------
  // Ratings
  // ---------------------------------------------------------------------

  /** The four sub-scores of one rating, each possibly absent. */
  datatype Scores = Scores(overall: Option<real>, technique: Option<real>, originality: Option<real>, emotion: Option<real>)

  /** The entry an edit starts from when the artwork has none: `{...undefined}`. */
  const NoScores := Scores(None, None, None, None)

  datatype Criterion = Overall | Technique | Originality | Emotion

  function ScoreOf(s: Scores, c: Criterion): Option<real> {
    match c
    case Overall => s.overall
    case Technique => s.technique
    case Originality => s.originality
    case Emotion => s.emotion
  }

  /** `{...s, [field]: v}`: one sub-score replaced, the others kept. */
  function WithScore(s: Scores, c: Criterion, v: real): (r: Scores)
    ensures ScoreOf(r, c) == Some(v)
    ensures forall d :: d != c ==> ScoreOf(r, d) == ScoreOf(s, d)
  {
    match c
    case Overall => s.(overall := Some(v))
    case Technique => s.(technique := Some(v))
    case Originality => s.(originality := Some(v))
    case Emotion => s.(emotion := Some(v))
  }

  /** `x || 0` on a sub-score. */
  function OrZero(v: Option<real>): real {
    v.GetOr(0.0)
  }

  /** A loaded rating with every missing sub-score stored as 0. */
  function Filled(s: Scores): (r: Scores)
    ensures forall c :: ScoreOf(r, c) == Some(OrZero(ScoreOf(s, c)))
  {
    Scores(Some(OrZero(s.overall)), Some(OrZero(s.technique)),
           Some(OrZero(s.originality)), Some(OrZero(s.emotion)))
  }

  // ---------------------------------------------------------------------
  // Artworks, pagination, requests and responses
  // ---------------------------------------------------------------------

  /** An artwork as the server sends it; the rated-artworks endpoint fills
      `scores`, the others leave them absent. */
  datatype Artwork = Artwork(id: int, title: string, scores: Scores)

  /** The pagination record; `limit` is absent from the fallback record. */
  datatype Pagination = Pagination(page: int, limit: Option<int>, total: int, pages: int, hasNext: bool, hasPrev: bool)

  const InitialPagination := Pagination(1, Some(20), 0, 0, false, false)

  /** What a list fetch installs when the response has no pagination. */
  const FallbackPagination := Pagination(1, None, 0, 0, false, false)

  /** A list response once decoded: `ListThrew` when the request or
      `res.json()` threw, otherwise the two optional fields. */
  datatype ListReply = ListThrew | ListBody(artworks: Option<seq<Artwork>>, pagination: Option<Pagination>)

  /** The outcome of a request whose body is not used. */
  datatype Status = Threw | Answered(ok: bool)

  /** The outcome of loading one rating. */
  datatype RatingReply = RatingThrew | RatingAnswered(ok: bool, data: Scores)

  datatype ListKind = AllArtworks | FavoriteArtworks | RatedArtworks
  datatype SearchMode = MetMode | LocalMode
  datatype MetFilter = AnyField | TitleField | ArtistField

  /** The list endpoints; the query is sent as typed, untrimmed. */
  datatype Endpoint =
    | ArtworksEndpoint
    | FavoritesEndpoint
    | RatedEndpoint
    | LocalSearchEndpoint(query: string)
    | MetSearchEndpoint(query: string, filter: MetFilter)

  /** The list a response from `e` is written to. */
  function Target(e: Endpoint): ListKind {
    match e
    case FavoritesEndpoint => FavoriteArtworks
    case RatedEndpoint => RatedArtworks
    case _ => AllArtworks
  }

  /** The requests the view issues; a page request carries the `limit`
      of the pagination record current when it is made. */
  datatype Request =
    | PageRequest(endpoint: Endpoint, page: int, limit: Option<int>)
    | AddFavorite(id: int)
    | RemoveFavorite(id: int)
    | PostRating(id: int, overall: real, technique: real, originality: real, emotion: real)
    | GetRating(id: int)

  /** `data.artworks || []`. */
  function Received(reply: ListReply): seq<Artwork>
    requires reply.ListBody?
  {
    reply.artworks.GetOr([])
  }

  /** `data.pagination || fallback`. */
  function PaginationAfter(reply: ListReply): Pagination
    requires reply.ListBody?
  {
    reply.pagination.GetOr(FallbackPagination)
  }

  /** The list after a page arrives: page 1 replaces it, any other page is
      appended after the items already there, in the order received. */
  function Merge(current: seq<Artwork>, page: int, received: seq<Artwork>): (r: seq<Artwork>)
    ensures page == 1 ==> r == received
    ensures page != 1 ==> |r| == |current| + |received|
    ensures page != 1 ==> r[..|current|] == current && r[|current|..] == received
  {
    if page == 1 then received else current + received
  }

  /** The concatenation of a sequence of pages. */
  function Concat(pages: seq<seq<Artwork>>): seq<Artwork> {
    if pages == [] then [] else pages[0] + Concat(pages[1..])
  }

  /** The list after the pages `first`, `first + 1`, ... arrive in order. */
  function LoadPages(current: seq<Artwork>, first: int, pages: seq<seq<Artwork>>): seq<Artwork>
    decreases |pages|
  {
    if pages == [] then current else LoadPages(Merge(current, first, pages[0]), first + 1, pages[1..])
  }

  /** Pages after the first are appended to what is there. */
  lemma {:induction false} LaterPagesAppend(current: seq<Artwork>, first: int, pages: seq<seq<Artwork>>)
    requires first >= 2
    ensures LoadPages(current, first, pages) == current + Concat(pages)
    decreases |pages|
  {
    if pages != [] {
      LaterPagesAppend(current + pages[0], first + 1, pages[1..]);
      assert current + pages[0] + Concat(pages[1..]) == current + (pages[0] + Concat(pages[1..]));
    }
  }

  /** Loading page 1 and then each next page in order yields exactly the
      pages' items in order, whatever the list held before. */
  lemma {:induction false} LoadingFromFirstPage(current: seq<Artwork>, pages: seq<seq<Artwork>>)
    requires pages != []
    ensures LoadPages(current, 1, pages) == Concat(pages)
  {
    LaterPagesAppend(pages[0], 2, pages[1..]);
  }

  // ---------------------------------------------------------------------
  // Favorites
  // ---------------------------------------------------------------------

  /** `list.some(f => f.id === id)`. */
  predicate HasId(list: seq<Artwork>, id: int) {
    exists i :: 0 <= i < |list| && list[i].id == id
  }

  /** An id occurs in `list + [a]` when it occurs in `list` or is `a`'s. */
  lemma HasIdAppend(list: seq<Artwork>, a: Artwork)
    ensures forall x :: HasId(list + [a], x) <==> HasId(list, x) || a.id == x
  {
    forall x | HasId(list + [a], x)
      ensures HasId(list, x) || a.id == x
    {
      var i :| 0 <= i < |list + [a]| && (list + [a])[i].id == x;
      if i < |list| {
        assert list[i].id == x;
      }
    }
    forall x | HasId(list, x)
      ensures HasId(list + [a], x)
    {
      var i :| 0 <= i < |list| && list[i].id == x;
      assert (list + [a])[i].id == x;
    }
    assert (list + [a])[|list|].id == a.id;
  }

  /** `list.filter(a => a.id !== id)`. */
  function RemoveId(list: seq<Artwork>, id: int): (r: seq<Artwork>)
    ensures forall x :: HasId(r, x) <==> HasId(list, x) && x != id
    ensures forall a :: a in r ==> a in list && a.id != id
    ensures !HasId(list, id) ==> r == list
  {
    if list == [] then []
    else
      var init, last := list[..|list| - 1], list[|list| - 1];
      assert list == init + [last];
      var kept := RemoveId(init, id);
      HasIdAppend(init, last);
      HasIdAppend(kept, last);
      if last.id == id then kept else kept + [last]
  }

  /** `filter` drops only the artworks with that id and keeps every other
      artwork as many times as it occurs. */
  lemma {:induction false} RemoveIdCounts(list: seq<Artwork>, id: int)
    ensures forall a: Artwork :: a.id != id ==> multiset(RemoveId(list, id))[a] == multiset(list)[a]
    ensures forall a: Artwork :: a.id == id ==> multiset(RemoveId(list, id))[a] == 0
    decreases |list|
  {
    if list != [] {
      var init, last := list[..|list| - 1], list[|list| - 1];
      assert list == init + [last];
      assert multiset(list) == multiset(init) + multiset{last};
      RemoveIdSnoc(init, last, id);
      RemoveIdCounts(init, id);
    }
  }

  /** Removing from a list with one more artwork at its end. */
  lemma RemoveIdSnoc(list: seq<Artwork>, x: Artwork, id: int)
    ensures RemoveId(list + [x], id) == RemoveId(list, id) + (if x.id == id then [] else [x])
  {
    var l := list + [x];
    assert l[..|l| - 1] == list && l[|l| - 1] == x;
  }

  /** `filter` keeps the order: removing from a concatenation removes from
      each part. */
  lemma {:induction false} RemoveIdConcat(a: seq<Artwork>, b: seq<Artwork>, id: int)
    ensures RemoveId(a + b, id) == RemoveId(a, id) + RemoveId(b, id)
    decreases |b|
  {
    if b == [] {
      assert a + b == a;
    } else {
      var init, last := b[..|b| - 1], b[|b| - 1];
      var tail := if last.id == id then [] else [last];
      calc {
        RemoveId(a + b, id);
        { assert a + b == (a + init) + [last]; }
        RemoveId((a + init) + [last], id);
        { RemoveIdSnoc(a + init, last, id); }
        RemoveId(a + init, id) + tail;
        { RemoveIdConcat(a, init, id); }
        RemoveId(a, id) + (RemoveId(init, id) + tail);
        { assert b == init + [last]; RemoveIdSnoc(init, last, id); }
        RemoveId(a, id) + RemoveId(b, id);
      }
    }
  }

  /** Removing from a one-element list drops it exactly when it has the id. */
  lemma RemoveIdSingle(x: Artwork, id: int)
    ensures RemoveId([x], id) == if x.id == id then [] else [x]
  {
    assert [x][..0] == [];
  }

  /** The favorites list after a successful toggle of `a`. */
  function Toggled(favorites: seq<Artwork>, a: Artwork): (r: seq<Artwork>)
    ensures HasId(favorites, a.id) ==> r == RemoveId(favorites, a.id)
    ensures !HasId(favorites, a.id) ==> r == favorites + [a]
    ensures HasId(r, a.id) <==> !HasId(favorites, a.id)
    ensures forall x :: x != a.id ==> (HasId(r, x) <==> HasId(favorites, x))
  {
    if HasId(favorites, a.id) then RemoveId(favorites, a.id)
    else
      HasIdAppend(favorites, a);
      favorites + [a]
  }

  /** Two successful toggles of the same artwork restore which ids are
      favorites; starting from a non-favorite they restore the list itself. */
  lemma {:induction false} ToggleTwice(favorites: seq<Artwork>, a: Artwork)
    ensures forall x :: HasId(Toggled(Toggled(favorites, a), a), x) <==> HasId(favorites, x)
    ensures !HasId(favorites, a.id) ==> Toggled(Toggled(favorites, a), a) == favorites
  {
    if !HasId(favorites, a.id) {
      var once := favorites + [a];
      assert once[|favorites|].id == a.id;
      assert once[..|once| - 1] == favorites;
      assert Toggled(favorites, a) == once;
      assert RemoveId(once, a.id) == RemoveId(favorites, a.id);
    }
  }

  // ---------------------------------------------------------------------
  // Ratings loaded with the rated list
  // ---------------------------------------------------------------------

  /** The map the rated fetch builds: one entry per id, a later artwork with
      the same id overwriting an earlier one. */
  function RatingsOf(arts: seq<Artwork>): (m: map<int, Scores>)
    ensures m.Keys == set a | a in arts :: a.id
  {
    if arts == [] then map[]
    else
      var init, last := arts[..|arts| - 1], arts[|arts| - 1];
      assert arts == init + [last];
      RatingsOf(init)[last.id := last.scores]
  }

  /** Each id is mapped to the scores of its last occurrence. */
  lemma {:induction false} LastOccurrenceWins(arts: seq<Artwork>, j: nat)
    requires j < |arts|
    requires forall k :: j < k < |arts| ==> arts[k].id != arts[j].id
    ensures arts[j].id in RatingsOf(arts) && RatingsOf(arts)[arts[j].id] == arts[j].scores
    decreases |arts|
  {
    var init := arts[..|arts| - 1];
    if j < |arts| - 1 {
      LastOccurrenceWins(init, j);
    }
  }

  /** The `forEach` loop of the rated fetch. */
  method CollectRatings(arts: seq<Artwork>) returns (m: map<int, Scores>)
    ensures m == RatingsOf(arts)
  {
    m := map[];
    var i := 0;
    while i < |arts|
      invariant 0 <= i <= |arts|
      invariant m == RatingsOf(arts[..i])
    {
      assert arts[..i + 1][..i] == arts[..i];
      m := m[arts[i].id := arts[i].scores];
      i := i + 1;
    }
    assert arts[..|arts|] == arts;
  }

  // ---------------------------------------------------------------------
  // Placeholder texts
  // ---------------------------------------------------------------------

  const LocalPlaceholder := "Rechercher dans ma collection (titre, artiste, ID...)"
  const TitlePlaceholder := "Rechercher dans le titre (ex: Sunflowers, Water Lilies...)"
  const ArtistPlaceholder := "Rechercher par artiste (ex: Monet, Van Gogh, Rembrandt...)"
  const MetPlaceholder := "Rechercher dans tout le MET (titre, artiste, description...)"

  // ---------------------------------------------------------------------
  // The view's state
  // ---------------------------------------------------------------------

  class AppContent {
    var query: string
    var artworks: seq<Artwork>
    var favorites: seq<Artwork>
    var ratedArtworks: seq<Artwork>
    var ratings: map<int, Scores>
    var pagination: Pagination
    var loading: bool
    var loadingMore: bool
    var searchMode: SearchMode
    var metFilter: MetFilter
    var showFavorites: bool
    var showRated: bool
    var showAuth: bool
    var selectedArtwork: Option<Artwork>
    var showRatingPanel: bool

    constructor ()
      ensures query == "" && artworks == [] && favorites == [] && ratedArtworks == [] && ratings == map[]
      ensures pagination == InitialPagination && !loading && !loadingMore
      ensures searchMode == MetMode && metFilter == AnyField
      ensures !showFavorites && !showRated && !showAuth
      ensures selectedArtwork.None? && !showRatingPanel
    {
      query, artworks, favorites, ratedArtworks, ratings := "", [], [], [], map[];
      pagination, loading, loadingMore := InitialPagination, false, false;
      searchMode, metFilter := MetMode, AnyField;
      showFavorites, showRated, showAuth := false, false, false;
      selectedArtwork, showRatingPanel := None, false;
    }

    /** Which list is on screen: favorites, else rated, else all. */
    function DisplayedKind(): ListKind
      reads this
    {
      if showFavorites then FavoriteArtworks
      else if showRated then RatedArtworks
      else AllArtworks
    }

    /** `getDisplayedArtworks`. */
    function GetDisplayedArtworks(): (r: seq<Artwork>)
      reads this
      ensures DisplayedKind() == FavoriteArtworks ==> r == favorites
      ensures DisplayedKind() == RatedArtworks ==> r == ratedArtworks
      ensures DisplayedKind() == AllArtworks ==> r == artworks
    {
      match DisplayedKind()
      case FavoriteArtworks => favorites
      case RatedArtworks => ratedArtworks
      case AllArtworks => artworks
    }

    /** `getPlaceholder`: the local text in local mode whatever the filter,
        otherwise one text per MET filter. */
    function GetPlaceholder(): (p: string)
      reads this
      ensures p == LocalPlaceholder <==> searchMode == LocalMode
      ensures searchMode == MetMode ==> (p == TitlePlaceholder <==> metFilter == TitleField)
      ensures searchMode == MetMode ==> (p == ArtistPlaceholder <==> metFilter == ArtistField)
      ensures searchMode == MetMode ==> (p == MetPlaceholder <==> metFilter == AnyField)
    {
      if searchMode == LocalMode then LocalPlaceholder
      else match metFilter
        case TitleField => TitlePlaceholder
        case ArtistField => ArtistPlaceholder
        case AnyField => MetPlaceholder
    }

    /** The request `handleSearch(page)` issues, if any. */
    function SearchRequest(page: int): (r: Option<Request>)
      reads this
      ensures r.Some? ==> r.value.PageRequest? && Target(r.value.endpoint) == AllArtworks
      ensures r.Some? ==> r.value.limit == pagination.limit
      ensures (showFavorites || showRated) ==> r.None?
      ensures searchMode == MetMode && IsBlank(query) ==> r.None?
      ensures !showFavorites && !showRated && !IsBlank(query) ==> r.Some? && r.value.page == page
      ensures !showFavorites && !showRated && searchMode == LocalMode ==> r.Some?
      ensures r.Some? && r.value.endpoint == ArtworksEndpoint ==> r.value.page == 1 && IsBlank(query)
      ensures !showFavorites && !showRated && searchMode == MetMode && !IsBlank(query) ==>
                r == Some(PageRequest(MetSearchEndpoint(query, metFilter), page, pagination.limit))
      ensures !showFavorites && !showRated && searchMode == LocalMode && IsBlank(query) && page == 1 ==>
                r == Some(PageRequest(ArtworksEndpoint, 1, pagination.limit))
      ensures !showFavorites && !showRated && searchMode == LocalMode && !(IsBlank(query) && page == 1) ==>
                r == Some(PageRequest(LocalSearchEndpoint(query), page, pagination.limit))
    {
      if showFavorites || showRated then None
      else if searchMode == MetMode then
        if IsBlank(query) then None
        else Some(PageRequest(MetSearchEndpoint(query, metFilter), page, pagination.limit))
      else if IsBlank(query) && page == 1 then Some(PageRequest(ArtworksEndpoint, 1, pagination.limit))
      else Some(PageRequest(LocalSearchEndpoint(query), page, pagination.limit))
    }

    /** The request `loadMore` issues, if any: none without a next page or
        while more is loading; otherwise the next favorites or rated page,
        or the search request for the next page, which may be none. */
    function MoreRequest(): (r: Option<Request>)
      reads this
      ensures !pagination.hasNext || loadingMore ==> r.None?
      ensures r.Some? ==> r.value.PageRequest? && r.value.page == pagination.page + 1
      ensures r.Some? ==> Target(r.value.endpoint) == DisplayedKind()
      ensures pagination.hasNext && !loadingMore && DisplayedKind() != AllArtworks ==> r.Some?
      ensures pagination.hasNext && !loadingMore && showFavorites ==>
                r == Some(PageRequest(FavoritesEndpoint, pagination.page + 1, pagination.limit))
      ensures pagination.hasNext && !loadingMore && !showFavorites && showRated ==>
                r == Some(PageRequest(RatedEndpoint, pagination.page + 1, pagination.limit))
      ensures pagination.hasNext && !loadingMore && !showFavorites && !showRated ==>
                r == SearchRequest(pagination.page + 1)
    {
      if !pagination.hasNext || loadingMore then None
      else
        var next := pagination.page + 1;
        if showFavorites then Some(PageRequest(FavoritesEndpoint, next, pagination.limit))
        else if showRated then Some(PageRequest(RatedEndpoint, next, pagination.limit))
        else SearchRequest(next)
    }

    /** In the all-artworks view, MET mode with a blank query (the state at
        startup and after "all") makes "load more" send nothing, even when
        the server reports a next page: the MET search returns early. */
    lemma BlankMetQueryStallsLoadMore()
      requires !showFavorites && !showRated && searchMode == MetMode && IsBlank(query)
      ensures MoreRequest().None?
    {
    }

    /** In local mode with a blank query, "load more" asks the local search
        for the next page, not the all-artworks list page 1 came from. */
    lemma BlankLocalQueryLoadsMoreFromSearch()
      requires !showFavorites && !showRated && searchMode == LocalMode && IsBlank(query)
      requires pagination.hasNext && !loadingMore && pagination.page >= 1
      ensures MoreRequest() == Some(PageRequest(LocalSearchEndpoint(query), pagination.page + 1, pagination.limit))
    {
    }

    /** Sets the flags a list fetch sets before it awaits. */
    method StartLoading(page: int)
      modifies this`loading, this`loadingMore
      ensures loading == (page == 1) && loadingMore == (page > 1)
    {
      loading := page == 1;
      loadingMore := page > 1;
    }

    /** `fetchArtworks(page)`, up to its `await`. */
    method FetchArtworks(page: int) returns (req: Request)
      modifies this`loading, this`loadingMore
      ensures req == PageRequest(ArtworksEndpoint, page, pagination.limit)
      ensures loading == (page == 1) && loadingMore == (page > 1)
    {
      StartLoading(page);
      req := PageRequest(ArtworksEndpoint, page, pagination.limit);
    }

    /** `fetchFavorites(page)`, up to its `await`. */
    method FetchFavorites(page: int) returns (req: Request)
      modifies this`loading, this`loadingMore
      ensures req == PageRequest(FavoritesEndpoint, page, pagination.limit)
      ensures loading == (page == 1) && loadingMore == (page > 1)
    {
      StartLoading(page);
      req := PageRequest(FavoritesEndpoint, page, pagination.limit);
    }

    /** `fetchRatedArtworks(page)`, up to its `await`. */
    method FetchRatedArtworks(page: int) returns (req: Request)
      modifies this`loading, this`loadingMore
      ensures req == PageRequest(RatedEndpoint, page, pagination.limit)
      ensures loading == (page == 1) && loadingMore == (page > 1)
    {
      StartLoading(page);
      req := PageRequest(RatedEndpoint, page, pagination.limit);
    }

    /** `handleLocalSearch(page)`, up to its `await`: a blank query on page 1
        falls back to `fetchArtworks(1)`. */
    method HandleLocalSearch(page: int) returns (req: Request)
      modifies this`loading, this`loadingMore
      ensures IsBlank(query) && page == 1 ==> req == PageRequest(ArtworksEndpoint, 1, pagination.limit)
      ensures !(IsBlank(query) && page == 1) ==> req == PageRequest(LocalSearchEndpoint(query), page, pagination.limit)
      ensures loading == (page == 1) && loadingMore == (page > 1)
    {
      TrimEmptyIffBlank(query);
      if Trim(query) == [] && page == 1 {
        req := FetchArtworks(1);
        return;
      }
      StartLoading(page);
      req := PageRequest(LocalSearchEndpoint(query), page, pagination.limit);
    }

    /** `handleMetSearch(page)`, up to its `await`: a blank query does nothing. */
    method HandleMetSearch(page: int) returns (req: Option<Request>)
      modifies this`loading, this`loadingMore
      ensures IsBlank(query) ==> req.None? && loading == old(loading) && loadingMore == old(loadingMore)
      ensures !IsBlank(query) ==> req == Some(PageRequest(MetSearchEndpoint(query, metFilter), page, pagination.limit))
      ensures !IsBlank(query) ==> loading == (page == 1) && loadingMore == (page > 1)
    {
      TrimEmptyIffBlank(query);
      if Trim(query) == [] {
        return None;
      }
      StartLoading(page);
      req := Some(PageRequest(MetSearchEndpoint(query, metFilter), page, pagination.limit));
    }

    /** `handleSearch(page)`: nothing in the favorites or rated view,
        otherwise the search of the current mode. */
    method HandleSearch(page: int) returns (req: Option<Request>)
      modifies this`loading, this`loadingMore
      ensures req == old(SearchRequest(page))
      ensures req.Some? ==> loading == (req.value.page == 1) && loadingMore == (req.value.page > 1)
      ensures req.None? ==> loading == old(loading) && loadingMore == old(loadingMore)
    {
      if showFavorites || showRated {
        return None;
      }
      if searchMode == MetMode {
        req := HandleMetSearch(page);
      } else {
        var r := HandleLocalSearch(page);
        req := Some(r);
      }
    }

    /** `loadMore`. */
    method LoadMore() returns (req: Option<Request>)
      modifies this`loading, this`loadingMore
      ensures req == old(MoreRequest())
      ensures req.Some? ==> loading == (req.value.page == 1) && loadingMore == (req.value.page > 1)
      ensures req.None? ==> loading == old(loading) && loadingMore == old(loadingMore)
    {
      if !pagination.hasNext || loadingMore {
        return None;
      }
      var nextPage := pagination.page + 1;
      if showFavorites {
        var r := FetchFavorites(nextPage);
        req := Some(r);
      } else if showRated {
        var r := FetchRatedArtworks(nextPage);
        req := Some(r);
      } else {
        req := HandleSearch(nextPage);
      }
    }

    /** The completion shared by `fetchArtworks`, `handleLocalSearch` and
        `handleMetSearch`: a thrown error leaves the list and the
        pagination as they were. */
    method CompleteArtworks(page: int, reply: ListReply)
      modifies this`artworks, this`pagination, this`loading, this`loadingMore
      ensures reply.ListBody? ==> artworks == Merge(old(artworks), page, Received(reply))
      ensures reply.ListBody? ==> pagination == PaginationAfter(reply)
      ensures reply.ListThrew? ==> artworks == old(artworks) && pagination == old(pagination)
      ensures !loading && !loadingMore
    {
      if reply.ListBody? {
        artworks := Merge(artworks, page, Received(reply));
        pagination := PaginationAfter(reply);
      }
      loading, loadingMore := false, false;
    }

    /** The completion of `fetchFavorites`: a thrown error empties the list. */
    method CompleteFavorites(page: int, reply: ListReply)
      modifies this`favorites, this`pagination, this`loading, this`loadingMore
      ensures reply.ListBody? ==> favorites == Merge(old(favorites), page, Received(reply))
      ensures reply.ListBody? ==> pagination == PaginationAfter(reply)
      ensures reply.ListThrew? ==> favorites == [] && pagination == old(pagination)
      ensures !loading && !loadingMore
    {
      if reply.ListBody? {
        favorites := Merge(favorites, page, Received(reply));
        pagination := PaginationAfter(reply);
      } else {
        favorites := [];
      }
      loading, loadingMore := false, false;
    }

    /** The completion of `fetchRatedArtworks`: the received artworks' scores
        are merged into the ratings, overriding only their own ids; a thrown
        error empties the list and leaves the ratings alone. */
    method CompleteRated(page: int, reply: ListReply)
      modifies this`ratedArtworks, this`ratings, this`pagination, this`loading, this`loadingMore
      ensures reply.ListBody? ==> ratedArtworks == Merge(old(ratedArtworks), page, Received(reply))
      ensures reply.ListBody? ==> pagination == PaginationAfter(reply)
      ensures reply.ListBody? ==> ratings == old(ratings) + RatingsOf(Received(reply))
      ensures reply.ListBody? ==> forall id :: id in old(ratings) && !HasId(Received(reply), id) ==>
                                    id in ratings && ratings[id] == old(ratings)[id]
      ensures reply.ListThrew? ==> ratedArtworks == [] && pagination == old(pagination) && ratings == old(ratings)
      ensures !loading && !loadingMore
    {
      if reply.ListBody? {
        var received := Received(reply);
        ratedArtworks := Merge(ratedArtworks, page, received);
        pagination := PaginationAfter(reply);
        var loaded := CollectRatings(received);
        ratings := ratings + loaded;
      } else {
        ratedArtworks := [];
      }
      loading, loadingMore := false, false;
    }

    /** The navigation bar's "favorites" action. */
    method ShowFavorites() returns (req: Request)
      modifies this`showFavorites, this`showRated, this`loading, this`loadingMore
      ensures showFavorites && !showRated && DisplayedKind() == FavoriteArtworks
      ensures req == PageRequest(FavoritesEndpoint, 1, pagination.limit)
      ensures loading && !loadingMore
    {
      showFavorites := true;
      showRated := false;
      req := FetchFavorites(1);
    }

    /** The navigation bar's "all" action; the query is cleared. */
    method ShowAll() returns (req: Request)
      modifies this`showFavorites, this`showRated, this`loading, this`loadingMore, this`query
      ensures !showFavorites && !showRated && DisplayedKind() == AllArtworks
      ensures req == PageRequest(ArtworksEndpoint, 1, pagination.limit)
      ensures loading && !loadingMore && query == ""
    {
      showFavorites := false;
      showRated := false;
      req := FetchArtworks(1);
      query := "";
    }

    /** The navigation bar's "rated" action. */
    method ShowRated() returns (req: Request)
      modifies this`showFavorites, this`showRated, this`loading, this`loadingMore
      ensures showRated && !showFavorites && DisplayedKind() == RatedArtworks
      ensures req == PageRequest(RatedEndpoint, 1, pagination.limit)
      ensures loading && !loadingMore
    {
      showRated := true;
      showFavorites := false;
      req := FetchRatedArtworks(1);
    }

    /** `toggleFavorite`, with the outcome of the DELETE or POST as `status`:
        only an ok response changes the list. */
    method ToggleFavorite(artwork: Artwork, authenticated: bool, status: Status) returns (req: Option<Request>)
      modifies this`showAuth, this`favorites
      ensures !authenticated ==> req.None? && showAuth && favorites == old(favorites)
      ensures authenticated ==> showAuth == old(showAuth)
      ensures authenticated && HasId(old(favorites), artwork.id) ==> req == Some(RemoveFavorite(artwork.id))
      ensures authenticated && !HasId(old(favorites), artwork.id) ==> req == Some(AddFavorite(artwork.id))
      ensures favorites == if authenticated && status == Answered(true) then Toggled(old(favorites), artwork)
                           else old(favorites)
    {
      if !authenticated {
        showAuth := true;
        return None;
      }
      if HasId(favorites, artwork.id) {
        req := Some(RemoveFavorite(artwork.id));
        if status == Answered(true) {
          favorites := RemoveId(favorites, artwork.id);
        }
      } else {
        req := Some(AddFavorite(artwork.id));
        if status == Answered(true) {
          favorites := favorites + [artwork];
        }
      }
    }

    /** `saveRating(artworkId, ratingData)`, with the outcome of the POST as
        `status`. An absent `ratingData` throws before any request. Only an
        ok response replaces the local entry, and in the rated view it also
        starts a fresh load of the rated list (`refresh`). */
    method SaveRating(artworkId: int, ratingData: Option<Scores>, authenticated: bool, status: Status)
      returns (req: Option<Request>, refresh: Option<Request>)
      modifies this`showAuth, this`ratings, this`loading, this`loadingMore
      ensures !authenticated ==> showAuth && req.None?
      ensures authenticated ==> showAuth == old(showAuth)
      ensures authenticated && ratingData.Some? ==>
                req == Some(PostRating(artworkId, OrZero(ratingData.value.overall), OrZero(ratingData.value.technique),
                                       OrZero(ratingData.value.originality), OrZero(ratingData.value.emotion)))
      ensures ratingData.None? ==> req.None?
      ensures var saved := authenticated && ratingData.Some? && status == Answered(true);
        && ratings == (if saved then old(ratings)[artworkId := ratingData.value] else old(ratings))
        && refresh == (if saved && showRated then Some(PageRequest(RatedEndpoint, 1, pagination.limit)) else None)
      ensures refresh.Some? ==> loading && !loadingMore
      ensures refresh.None? ==> loading == old(loading) && loadingMore == old(loadingMore)
    {
      refresh := None;
      if !authenticated {
        showAuth := true;
        return None, None;
      }
      if ratingData.None? {
        return None, None;
      }
      var d := ratingData.value;
      req := Some(PostRating(artworkId, OrZero(d.overall), OrZero(d.technique), OrZero(d.originality), OrZero(d.emotion)));
      if status == Answered(true) {
        ratings := ratings[artworkId := d];
        if showRated {
          var r := FetchRatedArtworks(1);
          refresh := Some(r);
        }
      }
    }

    /** `openModal(artwork)`, with the outcome of the rating load as `reply`:
        an ok answer stores the loaded rating, missing sub-scores as 0. */
    method OpenModal(artwork: Artwork, authenticated: bool, reply: RatingReply) returns (req: Option<Request>)
      modifies this`selectedArtwork, this`showRatingPanel, this`ratings
      ensures selectedArtwork == Some(artwork) && !showRatingPanel
      ensures req == if authenticated then Some(GetRating(artwork.id)) else None
      ensures ratings == if authenticated && reply.RatingAnswered? && reply.ok
                         then old(ratings)[artwork.id := Filled(reply.data)]
                         else old(ratings)
    {
      selectedArtwork := Some(artwork);
      showRatingPanel := false;
      if !authenticated {
        return None;
      }
      req := Some(GetRating(artwork.id));
      if reply.RatingAnswered? && reply.ok {
        ratings := ratings[artwork.id := Filled(reply.data)];
      }
    }

    /** `closeModal`: no artwork is selected and the panel is closed. */
    method CloseModal()
      modifies this`selectedArtwork, this`showRatingPanel
      ensures selectedArtwork.None? && !showRatingPanel
    {
      selectedArtwork := None;
      showRatingPanel := false;
    }

    /** The `onChange` of one sub-score in the rating panel: that field of the
        selected artwork's entry becomes `value`; the entry's other fields
        and every other entry are kept. */
    method EditScore(criterion: Criterion, value: real)
      requires selectedArtwork.Some?
      modifies this`ratings
      ensures var id := selectedArtwork.value.id;
        && ratings.Keys == old(ratings).Keys + {id}
        && ScoreOf(ratings[id], criterion) == Some(value)
        && (forall c :: c != criterion ==> ScoreOf(ratings[id], c) == ScoreOf(old(EntryOf(id)), c))
        && (forall k :: k in old(ratings) && k != id ==> ratings[k] == old(ratings)[k])
    {
      var id := selectedArtwork.value.id;
      ratings := ratings[id := WithScore(EntryOf(id), criterion, value)];
    }

    /** The entry of `id`, or the empty one when there is none. */
    function EntryOf(id: int): Scores
      reads this
    {
      if id in ratings then ratings[id] else NoScores
    }
  }

  /** The startup scenario: the first page of all artworks arrives with a
      next page, yet "load more" sends no request. */
  method LoadMoreAfterStartup(first: seq<Artwork>) returns (req: Option<Request>)
    ensures req.None?
  {
    var app := new AppContent();
    var initial := app.FetchArtworks(1);
    app.CompleteArtworks(1, ListBody(Some(first), Some(Pagination(1, Some(20), 40, 2, true, false))));
    assert app.GetDisplayedArtworks() == first && app.pagination.hasNext && !app.loadingMore;
    req := app.LoadMore();
  }

  /** The search scenario: a first page of results, then one "load more"
      that appends the second page after the first. */
  method SearchThenLoadMore(page1: seq<Artwork>, page2: seq<Artwork>, next: Pagination)
    returns (first: Option<Request>, more: Option<Request>, shown: seq<Artwork>)
    requires |page1| == 20 && |page2| == 20
    ensures first == Some(PageRequest(MetSearchEndpoint("Monet", AnyField), 1, Some(20)))
    ensures more == Some(PageRequest(MetSearchEndpoint("Monet", AnyField), 2, Some(20)))
    ensures shown == page1 + page2 && |shown| == 40
  {
    var app := new AppContent();
    app.query := "Monet";
    first := app.HandleSearch(1);
    assert !IsBlank(app.query) by { assert !IsJsWhitespace(app.query[0]); }
    assert first == Some(PageRequest(MetSearchEndpoint("Monet", AnyField), 1, Some(20)));
    app.CompleteArtworks(1, ListBody(Some(page1), Some(Pagination(1, Some(20), 60, 3, true, false))));
    assert |app.GetDisplayedArtworks()| == 20;
    more := app.LoadMore();
    assert more == Some(PageRequest(MetSearchEndpoint("Monet", AnyField), 2, Some(20)));
    app.CompleteArtworks(2, ListBody(Some(page2), Some(next)));
    shown := app.GetDisplayedArtworks();
  }
}

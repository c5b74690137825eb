/** What the story and mantra query hooks share: the query-key factories, the
    "next page" rule of the infinite lists, the error-message fallbacks of the
    mutations and the cache actions they take when they settle. A cache
    action reaches every cached query whose key partially matches its own:
    strings position by position, and a filter object any cached object that
    has at least its properties. */
module Queries {
  import opened Common

  /** A filter object (`StoryParamsType`, `MantraParamsType`) by property name. */
  type Filters = map<string, string>

  /** One element of a query key: a string, or a filter object. */
  datatype KeyPart = Name(name: string) | Params(filters: Filters)

  type QueryKey = seq<KeyPart>

  /** The entries of a key factory. */
  datatype KeyKind =
    | All
    | Lists(filters: Filters)
    | Infinite(filters: Filters)
    | Detail(id: string)
    | Create
    | Update(id: string)
    | Delete(id: string)

  /** The key `<root>Key.<kind>(…)`: the root, then the kind's own parts. */
  function Key(root: string, k: KeyKind): (q: QueryKey)
    ensures |q| >= 1 && q[0] == Name(root)
    ensures |q| == 1 <==> k.All?
  {
    [Name(root)] +
    match k
    case All => []
    case Lists(f) => [Name("lists"), Params(f)]
    case Infinite(f) => [Name("infinite"), Params(f)]
    case Detail(id) => [Name("detail"), Name(id)]
    case Create => [Name("create")]
    case Update(id) => [Name("update"), Name(id)]
    case Delete(id) => [Name("delete"), Name(id)]
  }

  /** `partialDeepEqual` on filter objects: the cached object has every
      property of the filter object, with the same value; it may have more. */
  predicate FiltersWithin(f: Filters, g: Filters)
  {
    f.Keys <= g.Keys && forall p :: p in f ==> f[p] == g[p]
  }

  /** `partialDeepEqual` on one key element: a string matches the same string,
      a filter object any object that extends it. */
  predicate PartMatches(filter: KeyPart, cached: KeyPart)
  {
    match filter
    case Name(n) => cached == Name(n)
    case Params(f) => cached.Params? && FiltersWithin(f, cached.filters)
  }

  /** `partialMatchKey(cached, filter)`, the test `invalidateQueries` and
      `removeQueries` apply to each cached query: every element of the filter
      key matches the cached element at the same position. */
  predicate Matches(filter: QueryKey, cached: QueryKey)
  {
    |filter| <= |cached| && forall i :: 0 <= i < |filter| ==> PartMatches(filter[i], cached[i])
  }

  /** Distinct entries never share a key, across roots too. */
  lemma KeyInjective(r1: string, k1: KeyKind, r2: string, k2: KeyKind)
    ensures Key(r1, k1) == Key(r2, k2) ==> r1 == r2 && k1 == k2
  {
    if Key(r1, k1) == Key(r2, k2) {
      assert Key(r1, k1)[0] == Name(r1) && Key(r2, k2)[0] == Name(r2);
      var q := Key(r1, k1);
      if !k1.All? {
        assert q[1] == Key(r2, k2)[1];
        if |q| == 3 {
          assert q[2] == Key(r2, k2)[2];
        }
      }
    }
  }

  /** The entries of the same root that a cache action on entry `k` reaches,
      stated on entries rather than keys: the root reaches everything, a
      list entry every list of its kind whose filters extend its own, and any
      other entry only itself. */
  predicate Reaches(k: KeyKind, other: KeyKind)
  {
    match k
    case All => true
    case Lists(f) => other.Lists? && FiltersWithin(f, other.filters)
    case Infinite(f) => other.Infinite? && FiltersWithin(f, other.filters)
    case _ => other == k
  }

  /** The root key matches every key under it, so invalidating it would
      reach every query of that resource. */
  lemma EveryKeyUnderRoot(root: string, k: KeyKind)
    ensures Matches(Key(root, All), Key(root, k))
  {
  }

  /** Under one root, the key of `k` matches the key of `other` exactly when
      `k` reaches `other`. */
  lemma KeyMatchesReached(root: string, k: KeyKind, other: KeyKind)
    ensures Matches(Key(root, k), Key(root, other)) <==> Reaches(k, other)
  {
    var a, b := Key(root, k), Key(root, other);
    if Matches(a, b) && !k.All? {
      assert PartMatches(a[1], b[1]);
      if |a| == 3 {
        assert PartMatches(a[2], b[2]);
      }
    }
    if Reaches(k, other) {
      assert forall i :: 0 <= i < |a| ==> PartMatches(a[i], b[i]);
    }
  }

  /** The list the page loads while a search is typed is an extension of the
      list without one, so an action on the plain list reaches it, and not
      the other way round. */
  lemma SearchVariantReached(f: Filters, term: string)
    requires "search" !in f
    ensures Reaches(Infinite(f), Infinite(f["search" := term]))
    ensures !Reaches(Infinite(f["search" := term]), Infinite(f))
  {
  }

  /** Keys under different roots never match each other. */
  lemma RootsApart(r1: string, k1: KeyKind, r2: string, k2: KeyKind)
    requires r1 != r2
    ensures !Matches(Key(r1, k1), Key(r2, k2))
  {
    assert Key(r1, k1)[0] != Key(r2, k2)[0];
  }

  /** The first page the infinite lists ask for. */
  const InitialPageParam: int := 1

  /** `getNextPageParam`: the page after the one received while there is one. */
  function NextPageParam(page: int, totalPages: int): (next: Option<int>)
    ensures next.Some? <==> page < totalPages
    ensures next.Some? ==> next.value == page + 1
  {
    if page < totalPages then Some(page + 1) else None
  }

  /** The pages an infinite list loads from `page` on, asking for the next page
      each time, when every reply reports the page that was asked for and the
      same number of pages. */
  function PagesLoaded(page: int, totalPages: int): seq<int>
    decreases if page < totalPages then totalPages - page else 0
  {
    [page] +
    match NextPageParam(page, totalPages)
    case None => []
    case Some(n) => PagesLoaded(n, totalPages)
  }

  lemma {:induction false} PagesLoadedFrom(page: int, totalPages: int)
    ensures var s := PagesLoaded(page, totalPages);
      |s| == (if page < totalPages then totalPages - page + 1 else 1)
      && forall i :: 0 <= i < |s| ==> s[i] == page + i
    decreases if page < totalPages then totalPages - page else 0
  {
    if page < totalPages {
      PagesLoadedFrom(page + 1, totalPages);
    }
  }

  /** Starting from the initial page, the list loads pages 1, 2, …, totalPages
      exactly once each and in order (only page 1 when there are none). */
  lemma PagingVisitsEveryPage(totalPages: int)
    ensures var s := PagesLoaded(InitialPageParam, totalPages);
      |s| == (if totalPages > 1 then totalPages else 1)
      && forall i :: 0 <= i < |s| ==> s[i] == i + 1
  {
    PagesLoadedFrom(InitialPageParam, totalPages);
  }

  /** `error?.response?.data?.message || fallback`. */
  function ServerMessageOr(e: Error, fallback: string): (m: string)
    ensures Truthy(e.serverMessage) ==> m == e.serverMessage.value
    ensures !Truthy(e.serverMessage) ==> m == fallback
  {
    if Truthy(e.serverMessage) then e.serverMessage.value else fallback
  }

  /** `error?.response?.data?.message || error.message || fallback`. */
  function ServerOrOwnMessageOr(e: Error, fallback: string): (m: string)
    ensures Truthy(e.serverMessage) ==> m == e.serverMessage.value
    ensures !Truthy(e.serverMessage) && e.message != "" ==> m == e.message
    ensures !Truthy(e.serverMessage) && e.message == "" ==> m == fallback
  {
    ServerMessageOr(e, if e.message != "" then e.message else fallback)
  }

  /** A non-empty fallback means the user is never shown an empty message. */
  lemma MessagesNeverEmpty(e: Error, fallback: string)
    requires fallback != ""
    ensures ServerMessageOr(e, fallback) != ""
    ensures ServerOrOwnMessageOr(e, fallback) != ""
  {
  }

  datatype CacheAction = Invalidate(key: QueryKey) | RemoveQueries(key: QueryKey)

  /** The toast a mutation shows when it settles. */
  datatype Notice = NotifySuccess(text: string) | NotifyError(text: string)

  /** What a mutation's `onSuccess`/`onError` does: cache actions, in order,
      and one notice. */
  datatype Settled = Settled(cache: seq<CacheAction>, notice: Notice)

  /** Whether some action of the list reaches the query under `key`. */
  predicate Touched(actions: seq<CacheAction>, key: QueryKey)
  {
    exists i :: 0 <= i < |actions| && Matches(actions[i].key, key)
  }

  /** Whether some `removeQueries` of the list drops the query under `key`. */
  predicate Removed(actions: seq<CacheAction>, key: QueryKey)
  {
    exists i :: 0 <= i < |actions| && actions[i].RemoveQueries? && Matches(actions[i].key, key)
  }
}

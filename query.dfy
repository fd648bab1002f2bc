/**
 * The filtered listing query: the filter request becomes a list of criteria, the criteria
 * are combined by conjunction, the store is scanned in its own order, and a page is cut
 * from the matches.
 */
module PropertyQuery {
  import opened Wrappers
  import opened Text
  import opened Entities
  import opened Validation

  /** One filter definition the query builder adds. */
  datatype Criterion =
    | NameOrAddressLike(term: string)   // name OR address matches the term, case-insensitively
    | AddressLike(term: string)         // address matches the term, case-insensitively
    | PriceAtLeast(bound: real)
    | PriceAtMost(bound: real)

  /** The criteria in the order the builder adds them. */
  function Criteria(f: PropertyFilter): (cs: seq<Criterion>)
    ensures |cs| <= 4
    ensures f.name != "" <==> NameOrAddressLike(f.name) in cs
    ensures f.address != "" && f.name == "" <==> AddressLike(f.address) in cs
    ensures f.minPrice.Some? ==> PriceAtLeast(f.minPrice.value) in cs
    ensures f.maxPrice.Some? ==> PriceAtMost(f.maxPrice.value) in cs
    ensures forall c :: c in cs ==> match c
      case NameOrAddressLike(t) => t == f.name && t != ""
      case AddressLike(t) => t == f.address && t != "" && f.name == ""
      case PriceAtLeast(b) => f.minPrice == Some(b)
      case PriceAtMost(b) => f.maxPrice == Some(b)
  {
    (if f.name != "" then [NameOrAddressLike(f.name)] else [])
    + (if f.address != "" && f.name == "" then [AddressLike(f.address)] else [])
    + (if f.minPrice.Some? then [PriceAtLeast(f.minPrice.value)] else [])
    + (if f.maxPrice.Some? then [PriceAtMost(f.maxPrice.value)] else [])
  }

  predicate Holds(c: Criterion, p: Property)
  {
    match c
    case NameOrAddressLike(t) => ContainsIgnoreCase(p.name, t) || ContainsIgnoreCase(p.address, t)
    case AddressLike(t) => ContainsIgnoreCase(p.address, t)
    case PriceAtLeast(b) => p.price >= b
    case PriceAtMost(b) => p.price <= b
  }

  /** The conjunction of the criteria; the empty list is the filter that matches everything. */
  predicate AllHold(cs: seq<Criterion>, p: Property)
  {
    forall i :: 0 <= i < |cs| ==> Holds(cs[i], p)
  }

  /** The price criteria of a filter, each present bound inclusive. */
  predicate WithinPrice(f: PropertyFilter, p: Property)
  {
    (f.minPrice.Some? ==> f.minPrice.value <= p.price) && (f.maxPrice.Some? ==> p.price <= f.maxPrice.value)
  }

  /** Conjunction over a concatenation of criteria lists. */
  lemma AllHoldAppend(a: seq<Criterion>, b: seq<Criterion>, p: Property)
    ensures AllHold(a + b, p) <==> AllHold(a, p) && AllHold(b, p)
  {
    if AllHold(a, p) && AllHold(b, p) {
      forall i | 0 <= i < |a + b| ensures Holds((a + b)[i], p) {
        if i >= |a| { assert (a + b)[i] == b[i - |a|]; }
      }
    }
    if AllHold(a + b, p) {
      forall i | 0 <= i < |a| ensures Holds(a[i], p) {
        assert (a + b)[i] == a[i];
      }
      forall i | 0 <= i < |b| ensures Holds(b[i], p) {
        assert (a + b)[|a| + i] == b[i];
      }
    }
  }

  /** A one-element list holds exactly when its criterion does; the empty list always holds. */
  lemma AllHoldOne(c: Criterion, p: Property)
    ensures AllHold([c], p) <==> Holds(c, p)
    ensures AllHold([], p)
  {
    assert [c][0] == c;
  }

  /** The conjunction of a filter's criteria list, one criterion at a time. */
  lemma CriteriaUnfold(f: PropertyFilter, p: Property)
    ensures AllHold(Criteria(f), p) <==>
      (f.name != "" ==> ContainsIgnoreCase(p.name, f.name) || ContainsIgnoreCase(p.address, f.name)) &&
      (f.address != "" && f.name == "" ==> ContainsIgnoreCase(p.address, f.address)) &&
      WithinPrice(f, p)
  {
    var c1 := if f.name != "" then [NameOrAddressLike(f.name)] else [];
    var c2 := if f.address != "" && f.name == "" then [AddressLike(f.address)] else [];
    var c3 := if f.minPrice.Some? then [PriceAtLeast(f.minPrice.value)] else [];
    var c4 := if f.maxPrice.Some? then [PriceAtMost(f.maxPrice.value)] else [];
    assert Criteria(f) == c1 + c2 + c3 + c4;
    AllHoldAppend(c1 + c2 + c3, c4, p);
    AllHoldAppend(c1 + c2, c3, p);
    AllHoldAppend(c1, c2, p);
    AllHoldOne(NameOrAddressLike(f.name), p);
    AllHoldOne(AddressLike(f.address), p);
    AllHoldOne(PriceAtLeast(if f.minPrice.Some? then f.minPrice.value else 0.0), p);
    AllHoldOne(PriceAtMost(if f.maxPrice.Some? then f.maxPrice.value else 0.0), p);
  }

  /**
   * The combined predicate of a filter request: a non-empty name searches the name or the
   * address, an address alone searches the address, and each present price bound applies.
   */
  predicate Matches(f: PropertyFilter, p: Property)
    ensures Matches(f, p) <==>
      (f.name != "" ==> ContainsIgnoreCase(p.name, f.name) || ContainsIgnoreCase(p.address, f.name)) &&
      (f.address != "" && f.name == "" ==> ContainsIgnoreCase(p.address, f.address)) &&
      WithinPrice(f, p)
  {
    CriteriaUnfold(f, p);
    AllHold(Criteria(f), p)
  }

  /** A non-empty name searches the name OR the address, and the price bounds still apply. */
  lemma NameSearchesNameOrAddress(f: PropertyFilter, p: Property)
    requires f.name != ""
    ensures Matches(f, p) <==>
      (ContainsIgnoreCase(p.name, f.name) || ContainsIgnoreCase(p.address, f.name)) && WithinPrice(f, p)
  {
  }

  /** When a name is given the address criterion is dropped: the address field is ignored. */
  lemma AddressIgnoredWhenNameGiven(f: PropertyFilter, p: Property, otherAddress: string)
    requires f.name != ""
    ensures Matches(f, p) <==> Matches(f.(address := otherAddress), p)
  {
  }

  /** With an empty name, a non-empty address searches the address alone. */
  lemma AddressSearchesAddress(f: PropertyFilter, p: Property)
    requires f.name == "" && f.address != ""
    ensures Matches(f, p) <==> ContainsIgnoreCase(p.address, f.address) && WithinPrice(f, p)
  {
  }

  /** Every matching property lies within the present bounds, both inclusive. */
  lemma MatchesWithinPrice(f: PropertyFilter, p: Property)
    requires Matches(f, p)
    ensures f.minPrice.Some? ==> f.minPrice.value <= p.price
    ensures f.maxPrice.Some? ==> p.price <= f.maxPrice.value
  {
  }

  /** With no name, address or price criteria, every property matches. */
  lemma NoCriteriaMatchesAll(f: PropertyFilter, p: Property)
    requires f.name == "" && f.address == "" && f.minPrice.None? && f.maxPrice.None?
    ensures Matches(f, p)
  {
    assert Criteria(f) == [];
  }

  /** The matching properties, in store order. */
  function Filtered(f: PropertyFilter, store: seq<Property>): (r: seq<Property>)
    ensures |r| <= |store|
    ensures forall p :: p in r <==> p in store && Matches(f, p)
  {
    if store == [] then []
    else
      var rest := Filtered(f, store[1..]);
      assert forall p :: p in store <==> p == store[0] || p in store[1..];
      if Matches(f, store[0]) then [store[0]] + rest else rest
  }

  /**
   * The matches keep store order: filtering distributes over concatenation, and a single
   * document is kept exactly when it matches.
   */
  lemma {:induction false} FilteredKeepsOrder(f: PropertyFilter, a: seq<Property>, b: seq<Property>)
    ensures Filtered(f, a + b) == Filtered(f, a) + Filtered(f, b)
    ensures |a| == 1 ==> Filtered(f, a) == if Matches(f, a[0]) then a else []
  {
    if a == [] {
      assert a + b == b;
    } else {
      assert (a + b)[0] == a[0];
      assert (a + b)[1..] == a[1..] + b;
      FilteredKeepsOrder(f, a[1..], b);
      if |a| == 1 {
        assert a[1..] == [];
      }
    }
  }

  /** The matches keep multiplicity: a matching document occurs as often as it is stored, any other not at all. */
  lemma {:induction false} FilteredCounts(f: PropertyFilter, store: seq<Property>, p: Property)
    ensures multiset(Filtered(f, store))[p] == if Matches(f, p) then multiset(store)[p] else 0
  {
    if store != [] {
      FilteredCounts(f, store[1..], p);
      assert store == [store[0]] + store[1..];
    }
  }

  /** The skip of page `page` at `size` per page, in unbounded arithmetic. */
  function PageOffset(page: int, size: int): int
  {
    (page - 1) * size
  }

  /** Skip `offset` elements then take at most `limit`: the store's skip and limit. */
  function SkipTake<T>(s: seq<T>, offset: nat, limit: nat): (r: seq<T>)
    ensures |r| <= limit
    ensures r == [] <==> offset >= |s| || limit == 0
    ensures forall i :: 0 <= i < |r| ==> offset + i < |s| && r[i] == s[offset + i]
    ensures |r| == if offset >= |s| then 0 else if offset + limit <= |s| then limit else |s| - offset
    ensures forall x :: x in r ==> x in s
  {
    if offset >= |s| then [] else if offset + limit <= |s| then s[offset..offset + limit] else s[offset..]
  }

  /** Pagination applies only when both the page and the page size are positive. */
  function Paginate<T>(matches: seq<T>, page: int, size: int): (r: seq<T>)
    ensures |r| <= |matches|
    ensures forall x :: x in r ==> x in matches
  {
    if page > 0 && size > 0 then SkipTake(matches, PageOffset(page, size), size) else matches
  }

  /** The result of the filtered listing over `store`. */
  function Query(f: PropertyFilter, store: seq<Property>): (r: seq<Property>)
    ensures |r| <= |store|
    ensures forall p :: p in r ==> p in store && Matches(f, p)
  {
    Paginate(Filtered(f, store), f.page, f.pageSize)
  }

  /** A page is the slice at offset (page-1)*size, at most `size` long; otherwise everything. */
  lemma PaginateIsSlice<T>(m: seq<T>, page: int, size: int)
    ensures var r := Paginate(m, page, size);
      if page > 0 && size > 0 then
        |r| <= size &&
        (forall i :: 0 <= i < |r| ==> r[i] == m[(page - 1) * size + i]) &&
        (r == [] <==> (page - 1) * size >= |m|) &&
        (var o := (page - 1) * size;
         o < |m| ==> r == m[o..if o + size <= |m| then o + size else |m|])
      else r == m
  {
    if page > 0 && size > 0 {
      var o := PageOffset(page, size);
      assert Paginate(m, page, size) == SkipTake(m, o, size);
    }
  }

  /** The listing's page is the slice of the matches at offset (page-1)*size, at most `size` long; otherwise all matches. */
  lemma QueryIsPage(f: PropertyFilter, store: seq<Property>)
    ensures var m, r := Filtered(f, store), Query(f, store);
      if f.page > 0 && f.pageSize > 0 then
        |r| <= f.pageSize &&
        (forall i :: 0 <= i < |r| ==> r[i] == m[(f.page - 1) * f.pageSize + i]) &&
        (r == [] <==> (f.page - 1) * f.pageSize >= |m|) &&
        (var o := (f.page - 1) * f.pageSize;
         o < |m| ==> r == m[o..if o + f.pageSize <= |m| then o + f.pageSize else |m|])
      else r == m
  {
    PaginateIsSlice(Filtered(f, store), f.page, f.pageSize);
  }

  /** Every property returned by the query is stored and matches the filter, so lies within its bounds. */
  lemma QuerySound(f: PropertyFilter, store: seq<Property>, p: Property)
    requires p in Query(f, store)
    ensures p in store && Matches(f, p)
    ensures WithinPrice(f, p)
  {
    var m := Filtered(f, store);
    if f.page > 0 && f.pageSize > 0 {
      var r := Query(f, store);
      var i :| 0 <= i < |r| && r[i] == p;
      assert p == m[PageOffset(f.page, f.pageSize) + i];
    }
    assert p in m;
    MatchesWithinPrice(f, p);
  }

  /** An accepted filter always paginates, so the listing never returns more than 100 properties. */
  lemma AcceptedFilterBoundsResult(f: PropertyFilter, store: seq<Property>)
    requires FilterErrors(f) == {}
    ensures |Query(f, store)| <= f.pageSize <= 100
  {
    AcceptedFilterIsBounded(f);
  }

  // ---------------------------------------------------------------------------
  // The skip as written: 32-bit arithmetic
  // ---------------------------------------------------------------------------

  /** Two's-complement wrap-around of an integer into the 32-bit range. */
  function Wrap32(x: int): (r: int)
    ensures IsInt32(r)
    ensures (r - x) % 0x1_0000_0000 == 0
    ensures IsInt32(x) ==> r == x
  {
    var m := x % 0x1_0000_0000;
    if m > INT32_MAX then m - 0x1_0000_0000 else m
  }

  /** The skip the source computes: `(Page - 1) * PageSize` in 32-bit integer arithmetic. */
  function SkipAsWritten(page: int, size: int): (r: int)
    ensures IsInt32(r)
    ensures IsInt32(page - 1) && IsInt32(PageOffset(page, size)) ==> r == PageOffset(page, size)
  {
    Wrap32(Wrap32(page - 1) * size)
  }

  /** The page as written: a negative skip is refused by the store (None), any other is applied. */
  function PaginateAsWritten<T>(matches: seq<T>, page: int, size: int): (r: Option<seq<T>>)
    ensures r.None? ==> page > 0 && size > 0 && SkipAsWritten(page, size) < 0
    ensures IsInt32(page - 1) && IsInt32(PageOffset(page, size)) ==> r == Some(Paginate(matches, page, size))
  {
    if page > 0 && size > 0 then
      var skip := SkipAsWritten(page, size);
      if skip < 0 then None else Some(SkipTake(matches, skip, size))
    else Some(matches)
  }

  /**
   * Page 42949674 at 100 per page passes validation, yet its skip wraps around to 4: the
   * as-written listing returns properties 5 to 104 of the matches, where the intended page
   * (offset 4294967300) is empty for any store smaller than that.
   */
  lemma SkipOverflowExample(matches: seq<Property>)
    requires 4 < |matches| < 4294967300
    ensures var f := DefaultFilter().(page := 42949674, pageSize := 100);
      FilterErrors(f) == {} &&
      IsInt32(f.page) &&
      SkipAsWritten(f.page, f.pageSize) == 4 &&
      PaginateAsWritten(matches, f.page, f.pageSize) == Some(SkipTake(matches, 4, 100)) &&
      PaginateAsWritten(matches, f.page, f.pageSize) != Some([]) &&
      Paginate(matches, f.page, f.pageSize) == []
  {
    var f := DefaultFilter().(page := 42949674, pageSize := 100);
    assert forall x: FilterField :: x !in FilterErrors(f);
    assert Wrap32(42949673) == 42949673;
    assert Wrap32(4294967300) == 4;
  }

  /** With unbounded arithmetic, pages are disjoint and consecutive: page p+1 starts where page p ends. */
  lemma PagesAreConsecutive<T>(matches: seq<T>, page: int, size: int)
    requires page > 0 && size > 0
    ensures PageOffset(page + 1, size) == PageOffset(page, size) + size
    ensures Paginate(matches, page, size) + Paginate(matches, page + 1, size)
         == SkipTake(matches, PageOffset(page, size), 2 * size)
  {
    var o := PageOffset(page, size);
    assert PageOffset(page + 1, size) == o + size;
  }
}

/** The list endpoints for containers and services: query-parameter
    defaulting, the state filter and the page cut. Go's `int` is 64 bits, so
    the page end `offset + limit` is computed with wrap-around in the code as
    written; `EndIndex` is the overflow-free version the handlers are modelled
    with. */
module Pagination {
  import opened Basics
  import opened Strconv
  import opened Models
  import opened Persistence

  const DefaultLimit: int := 100

  /** The `limit` query parameter: 100 when absent, not a 64-bit decimal, or below 1. */
  function ParseLimit(text: string): (limit: int)
    ensures 1 <= limit <= MaxInt64
    ensures limit != DefaultLimit ==> Atoi(text).ok && Atoi(text).value == limit
    ensures Atoi(text).ok && Atoi(text).value >= 1 ==> limit == Atoi(text).value
  {
    if text != "" then
      var r := Atoi(text);
      if !r.ok || r.value < 1 then DefaultLimit else r.value
    else DefaultLimit
  }

  /** The `offset` query parameter: 0 when absent, not a 64-bit decimal, or negative. */
  function ParseOffset(text: string): (offset: int)
    ensures 0 <= offset <= MaxInt64
    ensures offset != 0 ==> Atoi(text).ok && Atoi(text).value == offset
    ensures Atoi(text).ok && Atoi(text).value >= 0 ==> offset == Atoi(text).value
  {
    if text != "" then
      var r := Atoi(text);
      if !r.ok || r.value < 0 then 0 else r.value
    else 0
  }

  /** A positive limit written in decimal reads back as itself; anything below 1 reads as 100. */
  lemma ParseLimitItoa(n: int)
    requires n <= MaxInt64
    ensures ParseLimit(Itoa(n)) == if n >= 1 then n else DefaultLimit
  {
    if n >= MinInt64 {
      AtoiItoa(n);
    } else {
      ParseItoa(n);
    }
  }

  /** A non-negative offset written in decimal reads back as itself; a negative one reads as 0. */
  lemma ParseOffsetItoa(n: int)
    requires n <= MaxInt64
    ensures ParseOffset(Itoa(n)) == if n >= 0 then n else 0
  {
    if n >= MinInt64 {
      AtoiItoa(n);
    } else {
      ParseItoa(n);
    }
  }

  /** The items whose state is `state`, in their original order. */
  function Matching<T>(items: seq<T>, stateOf: T -> string, state: string): seq<T>
  {
    if items == [] then []
    else
      var last := items[|items| - 1];
      Matching(items[..|items| - 1], stateOf, state) + (if stateOf(last) == state then [last] else [])
  }

  /** Filtering keeps exactly the items in the state: an item is kept iff it is
      in the list and in the state, and no more items than there were. */
  lemma {:induction false} MatchingMembers<T>(items: seq<T>, stateOf: T -> string, state: string)
    ensures |Matching(items, stateOf, state)| <= |items|
    ensures forall x :: x in Matching(items, stateOf, state) <==> x in items && stateOf(x) == state
  {
    if items != [] {
      var init := items[..|items| - 1];
      MatchingMembers(init, stateOf, state);
      assert items == init + [items[|items| - 1]];
    }
  }

  /** Filtering keeps order: the filter of a concatenation is the concatenation of the filters. */
  lemma {:induction false} MatchingAppend<T>(a: seq<T>, b: seq<T>, stateOf: T -> string, state: string)
    ensures Matching(a + b, stateOf, state) == Matching(a, stateOf, state) + Matching(b, stateOf, state)
  {
    if b == [] {
      assert a + b == a;
    } else {
      var init := b[..|b| - 1];
      MatchingAppend(a, init, stateOf, state);
      assert (a + b)[..|a + b| - 1] == a + init;
    }
  }

  /** Filtering twice by the same state is filtering once. */
  lemma {:induction false} MatchingIdempotent<T>(items: seq<T>, stateOf: T -> string, state: string)
    ensures Matching(Matching(items, stateOf, state), stateOf, state) == Matching(items, stateOf, state)
  {
    if items != [] {
      var init := items[..|items| - 1];
      var last := items[|items| - 1];
      MatchingIdempotent(init, stateOf, state);
      var tail := if stateOf(last) == state then [last] else [];
      MatchingAppend(Matching(init, stateOf, state), tail, stateOf, state);
      if stateOf(last) == state {
        assert Matching(tail, stateOf, state) == Matching([], stateOf, state) + [last] by {
          assert tail[..|tail| - 1] == [];
        }
      }
    }
  }

  /** The filter loop of the list handlers; an empty filter keeps everything. */
  method FilterByState<T>(items: seq<T>, stateOf: T -> string, stateFilter: string) returns (filtered: seq<T>)
    ensures stateFilter == "" ==> filtered == items
    ensures stateFilter != "" ==> filtered == Matching(items, stateOf, stateFilter)
  {
    if stateFilter == "" {
      return items;
    }
    filtered := [];
    for i := 0 to |items|
      invariant filtered == Matching(items[..i], stateOf, stateFilter)
    {
      assert items[..i + 1][..i] == items[..i];
      if stateOf(items[i]) == stateFilter {
        filtered := filtered + [items[i]];
      }
    }
    assert items[..|items|] == items;
  }

  /** The end of the page as the list handlers compute it: `offset + limit`
      in 64-bit arithmetic, cut down to the total. */
  function EndIndexAsWritten(offset: int, limit: int, total: int): int
  {
    var e := Wrap64(offset + limit);
    if e > total then total else e
  }

  /** With the largest limit the query can carry and an offset of 1 into two
      items, the sum wraps to the most negative value and the page end lands
      before the page start, so the slice `filtered[offset:endIndex]` is out
      of range. */
  lemma EndIndexOverflows()
    ensures ParseLimit(Itoa(MaxInt64)) == MaxInt64 && ParseOffset(Itoa(1)) == 1
    ensures var e := EndIndexAsWritten(1, MaxInt64, 2); e < 1 && e == MinInt64
  {
    ParseLimitItoa(MaxInt64);
    ParseOffsetItoa(1);
    assert Wrap64(1 + MaxInt64) == MinInt64 by {
      assert 1 + MaxInt64 - MinInt64 == 0x1_0000_0000_0000_0000;
      assert 0x1_0000_0000_0000_0000 % 0x1_0000_0000_0000_0000 == 0;
    }
  }

  /** The end of the page without overflow: `min(offset + limit, total)`. */
  function EndIndex(offset: int, limit: int, total: int): (e: int)
    requires 0 <= offset <= total && 1 <= limit
    ensures offset <= e <= total && e - offset <= limit
    ensures e == total || e - offset == limit
  {
    if limit >= total - offset then total else offset + limit
  }

  /** Where the 64-bit sum does not overflow, the two computations agree. */
  lemma EndIndexAgrees(offset: int, limit: int, total: int)
    requires 0 <= offset <= total && 1 <= limit && offset + limit <= MaxInt64
    ensures EndIndexAsWritten(offset, limit, total) == EndIndex(offset, limit, total)
  {
  }

  /** What a list handler answers with: the page, the filtered total, and the
      limit and offset in force. */
  datatype Page<T> = Page(items: seq<T>, totalCount: int, limit: int, offset: int)

  /** Cut one page from the filtered list: an offset at or past the end is
      reset to 0, and the page runs from the offset for up to `limit` items. */
  function Paginate<T>(filtered: seq<T>, limit: int, offset: int): (p: Page<T>)
    requires 1 <= limit && 0 <= offset
    ensures p.totalCount == |filtered| && p.limit == limit
    ensures p.offset == if offset >= |filtered| then 0 else offset
    ensures |p.items| <= limit && p.offset + |p.items| <= |filtered|
    ensures forall k :: 0 <= k < |p.items| ==> p.items[k] == filtered[p.offset + k]
    ensures |p.items| == Min(limit, |filtered| - p.offset)
  {
    var total := |filtered|;
    var start := if offset >= total then 0 else offset;
    var items := if start < total then filtered[start..EndIndex(start, limit, total)] else [];
    Page(items, total, limit, start)
  }

  /** The pages from `offset` on, in order, concatenated. */
  function PagesFrom<T>(filtered: seq<T>, limit: int, offset: int): seq<T>
    requires 1 <= limit && 0 <= offset
    decreases |filtered| - offset
  {
    if offset >= |filtered| then []
    else Paginate(filtered, limit, offset).items + PagesFrom(filtered, limit, offset + limit)
  }

  /** A page that starts inside the list is the slice from its offset. */
  lemma PageIsSlice<T>(filtered: seq<T>, limit: int, offset: int)
    requires 1 <= limit && 0 <= offset < |filtered|
    ensures Paginate(filtered, limit, offset).items == filtered[offset..Min(offset + limit, |filtered|)]
  {
  }

  lemma PagesFromStep<T>(filtered: seq<T>, limit: int, offset: int)
    requires 1 <= limit && 0 <= offset < |filtered|
    ensures PagesFrom(filtered, limit, offset)
         == filtered[offset..Min(offset + limit, |filtered|)] + PagesFrom(filtered, limit, offset + limit)
  {
    PageIsSlice(filtered, limit, offset);
  }

  lemma SliceSplit<T>(s: seq<T>, i: int, j: int)
    requires 0 <= i <= j <= |s|
    ensures s[i..] == s[i..j] + s[j..]
  {
  }

  /** Paging from offset 0 in steps of `limit` visits every item once, in order. */
  lemma {:induction false} PagesCover<T>(filtered: seq<T>, limit: int, offset: int)
    requires 1 <= limit && 0 <= offset <= |filtered|
    decreases |filtered| - offset
    ensures PagesFrom(filtered, limit, offset) == filtered[offset..]
  {
    if offset < |filtered| {
      PagesFromStep(filtered, limit, offset);
      if offset + limit < |filtered| {
        PagesCover(filtered, limit, offset + limit);
        SliceSplit(filtered, offset, offset + limit);
      } else {
        assert PagesFrom(filtered, limit, offset + limit) == [];
        assert filtered[offset..|filtered|] == filtered[offset..];
      }
    }
  }

  /** The values of `m` under `keys`, in the order of `keys`. */
  function ValuesAt<V>(keys: seq<string>, m: map<string, V>): (vs: seq<V>)
    requires forall i :: 0 <= i < |keys| ==> keys[i] in m
    ensures |vs| == |keys| && forall i :: 0 <= i < |keys| ==> vs[i] == m[keys[i]]
  {
    seq(|keys|, i requires 0 <= i < |keys| => m[keys[i]])
  }

  function ContainerState(c: Container): string { c.state }
  function ServiceState(s: Service): string { s.state }

  /** The body of a list handler: parse the parameters, filter, cut the page. */
  method ListPage<T>(items: seq<T>, stateOf: T -> string, stateFilter: string, limitText: string, offsetText: string)
    returns (page: Page<T>)
    ensures var filtered := if stateFilter == "" then items else Matching(items, stateOf, stateFilter);
      page == Paginate(filtered, ParseLimit(limitText), ParseOffset(offsetText))
  {
    var limit := ParseLimit(limitText);
    var offset := ParseOffset(offsetText);
    var filtered := FilterByState(items, stateOf, stateFilter);
    var total := |filtered|;
    if offset >= total {
      offset := 0;
    }
    var endIndex := EndIndex(offset, limit, total);
    var pageItems := if offset < total then filtered[offset..endIndex] else [];
    page := Page(pageItems, total, limit, offset);
  }

  /** `HandleList` for containers: a store failure answers 500; otherwise 200
      with the page of the stored containers in listing order. */
  method HandleListContainers(store: Store, stateFilter: string, limitText: string, offsetText: string, listOk: bool)
    returns (status: int, page: Option<Page<Container>>, ghost keys: seq<string>)
    ensures status == (if listOk then StatusOK else StatusInternalServerError)
    ensures page.Some? <==> listOk
    ensures listOk ==> Enumerates(keys, store.containers)
    ensures listOk ==>
              var all := ValuesAt(keys, store.containers);
              var filtered := if stateFilter == "" then all else Matching(all, ContainerState, stateFilter);
              page.value == Paginate(filtered, ParseLimit(limitText), ParseOffset(offsetText))
  {
    var containers;
    containers, keys := store.ListContainers(listOk);
    if containers.None? {
      return StatusInternalServerError, None, keys;
    }
    assert containers.value == ValuesAt(keys, store.containers);
    var p := ListPage(containers.value, ContainerState, stateFilter, limitText, offsetText);
    return StatusOK, Some(p), keys;
  }

  /** `HandleList` for services, the same over the stored services. */
  method HandleListServices(store: Store, stateFilter: string, limitText: string, offsetText: string, listOk: bool)
    returns (status: int, page: Option<Page<Service>>, ghost keys: seq<string>)
    ensures status == (if listOk then StatusOK else StatusInternalServerError)
    ensures page.Some? <==> listOk
    ensures listOk ==> Enumerates(keys, store.services)
    ensures listOk ==>
              var all := ValuesAt(keys, store.services);
              var filtered := if stateFilter == "" then all else Matching(all, ServiceState, stateFilter);
              page.value == Paginate(filtered, ParseLimit(limitText), ParseOffset(offsetText))
  {
    var services;
    services, keys := store.ListServices(listOk);
    if services.None? {
      return StatusInternalServerError, None, keys;
    }
    assert services.value == ValuesAt(keys, store.services);
    var p := ListPage(services.value, ServiceState, stateFilter, limitText, offsetText);
    return StatusOK, Some(p), keys;
  }
}

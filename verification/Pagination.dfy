/** Walking a limit/offset endpoint (src/agentchatme/_pagination.py:32-61). The
    endpoint is a function of offset and limit. */
module Pagination {
  import opened Wrappers

  datatype Page<T> = Page(items: seq<T>, total: nat)

  /** The endpoint serves `all`: from any offset inside it, a non-empty stretch
      from there, and nothing past the end. */
  ghost predicate Serves<T(!new)>(fetch: (nat, nat) -> Page<T>, limit: nat, all: seq<T>) {
    forall offset: nat :: ServesAt(fetch, limit, all, offset)
  }

  predicate ServesAt<T(==)>(fetch: (nat, nat) -> Page<T>, limit: nat, all: seq<T>, offset: nat) {
    PageOf(fetch(offset, limit), all, offset)
  }

  predicate PageOf<T(==)>(page: Page<T>, all: seq<T>, offset: nat) {
    && page.total == |all|
    && (offset < |all| ==>
          && page.items != [] && offset + |page.items| <= |all|
          && page.items == all[offset..offset + |page.items|])
    && (offset >= |all| ==> page.items == [])
  }

  /** What is asked for: everything from `start`, cut at `most`. */
  function Wanted<T>(all: seq<T>, start: nat, most: Option<int>): seq<T> {
    var rest := if start <= |all| then all[start..] else [];
    if most.Some? && most.value < |rest| then rest[..Max(0, most.value)] else rest
  }

  predicate Below(yielded: int, most: Option<int>) {
    most.None? || yielded < most.value
  }

  /** Every fetch asks for where the page before it ended, and none is made once
      enough was yielded or the end was reached. */
  predicate Frugal<T>(fetch: (nat, nat) -> Page<T>, limit: nat, start: nat, most: Option<int>, total: nat,
                      offsets: seq<nat>) {
    && (offsets != [] ==> offsets[0] == start)
    && (forall k :: 0 <= k < |offsets| ==> Below(offsets[k] - start, most))
    && (forall k :: 0 < k < |offsets| ==>
          offsets[k] < total && offsets[k] == offsets[k - 1] + |fetch(offsets[k - 1], limit).items|)
  }

  function Between<T>(all: seq<T>, start: nat, offset: nat): seq<T> {
    if start <= offset <= |all| then all[start..offset] else []
  }

  /** Where the next fetch has to start. */
  predicate Continues<T>(fetch: (nat, nat) -> Page<T>, limit: nat, start: nat, total: nat, offsets: seq<nat>,
                         offset: nat) {
    if offsets == [] then offset == start else
      offset < total && offset == offsets[|offsets| - 1] + |fetch(offsets[|offsets| - 1], limit).items|
  }

  method Paginate<T(==, !new)>(fetch: (nat, nat) -> Page<T>, limit: nat, start: nat, most: Option<int>,
                               ghost all: seq<T>)
    returns (yielded: seq<T>, offsets: seq<nat>)
    requires Serves(fetch, limit, all)
    ensures yielded == Wanted(all, start, most)
    ensures Frugal(fetch, limit, start, most, |all|, offsets)
  {
    var offset, done := start, false;
    yielded, offsets := [], [];
    while !done && Below(|yielded|, most)
      invariant done ==> yielded == Wanted(all, start, most)
      invariant !done ==> Reached(all, start, most, offset, yielded)
      invariant !done ==> Continues(fetch, limit, start, |all|, offsets, offset)
      invariant Frugal(fetch, limit, start, most, |all|, offsets)
      decreases !done, |all| - offset
    {
      assert ServesAt(fetch, limit, all, offset);
      OneMore(fetch, limit, start, most, |all|, offsets, offset);
      offsets := offsets + [offset];
      yielded, offset, done := TakePage(fetch(offset, limit), yielded, start, offset, most, all);
    }
    if !done { WantedIs(all, start, most, offset); }
  }

  lemma OneMore<T>(fetch: (nat, nat) -> Page<T>, limit: nat, start: nat, most: Option<int>, total: nat,
                   offsets: seq<nat>, offset: nat)
    requires Frugal(fetch, limit, start, most, total, offsets) && Continues(fetch, limit, start, total, offsets, offset)
    requires Below(offset - start, most)
    ensures Frugal(fetch, limit, start, most, total, offsets + [offset])
    ensures offset + |fetch(offset, limit).items| < total ==>
      Continues(fetch, limit, start, total, offsets + [offset], offset + |fetch(offset, limit).items|)
  {
  }

  ghost predicate Reached<T>(all: seq<T>, start: nat, most: Option<int>, offset: nat, yielded: seq<T>) {
    && start <= offset && yielded == Between(all, start, offset) && |yielded| == offset - start
    && (offset == start || Below(offset - start - 1, most))
  }

  /** One page: the next offset, or the end of the walk. */
  method TakePage<T(==)>(page: Page<T>, sofar: seq<T>, start: nat, offset: nat, most: Option<int>, ghost all: seq<T>)
    returns (yielded: seq<T>, next: nat, done: bool)
    requires PageOf(page, all, offset) && Reached(all, start, most, offset, sofar) && Below(|sofar|, most)
    ensures done ==> yielded == Wanted(all, start, most)
    ensures !done ==> Reached(all, start, most, next, yielded) && offset < next == offset + |page.items| < |all|
  {
    if page.items == [] {
      WantedIs(all, start, most, offset);
      return sofar, offset, true;
    }
    var full;
    yielded, full := Emit(sofar, page.items, most);
    next := start + |yielded|;
    Extended(all, start, offset, |page.items|, next - offset);
    done := full || next >= page.total;
    if done { WantedIs(all, start, most, next); }
  }

  /** Yield items until `most` is reached. */
  method Emit<T>(yielded: seq<T>, items: seq<T>, most: Option<int>) returns (more: seq<T>, full: bool)
    requires Below(|yielded|, most)
    ensures |yielded| <= |more| <= |yielded| + |items|
    ensures more == yielded + items[..|more| - |yielded|]
    ensures full ==> most == Some(|more|)
    ensures !full ==> |more| == |yielded| + |items| && Below(|more| - 1, most)
  {
    more, full := yielded, false;
    for i := 0 to |items|
      invariant more == yielded + items[..i]
      invariant Below(|more| - 1, most)
    {
      if !Below(|more|, most) { return more, true; }
      more := more + [items[i]];
    }
  }

  lemma Extended<T>(all: seq<T>, start: nat, offset: nat, size: nat, taken: nat)
    requires start <= offset && taken <= size && offset + size <= |all|
    ensures Between(all, start, offset + taken) == Between(all, start, offset) + all[offset..offset + size][..taken]
  {
  }

  /** Having stopped at the limit or at the end, what was yielded is what was wanted. */
  lemma WantedIs<T>(all: seq<T>, start: nat, most: Option<int>, offset: nat)
    requires start <= offset && (offset == start || (offset <= |all| && Below(offset - start - 1, most)))
    requires offset >= |all| || !Below(offset - start, most)
    ensures Between(all, start, offset) == Wanted(all, start, most)
  {
  }
}

/** The auto-paging iterator over a list endpoint (`src/rest/pagination.rs`). The
    server is any function from the request's ordinal and the request to a page
    or an error; a stateless one ignores the ordinal. */
module Pagination {
  import opened Common

  type Cursor = string

  datatype PageRequest = PageRequest(cursor: Option<Cursor>, limit: Option<nat>)

  datatype Page<T> = Page(items: seq<T>, next: Option<Cursor>)

  datatype Failure = FetchFailed(code: int)

  type Server<T> = (nat, PageRequest) -> Result<Page<T>, Failure>

  // ----- the walk ------------------------------------------------------------------------------

  /** The page leads on: it names a next cursor that is not the one just asked for. */
  predicate LeadsOn<T>(requested: Option<Cursor>, page: Page<T>) {
    page.next.Some? && page.next != requested
  }

  /** `pages` are what requests number `from`, `from + 1`, ... return along the
      cursor chain that starts with `start`. */
  ghost predicate Follows<T>(server: Server<T>, limit: Option<nat>, from: nat, start: Option<Cursor>,
                             pages: seq<Page<T>>)
    decreases |pages|
  {
    pages == [] ||
    (server(from, PageRequest(start, limit)) == Ok(pages[0])
     && (|pages| > 1 ==> LeadsOn(start, pages[0]))
     && Follows(server, limit, from + 1, pages[0].next, pages[1..]))
  }

  /** The cursor asked for after `pages`. */
  function CursorAfter<T>(start: Option<Cursor>, pages: seq<Page<T>>): Option<Cursor> {
    if pages == [] then start else pages[|pages| - 1].next
  }

  /** The last page of a chain does not lead on. */
  predicate EndsHere<T>(start: Option<Cursor>, pages: seq<Page<T>>) {
    pages != [] && !LeadsOn(CursorAfter(start, pages[..|pages| - 1]), pages[|pages| - 1])
  }

  /** A whole walk: it stops at a page that does not lead on, or at the cap. */
  ghost predicate Walk<T>(server: Server<T>, limit: Option<nat>, from: nat, start: Option<Cursor>, cap: Option<nat>,
                          pages: seq<Page<T>>) {
    && Follows(server, limit, from, start, pages)
    && (cap.Some? ==> |pages| <= cap.value)
    && (EndsHere(start, pages) || cap == Some(|pages|))
  }

  function Items<T>(pages: seq<Page<T>>): seq<T> {
    if pages == [] then [] else Items(pages[..|pages| - 1]) + pages[|pages| - 1].items
  }

  ghost predicate Stateless<T>(server: Server<T>) {
    forall i: nat, j: nat, r :: server(i, r) == server(j, r)
  }

  lemma {:induction false} FollowsSnoc<T>(server: Server<T>, limit: Option<nat>, from: nat, start: Option<Cursor>,
                                          pages: seq<Page<T>>, page: Page<T>)
    ensures Follows(server, limit, from, start, pages + [page]) <==>
            Follows(server, limit, from, start, pages)
            && (pages != [] ==> LeadsOn(CursorAfter(start, pages[..|pages| - 1]), pages[|pages| - 1]))
            && server(from + |pages|, PageRequest(CursorAfter(start, pages), limit)) == Ok(page)
    decreases |pages|
  {
    if pages == [] {
      assert pages + [page] == [page];
    } else {
      var rest := pages[1..];
      assert (pages + [page])[1..] == rest + [page];
      FollowsSnoc(server, limit, from + 1, pages[0].next, rest, page);
      if rest != [] {
        assert pages[..|pages| - 1] == [pages[0]] + rest[..|rest| - 1];
      }
    }
  }

  /** A stateless server allows one walk only. */
  lemma {:induction false} WalkIsUnique<T>(server: Server<T>, limit: Option<nat>, from: nat, from': nat,
                                           start: Option<Cursor>, cap: Option<nat>,
                                           pages: seq<Page<T>>, pages': seq<Page<T>>)
    requires Stateless(server)
    requires Walk(server, limit, from, start, cap, pages) && Walk(server, limit, from', start, cap, pages')
    ensures pages == pages'
    decreases |pages|
  {
    if pages == [] || pages' == [] {
      assert pages == pages' == [];
    } else {
      assert pages[0] == pages'[0] by {
        assert server(from, PageRequest(start, limit)) == server(from', PageRequest(start, limit));
      }
      TailOfWalk(server, limit, from, start, cap, pages);
      TailOfWalk(server, limit, from', start, cap, pages');
      if |pages| > 1 && |pages'| > 1 {
        var rest := if cap.Some? then Some(cap.value - 1) else None;
        WalkIsUnique(server, limit, from + 1, from' + 1, pages[0].next, rest, pages[1..], pages'[1..]);
      }
      assert pages == [pages[0]] + pages[1..] && pages' == [pages'[0]] + pages'[1..];
    }
  }

  lemma TailOfWalk<T>(server: Server<T>, limit: Option<nat>, from: nat, start: Option<Cursor>, cap: Option<nat>,
                      pages: seq<Page<T>>)
    requires Walk(server, limit, from, start, cap, pages) && pages != []
    ensures |pages| > 1 ==>
              LeadsOn(start, pages[0])
              && Walk(server, limit, from + 1, pages[0].next, if cap.Some? then Some(cap.value - 1)
                   else None, pages[1..])
    ensures |pages| == 1 ==> !LeadsOn(start, pages[0]) || cap == Some(1)
  {
    if |pages| > 1 {
      var rest := pages[1..];
      assert pages[..|pages| - 1] == [pages[0]] + rest[..|rest| - 1];
    } else {
      assert pages[..0] == [];
    }
  }

  /** Resume: what was taken before a saved cursor, then a fresh walk from it, is
      the uninterrupted walk. */
  lemma {:induction false} ResumedWalkIsTheWalk<T>(server: Server<T>, limit: Option<nat>, start: Option<Cursor>,
                                                   taken: seq<Page<T>>, rest: seq<Page<T>>)
    requires Stateless(server)
    requires taken != [] && Follows(server, limit, 0, start, taken) && !EndsHere(start, taken)
    requires Walk(server, limit, 0, CursorAfter(start, taken), None, rest)
    ensures Walk(server, limit, 0, start, None, taken + rest)
    ensures Items(taken + rest) == Items(taken) + Items(rest)
  {
    FollowsAppend(server, limit, 0, 0, start, taken, rest);
    ItemsAppend(taken, rest);
    EndsWhereTheRestEnds(start, taken, rest);
  }

  lemma EndsWhereTheRestEnds<T>(start: Option<Cursor>, taken: seq<Page<T>>, rest: seq<Page<T>>)
    requires taken != [] && EndsHere(CursorAfter(start, taken), rest)
    ensures EndsHere(start, taken + rest)
  {
    var all := taken + rest;
    if |rest| == 1 {
      assert all[..|all| - 1] == taken;
      assert rest[..0] == [];
    } else {
      assert all[..|all| - 1] == taken + rest[..|rest| - 1];
    }
  }

  lemma {:induction false} FollowsAppend<T>(server: Server<T>, limit: Option<nat>, from: nat, from': nat,
                                            start: Option<Cursor>,
                                            taken: seq<Page<T>>, rest: seq<Page<T>>)
    requires Stateless(server)
    requires taken != [] && Follows(server, limit, from, start, taken) && !EndsHere(start, taken)
    requires Follows(server, limit, from', CursorAfter(start, taken), rest)
    ensures Follows(server, limit, from, start, taken + rest)
    decreases |taken|
  {
    var all := taken + rest;
    assert all[1..] == taken[1..] + rest;
    if |taken| == 1 {
      assert taken[..0] == [];
      assert all[1..] == rest;
      ShiftOrdinals(server, limit, from', from + 1, taken[0].next, rest);
    } else {
      assert taken[..|taken| - 1] == [taken[0]] + taken[1..][..|taken| - 2];
      FollowsAppend(server, limit, from + 1, from', taken[0].next, taken[1..], rest);
    }
  }

  lemma {:induction false} ShiftOrdinals<T>(server: Server<T>, limit: Option<nat>, from: nat, to: nat,
                                            start: Option<Cursor>, pages: seq<Page<T>>)
    requires Stateless(server)
    requires Follows(server, limit, from, start, pages)
    ensures Follows(server, limit, to, start, pages)
    decreases |pages|
  {
    if pages != [] {
      assert server(from, PageRequest(start, limit)) == server(to, PageRequest(start, limit));
      ShiftOrdinals(server, limit, from + 1, to + 1, pages[0].next, pages[1..]);
    }
  }

  lemma {:induction false} ItemsAppend<T>(a: seq<Page<T>>, b: seq<Page<T>>)
    ensures Items(a + b) == Items(a) + Items(b)
  {
    if b == [] {
      assert a + b == a;
    } else {
      var n := |b| - 1;
      assert (a + b)[..|a + b| - 1] == a + b[..n];
      ItemsAppend(a, b[..n]);
    }
  }

  /** How a walk ends: it is whole, or the next request fails. */
  ghost predicate Over<T>(server: Server<T>, limit: Option<nat>, from: nat, start: Option<Cursor>, cap: Option<nat>,
                          pages: seq<Page<T>>, failure: Option<Failure>)
  {
    match failure
    case None => Walk(server, limit, from, start, cap, pages)
    case Some(e) =>
      && Follows(server, limit, from, start, pages) && !EndsHere(start, pages)
      && server(from + |pages|, PageRequest(CursorAfter(start, pages), limit)) == Err(e)
  }

  /** Without a cap the walk is `whole`, and then over. */
  ghost predicate EndsAfter<T>(server: Server<T>, limit: Option<nat>, from: nat, start: Option<Cursor>,
                               whole: seq<Page<T>>)
  {
    exists failure :: Over(server, limit, from, start, None, whole, failure)
  }

  ghost predicate Finite<T(!new)>(server: Server<T>, limit: Option<nat>, from: nat, start: Option<Cursor>) {
    exists whole :: EndsAfter(server, limit, from, start, whole)
  }

  /** The chain leads to an item after the first `n` pages. */
  ghost predicate ItemAfter<T>(server: Server<T>, limit: Option<nat>, from: nat, start: Option<Cursor>, n: nat,
                               whole: seq<Page<T>>)
  {
    Follows(server, limit, from, start, whole) && |whole| > n && whole[|whole| - 1].items != []
  }

  /** Page `i` of a chain is the answer to the cursor before it, and leads on if
      there is another. */
  lemma {:induction false} PageAt<T>(server: Server<T>, limit: Option<nat>, from: nat, start: Option<Cursor>,
                                     pages: seq<Page<T>>, i: nat)
    requires Follows(server, limit, from, start, pages) && i < |pages|
    ensures server(from + i, PageRequest(CursorAfter(start, pages[..i]), limit)) == Ok(pages[i])
    ensures i < |pages| - 1 ==> LeadsOn(CursorAfter(start, pages[..i]), pages[i])
    decreases |pages|
  {
    if i > 0 {
      PageAt(server, limit, from + 1, pages[0].next, pages[1..], i - 1);
      assert pages[..i] == [pages[0]] + pages[1..][..i - 1];
    }
  }

  lemma {:induction false} ChainsAgree<T>(server: Server<T>, limit: Option<nat>, from: nat, start: Option<Cursor>,
                                          a: seq<Page<T>>, b: seq<Page<T>>)
    requires Follows(server, limit, from, start, a) && Follows(server, limit, from, start, b) && |a| <= |b|
    ensures a == b[..|a|]
    decreases |a|
  {
    if a != [] {
      ChainsAgree(server, limit, from + 1, a[0].next, a[1..], b[1..]);
      assert a == [a[0]] + a[1..] && b[..|a|] == [b[0]] + b[1..][..|a| - 1];
    }
  }

  /** No chain is longer than a walk that ends. */
  lemma ChainsAreShorter<T>(server: Server<T>, limit: Option<nat>, from: nat, start: Option<Cursor>,
                            pages: seq<Page<T>>, whole: seq<Page<T>>)
    requires Follows(server, limit, from, start, pages) && EndsAfter(server, limit, from, start, whole)
    ensures |pages| <= |whole|
  {
    var n := |whole|;
    if n < |pages| {
      ChainsAgree(server, limit, from, start, whole, pages);
      PageAt(server, limit, from, start, pages, n);
      if n > 0 {
        PageAt(server, limit, from, start, pages, n - 1);
      }
    }
  }

  /** A walk without a cap that nothing ends has chains of every length: without a
      finite walk, `all` goes on for ever. */
  lemma {:induction false} EndlessWalks<T(!new)>(server: Server<T>, limit: Option<nat>, from: nat,
                                                 start: Option<Cursor>, n: nat)
    returns (pages: seq<Page<T>>)
    requires !Finite(server, limit, from, start)
    ensures |pages| == n && Follows(server, limit, from, start, pages) && !EndsHere(start, pages)
    decreases n
  {
    pages := [];
    if n > 0 {
      pages := EndlessWalks(server, limit, from, start, n - 1);
      var reply := server(from + |pages|, PageRequest(CursorAfter(start, pages), limit));
      if reply.Err? {
        assert Over(server, limit, from, start, None, pages, Some(reply.error));
        assert EndsAfter(server, limit, from, start, pages);
      }
      OneMorePage(server, limit, from, start, pages, reply.value);
      var more := pages + [reply.value];
      if EndsHere(start, more) {
        assert Over(server, limit, from, start, None, more, None);
        assert EndsAfter(server, limit, from, start, more);
      }
      pages := more;
    }
  }

  /** Two cursors that lead to each other are such a walk: the guard compares a
      cursor with the one just asked for and no other. */
  lemma TwoCyclesNeverEnd<T(!new)>(server: Server<T>, limit: Option<nat>, a: Cursor, b: Cursor, from: nat)
    requires a != b
    requires forall i: nat :: Answers(server, limit, i, a, b) && Answers(server, limit, i, b, a)
    ensures !Finite(server, limit, from, Some(a))
  {
    if whole :| EndsAfter(server, limit, from, Some(a), whole) {
      var pages := CycleOf(server, limit, a, b, from, |whole| + 1);
      ChainsAreShorter(server, limit, from, Some(a), pages, whole);
    }
  }

  predicate Answers<T>(server: Server<T>, limit: Option<nat>, i: nat, asked: Cursor, next: Cursor) {
    var reply := server(i, PageRequest(Some(asked), limit));
    reply.Ok? && reply.value.next == Some(next)
  }

  lemma {:induction false} CycleOf<T>(server: Server<T>, limit: Option<nat>, a: Cursor, b: Cursor, from: nat, n: nat)
    returns (pages: seq<Page<T>>)
    requires a != b && forall i: nat :: Answers(server, limit, i, a, b) && Answers(server, limit, i, b, a)
    ensures |pages| == n && Follows(server, limit, from, Some(a), pages)
    decreases n
  {
    pages := [];
    if n > 0 {
      var rest := CycleOf(server, limit, b, a, from + 1, n - 1);
      assert Answers(server, limit, from, a, b);
      pages := [server(from, PageRequest(Some(a), limit)).value] + rest;
      assert pages[1..] == rest;
    }
  }

  /** The server has a listing: each page names the cursor of the next, none the one just
      asked for, and the last page none at all. */
  ghost predicate Lists<T>(server: Server<T>, limit: Option<nat>, from: nat, start: Option<Cursor>,
                           listing: seq<Page<T>>)
    decreases |listing|
  {
    && listing != []
    && server(from, PageRequest(start, limit)) == Ok(listing[0])
    && if |listing| == 1 then listing[0].next.None?
       else listing[0].next.Some? && listing[0].next != start
            && Lists(server, limit, from + 1, listing[0].next, listing[1..])
  }

  /** Walking a listing gives all of it. */
  lemma {:induction false} ListingIsWalked<T>(server: Server<T>, limit: Option<nat>, from: nat, start: Option<Cursor>,
                                              listing: seq<Page<T>>)
    requires Lists(server, limit, from, start, listing)
    ensures Walk(server, limit, from, start, None, listing)
    decreases |listing|
  {
    if |listing| == 1 {
      assert listing[..0] == [];
    } else {
      ListingIsWalked(server, limit, from + 1, listing[0].next, listing[1..]);
      assert listing[..|listing| - 1] == [listing[0]] + listing[1..][..|listing| - 2];
    }
  }

  /** A server that hands a cursor back is asked for that page and no other. */
  lemma EchoEnds<T>(server: Server<T>, limit: Option<nat>, from: nat, c: Cursor)
    requires Answers(server, limit, from, c, c)
    ensures Walk(server, limit, from, Some(c), None, [server(from, PageRequest(Some(c), limit)).value])
  {
    var page := server(from, PageRequest(Some(c), limit)).value;
    assert [page][1..] == [] && [page][..0] == [];
  }

  function Left(cap: Option<nat>, n: nat): Option<nat>
    requires cap.Some? ==> n <= cap.value
  {
    if cap.Some? then Some(cap.value - n) else None
  }

  // ----- the paginator -------------------------------------------------------------------------

  /** A chain that leads on, extended by the next reply. */
  lemma OneMorePage<T>(server: Server<T>, limit: Option<nat>, from: nat, start: Option<Cursor>, pages: seq<Page<T>>,
                       page: Page<T>)
    requires Follows(server, limit, from, start, pages) && !EndsHere(start, pages)
    requires server(from + |pages|, PageRequest(CursorAfter(start, pages), limit)) == Ok(page)
    ensures Follows(server, limit, from, start, pages + [page])
    ensures EndsHere(start, pages + [page]) <==> !LeadsOn(CursorAfter(start, pages), page)
    ensures CursorAfter(start, pages + [page]) == page.next
    ensures Items(pages + [page]) == Items(pages) + page.items
  {
    FollowsSnoc(server, limit, from, start, pages, page);
    assert (pages + [page])[..|pages + [page]| - 1] == pages;
  }

  class Paginator<T(!new)> {
    const server: Server<T>
    var nextCursor: Option<Cursor>
    var pageSize: Option<nat>
    var maxPages: Option<nat>
    var pagesFetched: nat
    var done: bool
    /** Requests issued: the ordinal the server sees. */
    var requests: nat

    constructor (server: Server<T>)
      ensures this.server == server && nextCursor.None? && pageSize.None? && maxPages.None?
      ensures pagesFetched == 0 && !done && requests == 0
    {
      this.server := server;
      nextCursor, pageSize, maxPages, pagesFetched, done, requests := None, None, None, 0, false, 0;
    }

    method PageSize(limit: nat)
      modifies this`pageSize
      ensures pageSize == Some(limit)
    {
      pageSize := Some(limit);
    }

    method MaxPages(max: nat)
      modifies this`maxPages
      ensures maxPages == Some(max)
    {
      maxPages := Some(max);
    }

    method StartingAfter(cursor: Cursor)
      modifies this`nextCursor
      ensures nextCursor == Some(cursor)
    {
      nextCursor := Some(cursor);
    }

    /** Pages the cap still allows. The cap is an equality test on the pages
        fetched, so one lowered below that count no longer stops anything. */
    function Remaining(): Option<nat>
      reads this
    {
      if maxPages.Some? && pagesFetched <= maxPages.value then Some(maxPages.value - pagesFetched) else None
    }

    /** One page. On an error the cursor is already taken: the next call asks for
        the first page. */
    method NextPage() returns (r: Result<Option<Page<T>>, Failure>)
      modifies this`nextCursor, this`pagesFetched, this`done, this`requests
      ensures old(done) || old(Remaining()) == Some(0) ==>
                r == Ok(None) && requests == old(requests) && pagesFetched == old(pagesFetched)
                && done == old(done) && nextCursor == old(nextCursor)
      ensures !old(done) && old(Remaining()) != Some(0) ==>
                var reply := server(old(requests), PageRequest(old(nextCursor), pageSize));
                && requests == old(requests) + 1
                && (reply.Err? ==>
                      && r == Err(reply.error) && nextCursor.None? && !done && pagesFetched == old(pagesFetched))
                && (reply.Ok? ==>
                      && r == Ok(Some(reply.value)) && pagesFetched == old(pagesFetched) + 1
                      && (done <==> !LeadsOn(old(nextCursor), reply.value))
                      && nextCursor == (if done then None else reply.value.next))
    {
      if done || maxPages == Some(pagesFetched) {
        return Ok(None);
      }
      var requested := nextCursor;
      nextCursor := None;
      var reply := server(requests, PageRequest(requested, pageSize));
      requests := requests + 1;
      if reply.Err? {
        return Err(reply.error);
      }
      var page := reply.value;
      pagesFetched := pagesFetched + 1;
      if page.next.Some? && page.next == requested {
        done := true;
      } else if page.next.Some? {
        nextCursor := page.next;
      } else {
        done := true;
      }
      return Ok(Some(page));
    }

    /** `pages` is the chain walked since request number `from`, which asked for
        `start` under a cap, and this paginator is ready to go on from there. */
    ghost predicate Along(from: nat, start: Option<Cursor>, cap: Option<nat>, pages: seq<Page<T>>)
      reads this
    {
      && Follows(server, pageSize, from, start, pages)
      && requests == from + |pages| && (cap.Some? ==> |pages| <= cap.value) && Remaining() == Left(cap, |pages|)
      && (if done then EndsHere(start, pages) else !EndsHere(start, pages) && nextCursor == CursorAfter(start, pages))
    }

    /** One page of a walk. */
    method Advance(ghost from: nat, ghost start: Option<Cursor>, ghost cap: Option<nat>, ghost pages: seq<Page<T>>)
      returns (r: Result<Option<Page<T>>, Failure>)
      requires Along(from, start, cap, pages)
      modifies this`nextCursor, this`pagesFetched, this`done, this`requests
      ensures r.Err? ==>
                && Over(server, pageSize, from, start, cap, pages, Some(r.error))
                && requests == from + |pages| + 1 && (cap.Some? ==> |pages| < cap.value)
      ensures r == Ok(None) ==>
                Along(from, start, cap, pages) && Over(server, pageSize, from, start, cap, pages, None)
      ensures r.Ok? && r.value.Some? ==> Along(from, start, cap, pages + [r.value.value])
    {
      ghost var reply := server(requests, PageRequest(nextCursor, pageSize));
      if !done && Remaining() != Some(0) && reply.Ok? {
        OneMorePage(server, pageSize, from, start, pages, reply.value);
      }
      r := NextPage();
    }

    /** Walk to the end, which without a cap there must be. */
    method All() returns (r: Result<seq<T>, Failure>, ghost pages: seq<Page<T>>)
      requires done || Remaining().Some? || Finite(server, pageSize, requests, nextCursor)
      modifies this`nextCursor, this`pagesFetched, this`done, this`requests
      ensures old(done) ==> r == Ok([]) && requests == old(requests)
      ensures !old(done) ==>
                Over(server, pageSize, old(requests), old(nextCursor), old(Remaining()), pages,
                     if r.Err? then Some(r.error) else None)
      ensures !old(done) && r.Ok? ==> r.value == Items(pages)
      ensures old(Remaining()).Some? ==> requests - old(requests) <= old(Remaining()).value
    {
      if done {
        return Ok([]), [];
      }
      ghost var whole := [];
      if Remaining().None? { whole :| EndsAfter(server, pageSize, requests, nextCursor, whole); }
      r, pages := Collect(requests, nextCursor, Remaining(), whole);
    }

    method Collect(ghost from: nat, ghost start: Option<Cursor>, ghost cap: Option<nat>, ghost whole: seq<Page<T>>)
      returns (r: Result<seq<T>, Failure>, ghost pages: seq<Page<T>>)
      requires Along(from, start, cap, []) && (cap.Some? || EndsAfter(server, pageSize, from, start, whole))
      modifies this`nextCursor, this`pagesFetched, this`done, this`requests
      ensures Over(server, pageSize, from, start, cap, pages, if r.Err? then Some(r.error) else None)
      ensures r.Ok? ==> r.value == Items(pages)
      ensures cap.Some? ==> requests - from <= cap.value
    {
      var out: seq<T> := [];
      pages := [];
      while true
        invariant Along(from, start, cap, pages) && out == Items(pages)
        decreases (if cap.Some? then cap.value else |whole|) - |pages|
      {
        if cap.None? { ChainsAreShorter(server, pageSize, from, start, pages, whole); }
        var next := Advance(from, start, cap, pages);
        if next.Err? {
          return Err(next.error), pages;
        }
        if next.value.None? {
          return Ok(out), pages;
        }
        var page := next.value.value;
        assert (pages + [page])[..|pages|] == pages;
        out, pages := out + page.items, pages + [page];
      }
    }
  }

  // ----- the item stream ------------------------------------------------------------------------

  /** `into_stream`: one item at a time, a page fetched only when needed, and
      nothing more after the end or the first error. */
  class ItemStream<T(!new)> {
    const pager: Paginator<T>
    var items: seq<T>
    var ended: bool
    ghost const from: nat
    ghost const start: Option<Cursor>
    ghost const cap: Option<nat>
    ghost var pages: seq<Page<T>>
    ghost var taken: seq<T>

    ghost predicate Valid()
      reads this, pager
    {
      && Follows(pager.server, pager.pageSize, from, start, pages)
      && Items(pages) == taken + items
      && (cap.Some? ==> |pages| <= cap.value && pager.requests <= from + cap.value)
      && (!ended ==> pager.Along(from, start, cap, pages))
    }

    constructor (pager: Paginator<T>)
      requires !pager.done
      ensures Valid() && this.pager == pager && !ended && pages == [] && taken == []
      ensures from == pager.requests && start == pager.nextCursor && cap == pager.Remaining()
    {
      this.pager := pager;
      items, ended := [], false;
      from, start, cap := pager.requests, pager.nextCursor, pager.Remaining();
      pages, taken := [], [];
    }

    /** The items are used up: get the next page, or end. */
    method Refill() returns (failure: Option<Failure>)
      requires Valid() && !ended && items == []
      modifies this, pager`nextCursor, pager`pagesFetched, pager`done, pager`requests
      ensures Valid() && taken == old(taken)
      ensures !ended ==>
                failure.None? && |pages| == |old(pages)| + 1 && old(pages) <= pages && items == pages[|pages| - 1].items
      ensures ended ==> items == [] && pages == old(pages) && taken == Items(pages)
      ensures ended ==> Over(pager.server, pager.pageSize, from, start, cap, pages, failure)
    {
      var next := pager.Advance(from, start, cap, pages);
      assert taken + [] == taken;
      if next.Err? {
        ended, failure := true, Some(next.error);
      } else if next.value.None? {
        ended, failure := true, None;
      } else {
        Buffer(next.value.value);
        failure := None;
      }
    }

    /** The page just fetched is the next one to take items from. */
    method Buffer(page: Page<T>)
      requires !ended && Items(pages) == taken && pager.Along(from, start, cap, pages + [page])
      modifies this`items, this`pages
      ensures Valid() && items == page.items && pages == old(pages) + [page]
    {
      assert (pages + [page])[..|pages|] == pages;
      items, pages := page.items, pages + [page];
    }

    /** `whole` leads from here to an item or the end. */
    ghost predicate Supplied(whole: seq<Page<T>>)
      reads this, pager
    {
      || EndsAfter(pager.server, pager.pageSize, from, start, whole)
      || ItemAfter(pager.server, pager.pageSize, from, start, |pages|, whole)
    }

    /** Something is there to come, so that the next call returns. */
    ghost predicate Ready()
      reads this, pager
    {
      ended || items != [] || cap.Some? || exists whole :: Supplied(whole)
    }

    /** A page without items that is not the end is not the last of `whole`. */
    lemma StillSupplied(whole: seq<Page<T>>, n: nat)
      requires Valid() && !ended && pages != [] && pages[|pages| - 1].items == []
      requires n < |pages|
      requires EndsAfter(pager.server, pager.pageSize, from, start, whole)
               || (ItemAfter(pager.server, pager.pageSize, from, start, n, whole) && |pages| <= |whole|)
      ensures Supplied(whole)
    {
      if !EndsAfter(pager.server, pager.pageSize, from, start, whole) {
        ChainsAgree(pager.server, pager.pageSize, from, start, pages, whole);
      }
    }

    lemma WithinSupply(whole: seq<Page<T>>)
      requires Valid() && !ended && Supplied(whole)
      ensures |pages| <= |whole|
    {
      if EndsAfter(pager.server, pager.pageSize, from, start, whole) {
        ChainsAreShorter(pager.server, pager.pageSize, from, start, pages, whole);
      }
    }

    /** Get pages until there is an item, the end or an error. */
    method Fill() returns (failure: Option<Failure>)
      requires Valid() && !ended && Ready()
      modifies this, pager`nextCursor, pager`pagesFetched, pager`done, pager`requests
      ensures Valid() && taken == old(taken) && old(pages) <= pages
      ensures old(items) != [] ==> items == old(items) && pager.requests == old(pager.requests) && !ended
      ensures if ended then items == [] && taken == Items(pages) else items != [] && failure.None?
      ensures ended ==> Over(pager.server, pager.pageSize, from, start, cap, pages, failure)
    {
      failure := None;
      ghost var whole := [];
      if items == [] && cap.None? { whole :| Supplied(whole); }
      while items == [] && !ended
        invariant Valid() && taken == old(taken) && old(pages) <= pages
        invariant old(items) != [] ==> items == old(items) && pager.requests == old(pager.requests) && !ended
        invariant !ended ==> failure.None?
        invariant ended ==> items == [] && taken == Items(pages)
        invariant ended ==> Over(pager.server, pager.pageSize, from, start, cap, pages, failure)
        invariant !ended && items == [] && cap.None? ==> Supplied(whole)
        decreases !ended, (if cap.Some? then cap.value else |whole|) - |pages|
      {
        if cap.None? { WithinSupply(whole); }
        ghost var n := |pages|;
        failure := Refill();
        if !ended && items == [] && cap.None? { StillSupplied(whole, n); }
      }
    }

    method Next() returns (r: Option<Result<T, Failure>>)
      requires Valid() && Ready()
      modifies this, pager`nextCursor, pager`pagesFetched, pager`done, pager`requests
      ensures Valid()
      ensures old(ended) ==> r.None? && ended && pager.requests == old(pager.requests) && taken == old(taken)
      ensures !old(ended) && old(items) != [] ==> r == Some(Ok(old(items)[0])) && pager.requests == old(pager.requests)
      ensures r.Some? && r.value.Ok? ==> !ended && taken == old(taken) + [r.value.value] && old(pages) <= pages
      ensures !old(ended) && r.None? ==>
                ended && Walk(pager.server, pager.pageSize, from, start, cap, pages)
                    && taken == old(taken) == Items(pages)
      ensures r.Some? && r.value.Err? ==>
                && ended && taken == old(taken) == Items(pages)
                && Over(pager.server, pager.pageSize, from, start, cap, pages, Some(r.value.error))
    {
      if ended {
        return None;
      }
      var failure := Fill();
      if ended {
        r := if failure.Some? then Some(Err(failure.value)) else None;
      } else {
        var item := TakeOne();
        r := Some(Ok(item));
      }
    }

    method TakeOne() returns (item: T)
      requires Valid() && !ended && items != []
      modifies this`items, this`taken
      ensures Valid() && item == old(items)[0] && taken == old(taken) + [item]
    {
      item := items[0];
      taken, items := taken + [item], items[1..];
    }
  }
}

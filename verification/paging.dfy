/**
 * The paged listings of the game clients: a loop that sets the page's
 * parameters with the `DS` flag on, awaits `send`, reads the reply as a page
 * and goes on while the page asks for more. A reply that does not read ends
 * the loop by throwing, so nothing gathered so far is returned.
 *
 * The loop here returns the pages it read; the caller builds its result
 * from them.
 */
module Paging {
  import opened Wrappers
  import opened Dicts
  import opened Js
  import opened Request
  import opened Calls

  /**
   * One listing: its route; the parameters of page `k` given the page before
   * it (`None` on the first); how a reply reads as a page; and whether a page
   * asks for the next one.
   */
  datatype Pager<!P> = Pager(
    route: string,
    ask: (nat, Option<P>) -> Dict<Value>,
    decode: Result<Envelope> -> Result<P>,
    more: P -> bool)

  /** The parameters of page `k` after page `prev`. */
  function Ask<P>(pg: Pager<P>, k: nat, prev: Option<P>): Dict<Value>
  {
    pg.ask(k, prev)
  }

  /** Page `p` asks for the next one. */
  predicate Wants<P>(pg: Pager<P>, p: P)
  {
    pg.more(p)
  }

  /** Every page of `seen` asks for the next one. */
  predicate AllWant<P>(pg: Pager<P>, seen: seq<P>)
    decreases |seen|
  {
    |seen| == 0 || (AllWant(pg, seen[..|seen| - 1]) && Wants(pg, seen[|seen| - 1]))
  }

  /** `AllWant` holds exactly when each page asks for the next one. */
  lemma {:induction false} AllWantEach<P>(pg: Pager<P>, seen: seq<P>)
    ensures AllWant(pg, seen) <==> forall i :: 0 <= i < |seen| ==> Wants(pg, seen[i])
    decreases |seen|
  {
    if |seen| > 0 {
      var front := seen[..|seen| - 1];
      AllWantEach(pg, front);
      assert forall i :: 0 <= i < |front| ==> front[i] == seen[i];
    }
  }

  /** What the reply to a request in state `st` reads as. */
  function Reply<P>(pg: Pager<P>, send: Exchange, st: Pending): Result<P>
  {
    pg.decode(send(Call(pg.route, GET, st)))
  }

  /** The request state handed to the `k`-th `send` (from 0) of a walk that began in `start`. */
  function Asked<P>(pg: Pager<P>, send: Exchange, start: Pending, k: nat): Pending
    decreases k
  {
    if k == 0 then Queried(start, Ask(pg, 0, None), true)
    else
      var prev := Asked(pg, send, start, k - 1);
      var last := Reply(pg, send, prev);
      Queried(prev, Ask(pg, k, if last.Ok? then Some(last.value) else None), true)
  }

  /** What the `k`-th reply reads as. */
  function PageAt<P>(pg: Pager<P>, send: Exchange, start: Pending, k: nat): Result<P>
  {
    Reply(pg, send, Asked(pg, send, start, k))
  }

  /** The walk leaves after page `k`: it did not read, or it asked for no more. */
  predicate StopsAt<P>(pg: Pager<P>, send: Exchange, start: Pending, k: nat)
  {
    PageAt(pg, send, start, k).Err? || !Wants(pg, PageAt(pg, send, start, k).value)
  }

  /** What the first `k` replies read as, in order. */
  function Replies<P>(pg: Pager<P>, send: Exchange, start: Pending, k: nat): (rs: seq<Result<P>>)
    ensures |rs| == k
    decreases k
  {
    if k == 0 then [] else Replies(pg, send, start, k - 1) + [PageAt(pg, send, start, k - 1)]
  }

  /** Pages that read, as replies. */
  function Read<P>(seen: seq<P>): (rs: seq<Result<P>>)
    ensures |rs| == |seen|
    ensures forall i :: 0 <= i < |seen| ==> rs[i] == Ok(seen[i])
    decreases |seen|
  {
    if |seen| == 0 then [] else Read(seen[..|seen| - 1]) + [Ok(seen[|seen| - 1])]
  }

  /** The `i`-th of the first `k` replies is the `i`-th reply. */
  lemma {:induction false} RepliesAt<P>(pg: Pager<P>, send: Exchange, start: Pending, k: nat, i: nat)
    requires i < k
    ensures Replies(pg, send, start, k)[i] == PageAt(pg, send, start, i)
    decreases k
  {
    if i < k - 1 {
      RepliesAt(pg, send, start, k - 1, i);
    }
  }

  /** The page after one that reads asks with that page. */
  lemma AskedNext<P>(pg: Pager<P>, send: Exchange, start: Pending, k: nat)
    requires PageAt(pg, send, start, k).Ok?
    ensures Asked(pg, send, start, k + 1) == Queried(Asked(pg, send, start, k), Ask(pg, k + 1, Some(PageAt(pg, send, start, k).value)), true)
  {
  }

  /** The request state once the first `n` pages have been asked for. */
  function StateAfter<P>(pg: Pager<P>, send: Exchange, start: Pending, n: nat): Pending
  {
    if n == 0 then start else Asked(pg, send, start, n - 1)
  }

  /** The page before page `k`, when there is one and it read. */
  function PrevPage<P>(pg: Pager<P>, send: Exchange, start: Pending, k: nat): Option<P>
  {
    if k == 0 then None
    else
      var last := PageAt(pg, send, start, k - 1);
      if last.Ok? then Some(last.value) else None
  }

  /** Page `k` sets its parameters, with `DS` on, over the state the pages before it left. */
  lemma AskedShape<P>(pg: Pager<P>, send: Exchange, start: Pending, k: nat)
    ensures Asked(pg, send, start, k) == Queried(StateAfter(pg, send, start, k), Ask(pg, k, PrevPage(pg, send, start, k)), true)
  {
  }

  /**
   * One more page that reads extends the replies read so far, and, when it
   * asks for more, the pages that all ask for more.
   */
  lemma RepliesStep<P>(pg: Pager<P>, send: Exchange, start: Pending, pages: seq<P>, page: P)
    requires Replies(pg, send, start, |pages|) == Read(pages) && AllWant(pg, pages)
    requires PageAt(pg, send, start, |pages|) == Ok(page)
    ensures Replies(pg, send, start, |pages + [page]|) == Read(pages + [page])
    ensures (pages + [page])[..|pages|] == pages
    ensures Wants(pg, page) ==> AllWant(pg, pages + [page])
  {
    assert (pages + [page])[..|pages|] == pages;
  }

  /** A page that reads and asks for more is not where the walk stops. */
  lemma Beyond<P>(pg: Pager<P>, send: Exchange, start: Pending, k: nat, bound: nat)
    requires StopsAt(pg, send, start, bound)
    requires PageAt(pg, send, start, k).Ok? && Wants(pg, PageAt(pg, send, start, k).value)
    ensures k != bound
  {
  }

  /**
   * One page of the walk: its parameters after the page before (`prev`),
   * the `DS` flag on, one `send`, and the reply read as a page.
   */
  method Step<P>(request: HTTPRequest, pg: Pager<P>, send: Exchange, ghost start: Pending, ghost pages: seq<P>, k: nat, prev: Option<P>)
      returns (page: Result<P>)
    requires k == |pages| && Replies(pg, send, start, k) == Read(pages)
    requires request.State() == StateAfter(pg, send, start, k)
    requires prev == if k == 0 then None else Some(pages[k - 1])
    modifies request
    ensures request.State() == StateAfter(pg, send, start, k + 1)
    ensures page == PageAt(pg, send, start, k)
  {
    if k > 0 {
      RepliesAt(pg, send, start, k, k - 1);
      AskedNext(pg, send, start, k - 1);
    }
    var self := request.SetQueryParams(Ask(pg, k, prev));
    self := self.SetDs(true);
    page := Reply(pg, send, request.State());
  }

  /**
   * The walk, on `request` as it stands. `seen` holds the pages that read,
   * in order, each but the last asking for more. When a reply does not
   * read, the walk rejects with its failure; otherwise the last page is the
   * first that asks for no more, and the walk resolves with all the pages.
   * The listing is assumed to end: otherwise the walk never does.
   */
  method Walk<P>(request: HTTPRequest, pg: Pager<P>, send: Exchange) returns (r: Result<seq<P>>, ghost seen: seq<P>)
    requires exists k: nat :: StopsAt(pg, send, request.State(), k)
    modifies request
    ensures Replies(pg, send, old(request.State()), |seen|) == Read(seen)
    ensures r.Err? ==>
      && AllWant(pg, seen)
      && PageAt(pg, send, old(request.State()), |seen|) == Err(r.error)
      && request.State() == StateAfter(pg, send, old(request.State()), |seen| + 1)
    ensures r.Ok? ==>
      && r.value == seen && |seen| > 0 && AllWant(pg, seen[..|seen| - 1]) && !Wants(pg, seen[|seen| - 1])
      && request.State() == StateAfter(pg, send, old(request.State()), |seen|)
  {
    ghost var start := request.State();
    ghost var bound: nat :| StopsAt(pg, send, start, bound);
    var pages: seq<P> := [];
    seen := [];
    var k: nat := 0;
    while true
      invariant k == |pages| <= bound && seen == pages
      invariant Replies(pg, send, start, k) == Read(pages)
      invariant AllWant(pg, pages)
      invariant request.State() == StateAfter(pg, send, start, k)
      decreases bound - k
    {
      var page := Step(request, pg, send, start, pages, k, if k == 0 then None else Some(pages[k - 1]));
      if page.Err? {
        r := Err(page.error);
        assert PageAt(pg, send, start, |seen|) == Err(r.error);
        assert request.State() == StateAfter(pg, send, start, |seen| + 1);
        return;
      }
      RepliesStep(pg, send, start, pages, page.value);
      pages := pages + [page.value];
      seen := pages;
      if !Wants(pg, page.value) {
        r := Ok(pages);
        assert request.State() == StateAfter(pg, send, start, |seen|);
        return;
      }
      Beyond(pg, send, start, k, bound);
      k := k + 1;
    }
  }
  /** The items of the pages read, page after page. */
  function Gathered<P, T>(seen: seq<P>, items: P -> seq<T>): (r: seq<T>)
    ensures |seen| == 1 ==> r == items(seen[0])
    decreases |seen|
  {
    if |seen| == 0 then [] else Gathered(seen[..|seen| - 1], items) + items(seen[|seen| - 1])
  }

  /** The items of the first pages come first, unchanged. */
  lemma {:induction false} GatheredPrefix<P, T>(seen: seq<P>, items: P -> seq<T>, i: nat)
    requires i <= |seen|
    ensures Gathered(seen[..i], items) <= Gathered(seen, items)
    decreases |seen|
  {
    if i < |seen| {
      assert seen[..i] == seen[..|seen| - 1][..i];
      GatheredPrefix(seen[..|seen| - 1], items, i);
    } else {
      assert seen[..i] == seen;
    }
  }

  /** An item is gathered exactly when some page read carries it. */
  lemma {:induction false} GatheredMember<P, T>(seen: seq<P>, items: P -> seq<T>, x: T)
    ensures x in Gathered(seen, items) <==> exists i :: 0 <= i < |seen| && x in items(seen[i])
    decreases |seen|
  {
    if |seen| > 0 {
      var front := seen[..|seen| - 1];
      GatheredMember(front, items, x);
      if x in Gathered(front, items) {
        var i :| 0 <= i < |front| && x in items(front[i]);
        assert seen[i] == front[i];
      }
      if exists i :: 0 <= i < |seen| && x in items(seen[i]) {
        var i :| 0 <= i < |seen| && x in items(seen[i]);
        if i < |front| {
          assert x in items(front[i]);
        }
      }
    }
  }
}

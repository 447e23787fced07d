/**
 * The `while page < total_pages` loop that the first-generation REST and GraphQL clients each
 * spell out for characters and for locations: fetch page 1, read its page total, report
 * progress (which divides by that total), then fetch pages 2, 3, … while below the total.
 */
module PageLoop {
  import opened Wrappers
  import opened Utils
  import opened BaseClient
  import Config

  /** One page as these clients see it: its parsed items and the page total its `info` reports. */
  datatype PageView<+T> = PageView(items: seq<T>, totalPages: int)

  /** `while page < total_pages: page += 1; …` from the current `page` on. */
  function RemainingPages<T>(fetchPage: int -> Result<PageView<T>, Error>, page: int, total: int): FetchRun<T>
    decreases total - page
  {
    if page >= total then FetchRun(Ok([]), [])
    else
      var next := fetchPage(page + 1);
      if next.Err? then FetchRun(Err(next.error), [page + 1])
      else
        var rest := RemainingPages(fetchPage, page + 1, total);
        FetchRun(Prepend(next.value.items, rest.result), [page + 1] + rest.requested)
  }

  /**
   * The whole fetch.  `ProgressTracker(total_pages).update(1)` runs after page 1 and divides
   * by the total, so a reported total of 0 raises ZeroDivisionError.
   */
  function FetchUpToTotal<T>(fetchPage: int -> Result<PageView<T>, Error>): FetchRun<T> {
    var first := fetchPage(1);
    if first.Err? then FetchRun(Err(first.error), [1])
    else if Config.EnableProgress && first.value.totalPages == 0 then FetchRun(Err(ZeroDivisionError), [1])
    else
      var rest := RemainingPages(fetchPage, 1, first.value.totalPages);
      FetchRun(Prepend(first.value.items, rest.result), [1] + rest.requested)
  }

  /** The loop itself, extending the list page by page. */
  method FetchWhileBelowTotal<T>(fetchPage: int -> Result<PageView<T>, Error>)
    returns (result: Result<seq<T>, Error>, requested: seq<int>)
    ensures FetchRun(result, requested) == FetchUpToTotal(fetchPage)
  {
    requested := [1];
    var first := fetchPage(1);
    if first.Err? {
      return Err(first.error), requested;
    }
    var all := first.value.items;
    var total := first.value.totalPages;
    if Config.EnableProgress && total == 0 {
      return Err(ZeroDivisionError), requested;
    }
    var page := 1;
    while page < total
      invariant 1 <= page
      invariant FetchUpToTotal(fetchPage)
             == FetchRun(Prepend(all, RemainingPages(fetchPage, page, total).result),
                         requested + RemainingPages(fetchPage, page, total).requested)
      decreases total - page
    {
      assert requested + ([page + 1] + RemainingPages(fetchPage, page + 1, total).requested)
          == (requested + [page + 1]) + RemainingPages(fetchPage, page + 1, total).requested;
      page := page + 1;
      requested := requested + [page];
      var next := fetchPage(page);
      if next.Err? {
        return Err(next.error), requested;
      }
      PrependPrepend(all, next.value.items, RemainingPages(fetchPage, page, total).result);
      all := all + next.value.items;
    }
    assert all + [] == all && requested + [] == requested;
    result := Ok(all);
  }

  /** The items of pages `lo..hi-1`, concatenated in page order. */
  function CollectViews<T>(fetchPage: int -> Result<PageView<T>, Error>, lo: int, hi: int): seq<T>
    requires forall p :: lo <= p < hi ==> fetchPage(p).Ok?
    decreases hi - lo
  {
    if hi <= lo then [] else fetchPage(lo).value.items + CollectViews(fetchPage, lo + 1, hi)
  }

  lemma RemainingPagesFacts<T>(fetchPage: int -> Result<PageView<T>, Error>, page: int, total: int)
    ensures var run := RemainingPages(fetchPage, page, total);
      && (run.result.Ok? <==> forall p :: page < p <= total ==> fetchPage(p).Ok?)
      && (run.result.Ok? ==> run.result.value == CollectViews(fetchPage, page + 1, total + 1)
                             && run.requested == Range(page + 1, total + 1))
      && (run.result.Err? ==> exists q :: (page < q <= total && run.requested == Range(page + 1, q + 1)
            && (forall p :: page < p < q ==> fetchPage(p).Ok?)
            && fetchPage(q).Err? && run.result.error == fetchPage(q).error))
  {
    RemainingPagesOk(fetchPage, page, total);
    RemainingPagesErr(fetchPage, page, total);
  }

  /** The remaining pages succeed exactly when every one of them does, with all their items. */
  lemma {:induction false} RemainingPagesOk<T>(fetchPage: int -> Result<PageView<T>, Error>, page: int, total: int)
    ensures var run := RemainingPages(fetchPage, page, total);
      && (run.result.Ok? <==> forall p :: page < p <= total ==> fetchPage(p).Ok?)
      && (run.result.Ok? ==> run.result.value == CollectViews(fetchPage, page + 1, total + 1)
                             && run.requested == Range(page + 1, total + 1))
    decreases total - page
  {
    if page < total && fetchPage(page + 1).Ok? {
      RemainingPagesOk(fetchPage, page + 1, total);
      assert [page + 1] + Range(page + 2, total + 1) == Range(page + 1, total + 1);
    }
  }

  /** A failure stops the remaining pages at the first failing page, with that page's error. */
  lemma {:induction false} RemainingPagesErr<T>(fetchPage: int -> Result<PageView<T>, Error>, page: int, total: int)
    ensures var run := RemainingPages(fetchPage, page, total);
      run.result.Err? ==> exists q :: (page < q <= total && run.requested == Range(page + 1, q + 1)
            && (forall p :: page < p < q ==> fetchPage(p).Ok?)
            && fetchPage(q).Err? && run.result.error == fetchPage(q).error)
    decreases total - page
  {
    if page < total && fetchPage(page + 1).Ok? {
      RemainingPagesErr(fetchPage, page + 1, total);
      var rest := RemainingPages(fetchPage, page + 1, total);
      if rest.result.Err? {
        var q :| page + 1 < q <= total && rest.requested == Range(page + 2, q + 1)
            && (forall p :: page + 1 < p < q ==> fetchPage(p).Ok?)
            && fetchPage(q).Err? && rest.result.error == fetchPage(q).error;
        assert [page + 1] + Range(page + 2, q + 1) == Range(page + 1, q + 1);
      }
    } else if page < total {
      assert Range(page + 1, page + 2) == [page + 1];
    }
  }

  /**
   * What the loop promises.  A failure on page 1 propagates after that one request; a reported
   * total of 0 raises ZeroDivisionError after it.  Otherwise, with `n = max(1, total)`: pages
   * `1, 2, …` are requested in ascending order and never above `n`; the fetch succeeds exactly
   * when pages `2..n` do, having then made `n` requests and returned the pages' items in page
   * order; the first failing page `q` ends it with that page's own error, unwrapped.
   */
  lemma FetchUpToTotalContract<T>(fetchPage: int -> Result<PageView<T>, Error>)
    ensures var run := FetchUpToTotal(fetchPage);
      && (fetchPage(1).Err? ==> run == FetchRun(Err(fetchPage(1).error), [1]))
      && (fetchPage(1).Ok? && fetchPage(1).value.totalPages == 0 ==> run == FetchRun(Err(ZeroDivisionError), [1]))
      && (fetchPage(1).Ok? && fetchPage(1).value.totalPages != 0 ==>
            var n := Max(1, fetchPage(1).value.totalPages);
            && (forall i :: 0 <= i < |run.requested| ==> run.requested[i] == i + 1 <= n)
            && (run.result.Ok? <==> forall p :: 1 <= p <= n ==> fetchPage(p).Ok?)
            && (run.result.Ok? ==> run.result.value == CollectViews(fetchPage, 1, n + 1) && |run.requested| == n)
            && (run.result.Err? ==> exists q :: (2 <= q <= n && run.requested == Range(1, q + 1)
                  && fetchPage(q).Err? && run.result.error == fetchPage(q).error)))
  {
    if fetchPage(1).Ok? && fetchPage(1).value.totalPages != 0 {
      var total := fetchPage(1).value.totalPages;
      RemainingPagesFacts(fetchPage, 1, total);
      if total > 1 {
        ManyPages(fetchPage, total);
      } else {
        assert CollectViews(fetchPage, 1, 2) == fetchPage(1).value.items + [];
      }
    }
  }

  lemma ManyPages<T>(fetchPage: int -> Result<PageView<T>, Error>, total: int)
    requires fetchPage(1).Ok? && fetchPage(1).value.totalPages == total > 1
    ensures var run := FetchUpToTotal(fetchPage);
            && (forall i :: 0 <= i < |run.requested| ==> run.requested[i] == i + 1 <= total)
            && (run.result.Ok? <==> forall p :: 1 <= p <= total ==> fetchPage(p).Ok?)
            && (run.result.Ok? ==> run.result.value == CollectViews(fetchPage, 1, total + 1) && |run.requested| == total)
            && (run.result.Err? ==> exists q :: (2 <= q <= total && run.requested == Range(1, q + 1)
                  && fetchPage(q).Err? && run.result.error == fetchPage(q).error))
  {
    RemainingPagesFacts(fetchPage, 1, total);
    var rest := RemainingPages(fetchPage, 1, total);
    if rest.result.Err? {
      var q :| 1 < q <= total && rest.requested == Range(2, q + 1)
          && (forall p :: 1 < p < q ==> fetchPage(p).Ok?)
          && fetchPage(q).Err? && rest.result.error == fetchPage(q).error;
      assert [1] + Range(2, q + 1) == Range(1, q + 1);
    } else {
      assert [1] + Range(2, total + 1) == Range(1, total + 1);
    }
  }
}

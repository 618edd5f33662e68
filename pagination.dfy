/**
 * The paging loop both bots run against the contents endpoint: ask for
 * page 1, 2, 3, ... and stop at the first page that comes back empty.
 * A page source is a sequence of pages; page `n` (counted from 1) is
 * `pages[n - 1]`, and every page past the end is empty, which is also what
 * the endpoint answers on any failure.
 */
module Pagination {
  import opened Wrappers

  /** The answer for page `n`. */
  function PageAt<T>(pages: seq<seq<T>>, n: nat): seq<T>
  {
    if 1 <= n <= |pages| then pages[n - 1] else []
  }

  /** All items of `pages`, page after page. */
  function Flatten<T>(pages: seq<seq<T>>): seq<T>
  {
    if pages == [] then [] else Flatten(pages[..|pages| - 1]) + pages[|pages| - 1]
  }

  lemma {:induction false} FlattenAppend<T>(a: seq<seq<T>>, b: seq<seq<T>>)
    ensures Flatten(a + b) == Flatten(a) + Flatten(b)
  {
    if b == [] {
      assert a + b == a;
    } else {
      var init, last := b[..|b| - 1], b[|b| - 1];
      calc {
        Flatten(a + b);
        { assert (a + b)[..|a + b| - 1] == a + init; assert (a + b)[|a + b| - 1] == last; }
        Flatten(a + init) + last;
        { FlattenAppend(a, init); }
        (Flatten(a) + Flatten(init)) + last;
        { AppendAssoc(Flatten(a), Flatten(init), last); }
        Flatten(a) + Flatten(b);
      }
    }
  }

  /**
   * The pages before the first empty one: a prefix of `pages`, each of its
   * pages non-empty, and the page right after it is empty.
   */
  function FilledPages<T>(pages: seq<seq<T>>): (r: seq<seq<T>>)
    ensures |r| <= |pages| && r == pages[..|r|]
    ensures forall k | 0 <= k < |r| :: r[k] != []
    ensures PageAt(pages, |r| + 1) == []
  {
    if pages == [] || pages[0] == [] then [] else [pages[0]] + FilledPages(pages[1..])
  }

  /** The three properties in `FilledPages`' contract determine it. */
  lemma {:induction false} FilledPagesUnique<T>(pages: seq<seq<T>>, q: seq<seq<T>>)
    requires |q| <= |pages| && q == pages[..|q|]
    requires forall k | 0 <= k < |q| :: q[k] != []
    requires PageAt(pages, |q| + 1) == []
    ensures q == FilledPages(pages)
  {
    if q != [] {
      assert pages[0] == q[0];
      assert PageAt(pages[1..], |q[1..]| + 1) == PageAt(pages, |q| + 1);
      FilledPagesUnique(pages[1..], q[1..]);
      assert q == [q[0]] + q[1..];
    }
  }

  /** Whatever any page after the first empty one holds, it is never read. */
  lemma LaterPagesIgnored<T>(pages: seq<seq<T>>, k: nat, rest: seq<seq<T>>)
    requires |FilledPages(pages)| < k <= |pages|
    ensures FilledPages(pages[..k] + rest) == FilledPages(pages)
  {
    var q, p' := FilledPages(pages), pages[..k] + rest;
    assert q == p'[..|q|];
    assert PageAt(p', |q| + 1) == PageAt(pages, |q| + 1);
    FilledPagesUnique(p', q);
  }

  /** The items of one more page follow those of the pages before it. */
  lemma FlattenStep<T>(pages: seq<seq<T>>, n: nat)
    requires 1 <= n <= |pages|
    ensures Flatten(pages[..n]) == Flatten(pages[..n - 1]) + pages[n - 1]
  {
    assert pages[..n][..n - 1] == pages[..n - 1];
  }

  /** Reading page `page` while no empty page has been seen yet. */
  lemma PageRead<T>(pages: seq<seq<T>>, page: nat)
    requires 1 <= page <= |FilledPages(pages)| + 1
    ensures PageAt(pages, page) == [] <==> page == |FilledPages(pages)| + 1
    ensures page <= |FilledPages(pages)| ==> PageAt(pages, page) == FilledPages(pages)[page - 1]
  {
  }

  /**
   * The loop `while True: content = fetch(page); if not content: break;
   * all_data.extend(content); page += 1`. `all` is every item of the pages
   * before the first empty page, in order; `requested` lists the page
   * numbers asked for: 1, 2, ... up to and including that empty page.
   */
  method Aggregate<T>(pages: seq<seq<T>>) returns (all: seq<T>, requested: seq<nat>)
    ensures all == Flatten(FilledPages(pages))
    ensures |requested| == |FilledPages(pages)| + 1
    ensures forall k | 0 <= k < |requested| :: requested[k] == k + 1
  {
    ghost var filled := FilledPages(pages);
    all, requested := [], [];
    var page: nat := 1;
    while true
      invariant 1 <= page <= |filled| + 1
      invariant all == Flatten(filled[..page - 1])
      invariant |requested| == page - 1
      invariant forall k | 0 <= k < |requested| :: requested[k] == k + 1
      decreases |filled| + 1 - page
    {
      var content := PageAt(pages, page);
      PageRead(pages, page);
      requested := requested + [page];
      if content == [] {
        break;
      }
      FlattenStep(filled, page);
      all := all + content;
      page := page + 1;
    }
    assert filled[..page - 1] == filled;
  }
}

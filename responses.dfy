/** The paginated response shape and `paginate` from src/types/responses.ts.

    `paginate` is an async generator; the model drains it completely. The
    page source is a script: its k-th call answers `pages[k]`, and the
    tokens it was called with are returned for inspection. */
module Responses {
  import opened Js

  datatype Meta = Meta(page: int, pageSize: int, total: int,
                       nextPageUrl: Option<string>, prevPageUrl: Option<string>)

  datatype Page<T> = Page(data: seq<T>, meta: Meta)

  /** `while (pageToken)`: an absent or empty next link ends the loop. */
  predicate HasNext<T>(p: Page<T>) {
    p.meta.nextPageUrl.Some? && p.meta.nextPageUrl.value != ""
  }

  /** A fetch after which `paginate` requests nothing more: it rejected, or
      its page has no next link. */
  predicate Stops<T>(fetched: Result<Page<T>>) {
    fetched.Throw? || !HasNext(fetched.value)
  }

  /** Some fetch of the script ends the pagination. */
  predicate Ends<T>(pages: seq<Result<Page<T>>>) {
    exists i :: 0 <= i < |pages| && Stops(pages[i])
  }

  /** The first fetch that stops the pagination: the last one `paginate` makes. */
  function FirstFinal<T>(pages: seq<Result<Page<T>>>): (f: nat)
    requires Ends(pages)
    ensures f < |pages| && Stops(pages[f])
    ensures forall j :: 0 <= j < f ==> !Stops(pages[j])
  {
    if Stops(pages[0]) then 0
    else
      assert Ends(pages[1..]) by {
        var i :| 0 <= i < |pages| && Stops(pages[i]);
        assert pages[1..][i - 1] == pages[i];
      }
      var f := 1 + FirstFinal(pages[1..]);
      assert forall j :: 1 <= j < f ==> pages[j] == pages[1..][j - 1];
      f
  }

  /** The items a fetch yields: its page's data, or nothing when it rejected. */
  function Data<T>(fetched: Result<Page<T>>): seq<T> {
    if fetched.Ok? then fetched.value.data else []
  }

  /** The items of the given fetches, fetch after fetch, each page in order. */
  function Flatten<T>(pages: seq<Result<Page<T>>>): seq<T> {
    if pages == [] then [] else Flatten(pages[..|pages| - 1]) + Data(pages[|pages| - 1])
  }

  lemma {:induction false} FlattenAppend<T>(a: seq<Result<Page<T>>>, b: seq<Result<Page<T>>>)
    ensures Flatten(a + b) == Flatten(a) + Flatten(b)
    decreases |b|
  {
    if b == [] {
      assert a + b == a;
    } else {
      assert (a + b)[..|a + b| - 1] == a + b[..|b| - 1];
      FlattenAppend(a, b[..|b| - 1]);
    }
  }

  /** Every item of the pages appears, and at its page's offset. */
  lemma {:induction false} FlattenPlacesPage<T>(pages: seq<Result<Page<T>>>, k: nat)
    requires k < |pages|
    ensures Flatten(pages) == Flatten(pages[..k]) + Data(pages[k]) + Flatten(pages[k + 1..])
  {
    var before, page, after := pages[..k], [pages[k]], pages[k + 1..];
    assert pages == (before + page) + after;
    FlattenAppend(before + page, after);
    FlattenAppend(before, page);
    assert page[..0] == [];
    assert Flatten(page) == Data(pages[k]);
  }

  /** One more fetch adds its items at the end. */
  lemma FlattenStep<T>(pages: seq<Result<Page<T>>>, k: nat)
    requires k < |pages|
    ensures Flatten(pages[..k + 1]) == Flatten(pages[..k]) + Data(pages[k])
  {
    assert pages[..k + 1][..k] == pages[..k];
  }

  /** `for (const item of response.data) yield item`: the page's items
      follow those yielded so far, in order. */
  method YieldAll<T>(yielded: seq<T>, data: seq<T>) returns (r: seq<T>)
    ensures r == yielded + data
  {
    r := yielded;
    for n := 0 to |data|
      invariant r == yielded + data[..n]
    {
      r := r + [data[n]];
    }
    assert data[..|data|] == data;
  }

  /** The token the fetch at position `k` is made with: none for the first,
      then the previous page's next link. */
  function TokenFor<T>(pages: seq<Result<Page<T>>>, k: nat): Option<string>
    requires k <= |pages|
  {
    if k == 0 || pages[k - 1].Throw? then None else pages[k - 1].value.meta.nextPageUrl
  }

  /** The tokens of the first `k` fetches, in order. */
  function Tokens<T>(pages: seq<Result<Page<T>>>, k: nat): (ts: seq<Option<string>>)
    requires k <= |pages|
    ensures |ts| == k
  {
    if k == 0 then [] else Tokens(pages, k - 1) + [TokenFor(pages, k - 1)]
  }

  lemma {:induction false} TokensAt<T>(pages: seq<Result<Page<T>>>, k: nat)
    requires k <= |pages|
    ensures forall j :: 0 <= j < k ==> Tokens(pages, k)[j] == TokenFor(pages, j)
    decreases k
  {
    if k > 0 {
      TokensAt(pages, k - 1);
    }
  }

  /** `paginate`, drained: the first request carries no token, each later one
      the previous page's next link; it stops after the first page without a
      next link, having yielded every item of the pages it fetched, in order.
      A rejected fetch ends the generator with that rejection, after the
      items of the pages before it. */
  method Paginate<T>(pages: seq<Result<Page<T>>>) returns (items: seq<T>, tokens: seq<Option<string>>, outcome: Result<()>)
    requires Ends(pages)
    ensures |tokens| == FirstFinal(pages) + 1
    ensures tokens[0] == None
    ensures forall k :: 0 < k < |tokens| ==>
              pages[k - 1].Ok? && HasNext(pages[k - 1].value) && tokens[k] == pages[k - 1].value.meta.nextPageUrl
    ensures items == Flatten(pages[..|tokens|])
    ensures outcome == if pages[|tokens| - 1].Throw? then Throw(pages[|tokens| - 1].thrown) else Ok(())
  {
    ghost var f := FirstFinal(pages);
    var pageToken: Option<string> := None;
    items, tokens := [], [];
    var k := 0;
    var more := true;
    while more
      invariant more ==> k <= f
      invariant !more ==> k == f + 1 && pages[k - 1].Ok?
      invariant tokens == Tokens(pages, k) && items == Flatten(pages[..k])
      invariant more ==> pageToken == TokenFor(pages, k)
      decreases f + 1 - k
    {
      tokens := tokens + [pageToken];
      var fetched := pages[k];
      FlattenStep(pages, k);
      if fetched.Throw? {
        TokensAt(pages, k + 1);
        assert |tokens| == k + 1 && k == f;
        return items, tokens, Throw(fetched.thrown);
      }
      var response := fetched.value;
      items := YieldAll(items, response.data);
      pageToken := response.meta.nextPageUrl;
      k := k + 1;
      more := pageToken.Some? && pageToken.value != "";
    }
    TokensAt(pages, k);
    assert |tokens| == k && pages[|tokens| - 1].Ok?;
    outcome := Ok(());
  }

  /** A response without a next link is the only page requested. */
  lemma SinglePage<T>(pages: seq<Result<Page<T>>>)
    requires pages != [] && pages[0].Ok? && !HasNext(pages[0].value)
    ensures Ends(pages) && FirstFinal(pages) == 0 && Flatten(pages[..1]) == pages[0].value.data
  {
    assert pages[..1][..0] == [];
  }

  /** A first fetch that rejects yields nothing and is the only one made. */
  lemma FirstFetchRejects<T>(pages: seq<Result<Page<T>>>)
    requires pages != [] && pages[0].Throw?
    ensures Ends(pages) && FirstFinal(pages) == 0 && Flatten(pages[..1]) == []
  {
    assert pages[..1][..0] == [];
  }
}

// The comment fetcher: it asks the video platform for successive pages of
// top-level comment threads, appending each page's comment texts, until it
// holds at least 100 comments or a page comes back without a next-page
// token, and then keeps the first 100.
//
// The platform is modelled as the finite sequence of pages it would hand out
// for the successive requests; a request past the end of that sequence gets
// an empty page with no token.
module Comments {
  import opened Wrappers

  /** The cap on fetched comments (also the page size asked for). */
  const MaxComments: nat := 100

  /** An HTTP error raised to the client: status code and detail text. */
  datatype HttpError = HttpError(status: nat, detail: string)

  const MissingKeyError := HttpError(503,
    "Servicio no disponible: Falta configuración de API Key en el servidor.")

  /** The server's API key counts as configured only when present and non-empty. */
  predicate KeyConfigured(apiKey: Option<string>)
  {
    apiKey.Some? && apiKey.value != ""
  }

  /** One response page: the comment texts of its items, and the next-page
      token if the platform sent one. */
  datatype Page = Page(items: seq<string>, nextPageToken: Option<string>)

  /** A missing or empty token ends the paging. */
  predicate HasNext(p: Page)
  {
    p.nextPageToken.Some? && p.nextPageToken.value != ""
  }

  /** The page returned by request number k (counting from 0). */
  function PageAt(pages: seq<Page>, k: nat): Page
  {
    if k < |pages| then pages[k] else Page([], None)
  }

  /** All items of the pages, in order. */
  function Flatten(pages: seq<Page>): seq<string>
  {
    if pages == [] then [] else pages[0].items + Flatten(pages[1..])
  }

  /** The items held after the first n requests. */
  function Gathered(pages: seq<Page>, n: nat): seq<string>
  {
    if n == 0 then [] else Gathered(pages, n - 1) + PageAt(pages, n - 1).items
  }

  /** How many more requests the loop makes when it is about to issue
      request k holding `held` comments. */
  function RequestsFrom(pages: seq<Page>, k: nat, held: nat): nat
    decreases |pages| - k
  {
    if held >= MaxComments then 0
    else if !HasNext(PageAt(pages, k)) then 1
    else 1 + RequestsFrom(pages, k + 1, held + |PageAt(pages, k).items|)
  }

  /** The number of page requests made for this feed. */
  function Requests(pages: seq<Page>): nat
  {
    RequestsFrom(pages, 0, 0)
  }

  /** Python's s[:100]. */
  function Capped(s: seq<string>): seq<string>
  {
    if |s| <= MaxComments then s else s[..MaxComments]
  }

  /** The comment list the fetcher returns for this feed. */
  function Fetched(pages: seq<Page>): seq<string>
  {
    Capped(Gathered(pages, Requests(pages)))
  }

  /** The paging loop of obtener_comentarios_youtube. */
  method CollectComments(pages: seq<Page>) returns (fetched: seq<string>, requests: nat)
    ensures requests == Requests(pages)
    ensures fetched == Fetched(pages)
    ensures |fetched| <= MaxComments
  {
    var comentarios: seq<string> := [];
    requests := 0;
    while |comentarios| < MaxComments
      invariant requests <= |pages|
      invariant comentarios == Gathered(pages, requests)
      invariant requests + RequestsFrom(pages, requests, |comentarios|) == Requests(pages)
      decreases |pages| - requests
    {
      var response := PageAt(pages, requests);
      comentarios := comentarios + response.items;
      requests := requests + 1;
      if !HasNext(response) {
        break;
      }
    }
    fetched := if |comentarios| <= MaxComments then comentarios else comentarios[..MaxComments];
  }

  /** obtener_comentarios_youtube: 503 without an API key, else the paged list. */
  method FetchComments(apiKey: Option<string>, pages: seq<Page>)
    returns (r: Result<seq<string>, HttpError>)
    ensures !KeyConfigured(apiKey) ==> r == Failure(MissingKeyError)
    ensures KeyConfigured(apiKey) ==> r == Success(Fetched(pages))
  {
    if apiKey.None? || apiKey.value == "" {
      return Failure(MissingKeyError);
    }
    var comentarios, _ := CollectComments(pages);
    r := Success(comentarios);
  }

  /** Taking the first n requests' items never reorders or drops items:
      fewer requests give a prefix of more requests. */
  lemma {:induction false} GatheredGrows(pages: seq<Page>, m: nat, n: nat)
    requires m <= n
    ensures Gathered(pages, m) <= Gathered(pages, n)
    decreases n
  {
    if m < n {
      GatheredGrows(pages, m, n - 1);
    }
  }

  lemma {:induction false} FlattenSnoc(pages: seq<Page>, p: Page)
    ensures Flatten(pages + [p]) == Flatten(pages) + p.items
    decreases |pages|
  {
    if pages == [] {
      assert [p][1..] == [];
    } else {
      assert (pages + [p])[1..] == pages[1..] + [p];
      FlattenSnoc(pages[1..], p);
    }
  }

  /** The first n requests' items are the in-order items of the first n
      pages, and of all pages once n reaches the end of the feed. */
  lemma {:induction false} GatheredIsFlatten(pages: seq<Page>, n: nat)
    ensures n <= |pages| ==> Gathered(pages, n) == Flatten(pages[..n])
    ensures n >= |pages| ==> Gathered(pages, n) == Flatten(pages)
    decreases n
  {
    if n == 0 {
    } else if n <= |pages| {
      GatheredIsFlatten(pages, n - 1);
      assert pages[..n] == pages[..n - 1] + [pages[n - 1]];
      FlattenSnoc(pages[..n - 1], pages[n - 1]);
      if n == |pages| {
        assert pages[..n] == pages;
      }
    } else {
      GatheredIsFlatten(pages, n - 1);
      if n - 1 == |pages| {
        assert pages[..n - 1] == pages;
      }
    }
  }

  /** The stopping rule, from request k onwards. */
  lemma {:induction false} StopFrom(pages: seq<Page>, k: nat)
    requires k <= |pages|
    requires |Gathered(pages, k)| < MaxComments
    ensures var n := k + RequestsFrom(pages, k, |Gathered(pages, k)|);
            k < n <= |pages| + 1
            && (forall j :: k <= j < n - 1 ==>
                  HasNext(PageAt(pages, j)) && |Gathered(pages, j + 1)| < MaxComments)
            && (!HasNext(PageAt(pages, n - 1)) || |Gathered(pages, n)| >= MaxComments)
    decreases |pages| - k
  {
    var p := PageAt(pages, k);
    if HasNext(p) && |Gathered(pages, k + 1)| < MaxComments {
      assert |Gathered(pages, k + 1)| == |Gathered(pages, k)| + |p.items|;
      StopFrom(pages, k + 1);
      var n := k + RequestsFrom(pages, k, |Gathered(pages, k)|);
      assert n == (k + 1) + RequestsFrom(pages, k + 1, |Gathered(pages, k + 1)|);
    }
  }

  /** Requesting stops exactly at the first request whose page has no token
      or after which at least 100 comments are held; at least one request is
      always made, and never more than one past the end of the feed. */
  lemma RequestsStopRule(pages: seq<Page>)
    ensures var n := Requests(pages);
            1 <= n <= |pages| + 1
            && (forall j :: 0 <= j < n - 1 ==>
                  HasNext(PageAt(pages, j)) && |Gathered(pages, j + 1)| < MaxComments)
            && (!HasNext(PageAt(pages, n - 1)) || |Gathered(pages, n)| >= MaxComments)
  {
    StopFrom(pages, 0);
  }

  /** What the fetcher returns: at most 100 comments, a prefix of the
      in-order items of the whole feed and of the pages requested; fewer than
      100 only when the requested pages are exhausted, and then all of them. */
  lemma FetchedShape(pages: seq<Page>)
    ensures |Fetched(pages)| <= MaxComments
    ensures Fetched(pages) <= Gathered(pages, Requests(pages))
    ensures Fetched(pages) <= Flatten(pages)
    ensures |Fetched(pages)| < MaxComments ==>
              Fetched(pages) == Gathered(pages, Requests(pages))
              && !HasNext(PageAt(pages, Requests(pages) - 1))
    ensures |Gathered(pages, Requests(pages))| >= MaxComments ==> |Fetched(pages)| == MaxComments
  {
    var n := Requests(pages);
    RequestsStopRule(pages);
    GatheredIsFlatten(pages, n);
    GatheredIsFlatten(pages, |pages|);
    if n <= |pages| {
      GatheredGrows(pages, n, |pages|);
      assert pages[..|pages|] == pages;
    }
  }
}

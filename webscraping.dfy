/**
 * The scraping and KPI pipeline (asseco_data_systems/asseco_webscraping_pipeline.py).
 * The demo bookshop is read page by page until the first fault; a site
 * that cannot be scraped is replaced by a synthetic catalogue; every row of
 * the run is stamped with one timestamp; and the KPI table counts the rows
 * and the in-stock rows of each site.
 *
 * The network is the parameter `fetch` (a URL to the parsed page or a
 * failure), the clock is the timestamp parameter, and the random draws of
 * the synthetic catalogue are the parameter `draws`.
 */
module WebscrapingPipeline {
  import opened Wrappers
  import Text

  // ---------------------------------------------------------------------
  // Pages and articles
  // ---------------------------------------------------------------------

  /**
   * What the parser sees in one `article.product_pod`: whether `h3 > a`
   * exists and its `title` attribute, the price already read as a number
   * (None when `.price_color` is missing or not a number), the text of
   * `.availability` and the CSS classes of `.star-rating`, when present.
   */
  datatype Article = Article(
    hasAnchor: bool,
    title: Option<string>,
    price: Option<real>,
    availability: Option<string>,
    ratingClasses: Option<seq<string>>)

  /** The outcome of `requests.get` and `raise_for_status`: a failure, or the page's articles. */
  datatype Response = Failed | Page(articles: seq<Article>)

  /** One product row: site, product, price, availability, rating_label, category. */
  datatype Listing = Listing(
    site: string,
    product: string,
    price: real,
    availability: Option<string>,
    ratingLabel: string,
    category: string)

  /** A row of the run's output: the product row plus its `scrape_timestamp`. */
  datatype Stamped = Stamped(listing: Listing, timestamp: string)

  const PAGE_PREFIX: string := "catalogue/page-"
  const PAGE_SUFFIX: string := ".html"

  /** The first page is the base URL; page k is `<base>catalogue/page-<k>.html`. */
  function PageUrl(base: string, page: nat): string {
    if page == 1 then base else base + PAGE_PREFIX + Text.NatToString(page) + PAGE_SUFFIX
  }

  /** The page number written in a URL of a page other than the first. */
  lemma PageUrlNumber(base: string, page: nat)
    requires page != 1
    ensures var url := PageUrl(base, page);
      |url| == |base| + 15 + |Text.NatToString(page)| + 5 &&
      url[..|base|] == base &&
      Text.AllDigits(url[|base| + 15..|url| - 5]) &&
      Text.DigitsValue(url[|base| + 15..|url| - 5]) == page
  {
    var url, digits := PageUrl(base, page), Text.NatToString(page);
    assert url == base + PAGE_PREFIX + digits + PAGE_SUFFIX;
    assert url[|base| + 15..|url| - 5] == digits;
    Text.NatToStringRoundTrip(page);
  }

  /** Different pages are requested at different URLs. */
  lemma PageUrlInjective(base: string, p: nat, q: nat)
    requires PageUrl(base, p) == PageUrl(base, q)
    ensures p == q
  {
    if p != 1 && q != 1 {
      PageUrlNumber(base, p);
      PageUrlNumber(base, q);
    } else if p != 1 {
      PageUrlNumber(base, p);
    } else if q != 1 {
      PageUrlNumber(base, q);
    }
  }

  /** `rating_cls['class'][1]` when the element exists with more than one class, else "NA". */
  function RatingLabel(classes: Option<seq<string>>): (r: string)
    ensures classes.Some? && |classes.value| > 1 ==> r == classes.value[1]
    ensures !(classes.Some? && |classes.value| > 1) ==> r == "NA"
  {
    match classes
    case Some(c) => if |c| > 1 then c[1] else "NA"
    case None => "NA"
  }

  /**
   * The row of one article, or None where the source raises: a missing
   * anchor, a missing or unparsable price, a missing availability.
   */
  function ParseArticle(a: Article): (r: Option<Listing>)
    ensures r.Some? <==> a.hasAnchor && a.price.Some? && a.availability.Some?
    ensures r.Some? ==> r.value.site == "books_demo" && r.value.category == "Books"
    ensures r.Some? ==> r.value.product == a.title.GetOr("") && r.value.price == a.price.value
    ensures r.Some? ==> r.value.availability == a.availability && r.value.ratingLabel == RatingLabel(a.ratingClasses)
  {
    if a.hasAnchor && a.price.Some? && a.availability.Some? then
      Some(Listing("books_demo", a.title.GetOr(""), a.price.value, a.availability,
                   RatingLabel(a.ratingClasses), "Books"))
    else None
  }

  /** The rows a page yields and whether it was read to its end without an exception. */
  datatype Gathered = Gathered(rows: seq<Listing>, complete: bool)

  /** The rows of the articles in order, stopping at the first one that raises. */
  function PageRows(arts: seq<Article>): Gathered {
    if arts == [] then Gathered([], true)
    else match ParseArticle(arts[0])
      case None => Gathered([], false)
      case Some(row) =>
        var rest := PageRows(arts[1..]);
        Gathered([row] + rest.rows, rest.complete)
  }

  /**
   * A page yields the rows of its first articles, one per article, up to
   * the first that raises; it is complete exactly when none raises.
   */
  lemma {:induction false} PageRowsMeaning(arts: seq<Article>)
    ensures var g := PageRows(arts);
      |g.rows| <= |arts| &&
      (forall i :: 0 <= i < |g.rows| ==> ParseArticle(arts[i]) == Some(g.rows[i])) &&
      (g.complete <==> |g.rows| == |arts|) &&
      (!g.complete ==> ParseArticle(arts[|g.rows|]).None?)
  {
    if arts != [] && ParseArticle(arts[0]).Some? {
      PageRowsMeaning(arts[1..]);
    }
  }

  /** A response that neither fails nor holds an article that raises. */
  predicate Completes(resp: Response) {
    resp.Page? && PageRows(resp.articles).complete
  }

  /** The rows a response contributes before the loop goes on or stops. */
  function Gained(resp: Response): seq<Listing> {
    match resp
    case Failed => []
    case Page(arts) => PageRows(arts).rows
  }

  /**
   * The rows gathered over pages 1 to n, and whether no exception has
   * stopped the loop yet; once stopped, later pages are not requested.
   */
  function ScrapeState(fetch: string -> Response, base: string, n: nat): Gathered {
    if n == 0 then Gathered([], true)
    else
      var prev := ScrapeState(fetch, base, n - 1);
      if !prev.complete then prev
      else
        var resp := fetch(PageUrl(base, n));
        Gathered(prev.rows + Gained(resp), Completes(resp))
  }

  /** `range(1, limit_pages + 1)` ends at this page. */
  function LastPage(limit: int): nat {
    if limit < 0 then 0 else limit
  }

  /** After the first exception the gathered rows no longer change. */
  lemma {:induction false} StoppedStays(fetch: string -> Response, base: string, n: nat, m: nat)
    requires n <= m && !ScrapeState(fetch, base, n).complete
    ensures ScrapeState(fetch, base, m) == ScrapeState(fetch, base, n)
    decreases m - n
  {
    if n < m {
      StoppedStays(fetch, base, n, m - 1);
    }
  }

  // ---------------------------------------------------------------------
  // A fault-free reference and the prefix property
  // ---------------------------------------------------------------------

  /** The rows of every article that can be read, skipping the rest. */
  function Readable(arts: seq<Article>): seq<Listing> {
    if arts == [] then []
    else (match ParseArticle(arts[0]) case Some(row) => [row] case None => []) + Readable(arts[1..])
  }

  function ReadableOf(resp: Response): seq<Listing> {
    match resp
    case Failed => []
    case Page(arts) => Readable(arts)
  }

  /** Every readable row of every page that answers, pages 1 to n: a run in which nothing stops the loop. */
  function ReadAll(fetch: string -> Response, base: string, n: nat): seq<Listing> {
    if n == 0 then [] else ReadAll(fetch, base, n - 1) + ReadableOf(fetch(PageUrl(base, n)))
  }

  lemma {:induction false} PageRowsPrefix(arts: seq<Article>)
    ensures PageRows(arts).rows <= Readable(arts)
    ensures PageRows(arts).complete ==> PageRows(arts).rows == Readable(arts)
  {
    if arts != [] {
      PageRowsPrefix(arts[1..]);
    }
  }

  lemma GainedPrefix(resp: Response)
    ensures Gained(resp) <= ReadableOf(resp)
    ensures Completes(resp) ==> Gained(resp) == ReadableOf(resp)
  {
    if resp.Page? {
      PageRowsPrefix(resp.articles);
    }
  }

  lemma PrefixConcat(a: seq<Listing>, b: seq<Listing>, c: seq<Listing>)
    requires b <= c
    ensures a + b <= a + c
  {
    assert (a + c)[..|a + b|] == a + b;
  }

  lemma PrefixOfConcat(a: seq<Listing>, b: seq<Listing>, c: seq<Listing>)
    requires a <= b
    ensures a <= b + c
  {
    assert (b + c)[..|a|] == b[..|a|];
  }

  /**
   * An exception only cuts the run short: the rows gathered are a prefix of
   * the rows a run without faults would gather, in the same order, and all
   * of them while no exception has occurred.
   */
  lemma {:induction false} ScrapeIsPrefix(fetch: string -> Response, base: string, n: nat)
    ensures ScrapeState(fetch, base, n).rows <= ReadAll(fetch, base, n)
    ensures ScrapeState(fetch, base, n).complete ==> ScrapeState(fetch, base, n).rows == ReadAll(fetch, base, n)
  {
    if n > 0 {
      ScrapeIsPrefix(fetch, base, n - 1);
      var prev, resp := ScrapeState(fetch, base, n - 1), fetch(PageUrl(base, n));
      var before := ReadAll(fetch, base, n - 1);
      if prev.complete {
        GainedPrefix(resp);
        PrefixConcat(before, Gained(resp), ReadableOf(resp));
      } else {
        PrefixOfConcat(prev.rows, before, ReadableOf(resp));
      }
    }
  }

  /** When every page answers in full, nothing is lost. */
  lemma {:induction false} ScrapeWithoutFaults(fetch: string -> Response, base: string, n: nat)
    requires forall k :: 1 <= k <= n ==> Completes(fetch(PageUrl(base, k)))
    ensures ScrapeState(fetch, base, n).complete
    ensures ScrapeState(fetch, base, n).rows == ReadAll(fetch, base, n)
  {
    if n > 0 {
      ScrapeWithoutFaults(fetch, base, n - 1);
      assert Completes(fetch(PageUrl(base, n)));
    }
    ScrapeIsPrefix(fetch, base, n);
  }

  // ---------------------------------------------------------------------
  // scrape_books_toscrape
  // ---------------------------------------------------------------------

  /**
   * The loop over one page's articles: rows in order until an article
   * raises; `complete` says whether the page was read to its end.
   */
  method ReadPage(arts: seq<Article>) returns (rows: seq<Listing>, complete: bool)
    ensures Gathered(rows, complete) == PageRows(arts)
  {
    rows := [];
    var j := 0;
    while j < |arts|
      invariant j <= |arts|
      invariant rows + PageRows(arts[j..]).rows == PageRows(arts).rows
      invariant PageRows(arts[j..]).complete == PageRows(arts).complete
    {
      var row := ParseArticle(arts[j]);
      assert arts[j..][1..] == arts[j + 1..];
      if row.None? {
        assert rows + [] == rows;
        return rows, false;
      }
      rows := rows + [row.value];
      j := j + 1;
    }
    assert arts[j..] == [];
    assert rows + [] == rows;
    complete := true;
  }

  /** The URLs of pages 1 to n, in order. */
  function Urls(base: string, n: nat): (r: seq<string>)
    ensures |r| == n
  {
    if n == 0 then [] else Urls(base, n - 1) + [PageUrl(base, n)]
  }

  /** Entry k of the request log is the URL of page k + 1. */
  lemma {:induction false} UrlsInOrder(base: string, n: nat)
    ensures forall k :: 0 <= k < n ==> Urls(base, n)[k] == PageUrl(base, k + 1)
  {
    if n > 0 {
      UrlsInOrder(base, n - 1);
      assert forall k :: 0 <= k < n - 1 ==> Urls(base, n)[k] == Urls(base, n - 1)[k];
    }
  }

  /** No URL is requested twice. */
  lemma UrlsDistinct(base: string, n: nat, j: nat, k: nat)
    requires j < k < n
    ensures Urls(base, n)[j] != Urls(base, n)[k]
  {
    UrlsInOrder(base, n);
    if Urls(base, n)[j] == Urls(base, n)[k] {
      PageUrlInjective(base, j + 1, k + 1);
    }
  }

  /**
   * One pass of the page loop: request page `page`, and either stop on
   * the exception of a failed request or append the page's rows, stopping
   * when one of its articles raised.
   */
  method FetchPage(fetch: string -> Response, base: string, page: nat, rows: seq<Listing>)
    returns (next: seq<Listing>, complete: bool)
    requires page >= 1 && ScrapeState(fetch, base, page - 1) == Gathered(rows, true)
    ensures ScrapeState(fetch, base, page) == Gathered(next, complete)
  {
    var resp := fetch(PageUrl(base, page));
    if resp.Failed? {
      assert rows + [] == rows;
      return rows, false;
    }
    var pageRows;
    pageRows, complete := ReadPage(resp.articles);
    next := rows + pageRows;
  }

  /**
   * Pages 1 to `limitPages` in order. The first failed request or malformed
   * article ends the whole scrape; the rows gathered until then, including
   * those of the page's earlier articles, are returned. `visited` lists the
   * URLs requested.
   */
  method ScrapeBooks(fetch: string -> Response, base: string, limitPages: int) returns (rows: seq<Listing>, visited: seq<string>)
    ensures rows == ScrapeState(fetch, base, LastPage(limitPages)).rows
    ensures |visited| <= LastPage(limitPages) && visited == Urls(base, |visited|)
    ensures |visited| > 0 ==> ScrapeState(fetch, base, |visited| - 1).complete
    ensures |visited| < LastPage(limitPages) ==> !ScrapeState(fetch, base, |visited|).complete
  {
    rows := [];
    visited := [];
    var page: nat := 1;
    while page <= limitPages
      invariant 1 <= page <= LastPage(limitPages) + 1
      invariant visited == Urls(base, page - 1)
      invariant ScrapeState(fetch, base, page - 1) == Gathered(rows, true)
      decreases limitPages - page
    {
      var url := PageUrl(base, page);
      visited := visited + [url];
      assert visited == Urls(base, page);
      var complete;
      rows, complete := FetchPage(fetch, base, page, rows);
      if !complete {
        StoppedStays(fetch, base, page, LastPage(limitPages));
        break;
      }
      page := page + 1;
    }
  }

  // ---------------------------------------------------------------------
  // synthetic_site
  // ---------------------------------------------------------------------

  /** The three stock states the synthetic catalogue draws from. */
  datatype Stock = InStockDraw | LowStockDraw | OutOfStockDraw

  function StockLabel(s: Stock): string {
    match s
    case InStockDraw => "In stock"
    case LowStockDraw => "Low stock"
    case OutOfStockDraw => "Out of stock"
  }

  /** The per-row draws of `default_rng(42)`: price, stock state and rating of row i. */
  datatype SyntheticDraws = SyntheticDraws(price: nat -> real, stock: nat -> Stock, rating: nat -> nat)

  /** `f'{category} Item {n:03d}'`. */
  function ProductName(category: string, n: nat): string {
    category + " Item " + Text.ZeroPad(n, 3)
  }

  /** The number written in a product name can be read back. */
  lemma ProductNameNumber(category: string, n: nat)
    ensures var name := ProductName(category, n);
      |name| >= |category| + 9 && name[..|category| + 6] == category + " Item " &&
      Text.AllDigits(name[|category| + 6..]) && Text.DigitsValue(name[|category| + 6..]) == n
  {
    var name := ProductName(category, n);
    assert name[|category| + 6..] == Text.ZeroPad(n, 3);
    assert name[..|category| + 6] == category + " Item ";
    Text.ZeroPadRoundTrip(n, 3);
  }

  /** Products of one catalogue have pairwise distinct names. */
  lemma ProductNamesDistinct(category: string, m: nat, n: nat)
    requires m != n
    ensures ProductName(category, m) != ProductName(category, n)
  {
    ProductNameNumber(category, m);
    ProductNameNumber(category, n);
  }

  /** `synthetic_site(site, category, num)`: rows 1 to num, numbered in their names. */
  function SyntheticSite(site: string, category: string, num: nat, draws: SyntheticDraws): (r: seq<Listing>)
    ensures |r| == num
    ensures forall i :: 0 <= i < num ==> r[i].site == site && r[i].category == category
    ensures forall i :: 0 <= i < num ==> r[i].product == ProductName(category, i + 1)
    ensures forall i :: 0 <= i < num ==>
      r[i].price == draws.price(i) && r[i].availability == Some(StockLabel(draws.stock(i))) &&
      r[i].ratingLabel == Text.NatToString(draws.rating(i))
  {
    seq(num, i requires 0 <= i < num =>
      Listing(site, ProductName(category, i + 1), draws.price(i), Some(StockLabel(draws.stock(i))),
              Text.NatToString(draws.rating(i)), category))
  }

  /** Distinct rows of a synthetic catalogue carry distinct product names. */
  lemma SyntheticNamesDistinct(site: string, category: string, num: nat, draws: SyntheticDraws, i: nat, j: nat)
    requires i < j < num
    ensures SyntheticSite(site, category, num, draws)[i].product != SyntheticSite(site, category, num, draws)[j].product
  {
    var r := SyntheticSite(site, category, num, draws);
    assert r[i].product == ProductName(category, i + 1);
    assert r[j].product == ProductName(category, j + 1);
    ProductNamesDistinct(category, i + 1, j + 1);
  }

  // ---------------------------------------------------------------------
  // run_scrape
  // ---------------------------------------------------------------------

  datatype Site = Site(name: string, url: string, kind: string)

  const SITES: seq<Site> := [
    Site("books_demo", "http://books.toscrape.com/", "books"),
    Site("electronics_demo", "https://nonexistent.example/electronics", "electronics")]

  const BOOK_PAGES: nat := 3
  const SYNTHETIC_ROWS: nat := 120

  /** The frame of one site: scraped books, falling back to a synthetic catalogue. */
  function SiteFrame(s: Site, haveNetDeps: bool, fetch: string -> Response, draws: SyntheticDraws): seq<Listing> {
    if s.kind == "books" && haveNetDeps then
      var scraped := ScrapeState(fetch, s.url, BOOK_PAGES).rows;
      if |scraped| == 0 then SyntheticSite(s.name, "Books", SYNTHETIC_ROWS, draws) else scraped
    else SyntheticSite(s.name, Text.Capitalize(s.kind), SYNTHETIC_ROWS, draws)
  }

  /** `df['scrape_timestamp'] = ts`. */
  function Stamp(rows: seq<Listing>, ts: string): (r: seq<Stamped>)
    ensures |r| == |rows|
    ensures forall i :: 0 <= i < |rows| ==> r[i].listing == rows[i] && r[i].timestamp == ts
  {
    seq(|rows|, i requires 0 <= i < |rows| => Stamped(rows[i], ts))
  }

  /** `pd.concat(frames, ignore_index=True)`. */
  function Concat(frames: seq<seq<Stamped>>): seq<Stamped> {
    if frames == [] then [] else Concat(frames[..|frames| - 1]) + frames[|frames| - 1]
  }

  /** The frames of the first n sites, stamped. */
  function StampedFrames(n: nat, haveNetDeps: bool, fetch: string -> Response, draws: SyntheticDraws, ts: string): seq<seq<Stamped>>
    requires n <= |SITES|
  {
    seq(n, k requires 0 <= k < n => Stamp(SiteFrame(SITES[k], haveNetDeps, fetch, draws), ts))
  }

  /**
   * `run_scrape()`: one frame per site, in the order of SITES, each stamped
   * with the single timestamp `ts`, concatenated.
   */
  method RunScrape(haveNetDeps: bool, fetch: string -> Response, draws: SyntheticDraws, ts: string) returns (out: seq<Stamped>)
    ensures out == Concat(StampedFrames(|SITES|, haveNetDeps, fetch, draws, ts))
    ensures out == Stamp(SiteFrame(SITES[0], haveNetDeps, fetch, draws), ts)
                 + Stamp(SiteFrame(SITES[1], haveNetDeps, fetch, draws), ts)
    ensures forall i :: 0 <= i < |out| ==> out[i].timestamp == ts
  {
    var allRows: seq<seq<Stamped>> := [];
    for i := 0 to |SITES|
      invariant allRows == StampedFrames(i, haveNetDeps, fetch, draws, ts)
    {
      var s := SITES[i];
      var df: seq<Listing>;
      if s.kind == "books" && haveNetDeps {
        var visited;
        df, visited := ScrapeBooks(fetch, s.url, BOOK_PAGES);
        if |df| == 0 {
          df := SyntheticSite(s.name, "Books", SYNTHETIC_ROWS, draws);
        }
      } else {
        df := SyntheticSite(s.name, Text.Capitalize(s.kind), SYNTHETIC_ROWS, draws);
      }
      assert df == SiteFrame(s, haveNetDeps, fetch, draws);
      allRows := allRows + [Stamp(df, ts)];
    }
    out := Concat(allRows);
    RunIsTwoFrames(haveNetDeps, fetch, draws, ts);
  }

  lemma ConcatTwo(frames: seq<seq<Stamped>>)
    requires |frames| == 2
    ensures Concat(frames) == frames[0] + frames[1]
  {
    var first := frames[..1];
    assert first[..0] == [];
    assert Concat(first) == Concat([]) + first[0];
    assert frames[..|frames| - 1] == first;
  }

  /** Concatenation keeps every row of every frame, so a common timestamp survives it. */
  lemma {:induction false} ConcatTimestamps(frames: seq<seq<Stamped>>, ts: string)
    requires forall f, i :: 0 <= f < |frames| && 0 <= i < |frames[f]| ==> frames[f][i].timestamp == ts
    ensures forall i :: 0 <= i < |Concat(frames)| ==> Concat(frames)[i].timestamp == ts
  {
    if frames != [] {
      var init := frames[..|frames| - 1];
      assert forall f :: 0 <= f < |init| ==> init[f] == frames[f];
      ConcatTimestamps(init, ts);
      var a, b := Concat(init), frames[|frames| - 1];
      assert forall i :: 0 <= i < |a + b| ==> (a + b)[i] == if i < |a| then a[i] else b[i - |a|];
    }
  }

  /** The run is the stamped books frame followed by the stamped electronics frame. */
  lemma RunIsTwoFrames(haveNetDeps: bool, fetch: string -> Response, draws: SyntheticDraws, ts: string)
    ensures var frames := StampedFrames(|SITES|, haveNetDeps, fetch, draws, ts);
      Concat(frames) == frames[0] + frames[1] &&
      forall i :: 0 <= i < |Concat(frames)| ==> Concat(frames)[i].timestamp == ts
  {
    var frames := StampedFrames(|SITES|, haveNetDeps, fetch, draws, ts);
    ConcatTwo(frames);
    ConcatTimestamps(frames, ts);
  }

  lemma CapitalizedElectronics()
    ensures Text.Capitalize("electronics") == "Electronics"
  {
    var tail := "lectronics";
    assert "electronics"[1..] == tail;
    Text.LowerKeeps(tail);
    assert Text.UpperChar('e') == 'E';
    assert "Electronics" == ['E'] + tail;
  }

  /**
   * Without the scraping libraries both sites are synthetic: 120 `books_demo`
   * rows of category Books, then 120 `electronics_demo` rows of category
   * Electronics.
   */
  lemma OfflineRun(fetch: string -> Response, draws: SyntheticDraws, ts: string)
    ensures var out := Concat(StampedFrames(|SITES|, false, fetch, draws, ts));
      |out| == 240 &&
      (forall i :: 0 <= i < 120 ==> out[i].listing.site == "books_demo" && out[i].listing.category == "Books") &&
      (forall i :: 120 <= i < 240 ==> out[i].listing.site == "electronics_demo" && out[i].listing.category == "Electronics")
  {
    RunIsTwoFrames(false, fetch, draws, ts);
    CapitalizedElectronics();
    assert Text.Capitalize("books") == "Books" by {
      var s, r := "books", Text.Capitalize("books");
      forall i | 1 <= i < |s|
        ensures r[i] == "Books"[i]
      {
        assert r[i] == r[1..][i - 1] == Text.LowerChar(s[i]);
      }
    }
    var frames := StampedFrames(|SITES|, false, fetch, draws, ts);
    assert frames[0] == Stamp(SyntheticSite("books_demo", "Books", 120, draws), ts);
    assert frames[1] == Stamp(SyntheticSite("electronics_demo", "Electronics", 120, draws), ts);
  }

  /** With the libraries present, an empty scrape falls back to 120 synthetic Books rows. */
  lemma EmptyScrapeFallsBack(fetch: string -> Response, draws: SyntheticDraws)
    requires ScrapeState(fetch, SITES[0].url, BOOK_PAGES).rows == []
    ensures SiteFrame(SITES[0], true, fetch, draws) == SyntheticSite("books_demo", "Books", 120, draws)
  {
  }

  // ---------------------------------------------------------------------
  // compute_kpis
  // ---------------------------------------------------------------------

  /** `str.contains('In stock', case=False, na=False)` as 0 or 1. */
  function InStock(availability: Option<string>): (r: nat)
    ensures r <= 1
    ensures r == 1 <==> availability.Some? && Text.Contains(Text.Lower(availability.value), "in stock")
  {
    match availability
    case Some(a) => if Text.Contains(Text.Lower(a), "in stock") then 1 else 0
    case None => 0
  }

  /** Text with no `n` in either case never counts as in stock. */
  lemma NoNotInStock(a: string)
    requires forall i :: 0 <= i < |a| ==> a[i] != 'n' && a[i] != 'N'
    ensures InStock(Some(a)) == 0
  {
    var l := Text.Lower(a);
    Text.ContainsAt(l, "in stock");
    forall i | 0 <= i <= |l| - 8
      ensures !Text.OccursAt(l, "in stock", i)
    {
      assert l[i + 1] == Text.LowerChar(a[i + 1]) != 'n';
      assert "in stock"[1] == 'n';
    }
  }

  /** The three synthetic labels: only "In stock" counts as in stock. */
  lemma StockLabelsInStock(s: Stock)
    ensures InStock(Some(StockLabel(s))) == 1 <==> s == InStockDraw
  {
    match s
    case InStockDraw =>
      var l := Text.Lower("In stock");
      assert l[0] == 'i' && l[1..] == "n stock";
      assert l == "in stock";
    case LowStockDraw =>
      NoNotInStock("Low stock");
    case OutOfStockDraw =>
      NoNotInStock("Out of stock");
  }

  /** Case does not matter to the in-stock test. */
  lemma InStockIgnoresCase(a: string, b: string)
    requires Text.Lower(a) == Text.Lower(b)
    ensures InStock(Some(a)) == InStock(Some(b))
  {
  }

  /** The `in_stock` column compute_kpis adds. */
  function InStockColumn(rows: seq<Stamped>): (r: seq<nat>)
    ensures |r| == |rows| && forall i :: 0 <= i < |rows| ==> r[i] == InStock(rows[i].listing.availability)
  {
    seq(|rows|, i requires 0 <= i < |rows| => InStock(rows[i].listing.availability))
  }

  /** The rows of one site, in order. */
  function SiteRows(rows: seq<Stamped>, site: string): (r: seq<Stamped>)
    ensures |r| <= |rows|
    ensures forall i :: 0 <= i < |r| ==> r[i].listing.site == site
    ensures (exists i :: 0 <= i < |rows| && rows[i].listing.site == site) ==> |r| > 0
  {
    if rows == [] then []
    else
      var init := SiteRows(rows[..|rows| - 1], site);
      var last := rows[|rows| - 1];
      assert forall i :: 0 <= i < |rows| - 1 ==> rows[..|rows| - 1][i] == rows[i];
      init + (if last.listing.site == site then [last] else [])
  }

  /** `SiteRows` keeps exactly the rows of the site. */
  lemma {:induction false} SiteRowsMembers(rows: seq<Stamped>, site: string)
    ensures forall x :: x in SiteRows(rows, site) <==> x in rows && x.listing.site == site
  {
    if rows != [] {
      var init := rows[..|rows| - 1];
      SiteRowsMembers(init, site);
      assert rows == init + [rows[|rows| - 1]];
    }
  }

  function InStockCount(rows: seq<Stamped>): (r: nat)
    ensures r <= |rows|
  {
    if rows == [] then 0 else InStockCount(rows[..|rows| - 1]) + InStock(rows[|rows| - 1].listing.availability)
  }

  function PriceSum(rows: seq<Stamped>): real {
    if rows == [] then 0.0 else PriceSum(rows[..|rows| - 1]) + rows[|rows| - 1].listing.price
  }

  /** Names of the sites of the rows. */
  function Sites(rows: seq<Stamped>): (r: seq<string>)
    ensures |r| == |rows| && forall i :: 0 <= i < |rows| ==> r[i] == rows[i].listing.site
  {
    seq(|rows|, i requires 0 <= i < |rows| => rows[i].listing.site)
  }

  predicate StrictlySorted(keys: seq<string>) {
    forall i, j :: 0 <= i < j < |keys| ==> Text.LexLess(keys[i], keys[j])
  }

  /** Put `k` into an ascending list of distinct keys. */
  function InsertKey(keys: seq<string>, k: string): (r: seq<string>)
    requires StrictlySorted(keys)
    ensures StrictlySorted(r)
    ensures forall x :: x in r <==> x in keys || x == k
  {
    if keys == [] then [k]
    else if k == keys[0] then keys
    else if Text.LexLess(k, keys[0]) then
      assert forall j :: 0 < j < |keys| ==> Text.LexLess(k, keys[j]) by {
        forall j | 0 < j < |keys|
          ensures Text.LexLess(k, keys[j])
        {
          Text.LexLessTransitive(k, keys[0], keys[j]);
        }
      }
      [k] + keys
    else
      Text.LexLessTotal(k, keys[0]);
      var tail := InsertKey(keys[1..], k);
      assert forall x :: x in keys[1..] ==> Text.LexLess(keys[0], x);
      [keys[0]] + tail
  }

  /** `groupby('site')` keys: the distinct sites, ascending. */
  function GroupKeys(rows: seq<Stamped>): (r: seq<string>)
    ensures StrictlySorted(r)
    ensures forall x :: x in r <==> x in Sites(rows)
  {
    if rows == [] then []
    else
      var init := rows[..|rows| - 1];
      assert Sites(rows) == Sites(init) + [rows[|rows| - 1].listing.site];
      InsertKey(GroupKeys(init), rows[|rows| - 1].listing.site)
  }

  /** One row of the KPI table; the rounding to 2 and 1 decimals is not applied. */
  datatype Kpi = Kpi(site: string, products: nat, inStockCount: nat, avgPrice: real, inStockRate: real)

  function SiteKpi(rows: seq<Stamped>, site: string): (k: Kpi)
    requires site in Sites(rows)
    ensures k.site == site && k.products == |SiteRows(rows, site)| > 0
    ensures k.inStockCount == InStockCount(SiteRows(rows, site)) <= k.products
    ensures 0.0 <= k.inStockRate <= 100.0
    ensures k.avgPrice == Mean(PriceSum(SiteRows(rows, site)), k.products)
    ensures k.inStockRate == Mean(100.0 * k.inStockCount as real, k.products)
  {
    var group := SiteRows(rows, site);
    var n := |group|;
    var inStock := InStockCount(group);
    Kpi(site, n, inStock, Mean(PriceSum(group), n), Mean(100.0 * inStock as real, n))
  }

  /** The mean of n values summing to `total`; a percentage share stays within [0, 100]. */
  function Mean(total: real, n: nat): (m: real)
    requires 0 < n
    ensures m * n as real == total
    ensures 0.0 <= total <= 100.0 * n as real ==> 0.0 <= m <= 100.0
  {
    total / n as real
  }

  /** The KPI table: one row per distinct site, ascending by site. */
  function Kpis(rows: seq<Stamped>): (r: seq<Kpi>)
    ensures |r| == |GroupKeys(rows)|
    ensures forall i :: 0 <= i < |r| ==> r[i] == SiteKpi(rows, GroupKeys(rows)[i])
  {
    var keys := GroupKeys(rows);
    seq(|keys|, i requires 0 <= i < |keys| => SiteKpi(rows, keys[i]))
  }

  /** Every site of the input has a row in the KPI table. */
  lemma KpisCoverSites(rows: seq<Stamped>, i: nat)
    requires i < |rows|
    ensures exists j :: 0 <= j < |Kpis(rows)| && Kpis(rows)[j].site == rows[i].listing.site
  {
    var keys := GroupKeys(rows);
    var site := rows[i].listing.site;
    assert Sites(rows)[i] == site;
    assert site in Sites(rows);
    assert site in keys;
    var j :| 0 <= j < |keys| && keys[j] == site;
    assert Kpis(rows)[j].site == site;
  }

  /**
   * The KPI rows are in strictly ascending site order, hence one per site,
   * and each holds that site's row count and an in-stock rate within 0 to 100.
   */
  lemma KpisPerSite(rows: seq<Stamped>)
    ensures forall i, j :: 0 <= i < j < |Kpis(rows)| ==> Text.LexLess(Kpis(rows)[i].site, Kpis(rows)[j].site)
    ensures forall j :: 0 <= j < |Kpis(rows)| ==>
      Kpis(rows)[j].products == |SiteRows(rows, Kpis(rows)[j].site)| > 0 &&
      Kpis(rows)[j].inStockCount <= Kpis(rows)[j].products &&
      0.0 <= Kpis(rows)[j].inStockRate <= 100.0
  {
  }

  /**
   * The table `compute_kpis` works on. The method adds the `in_stock`
   * column to the caller's frame, as the source does.
   */
  class ScrapeTable {
    var rows: seq<Stamped>
    var inStock: Option<seq<nat>>

    constructor (rows: seq<Stamped>)
      ensures this.rows == rows && inStock == None
    {
      this.rows := rows;
      inStock := None;
    }

    /** `compute_kpis(df)`. */
    method ComputeKpis() returns (kpis: seq<Kpi>)
      modifies this
      ensures rows == old(rows)
      ensures inStock == Some(InStockColumn(rows))
      ensures kpis == Kpis(rows)
    {
      inStock := Some(InStockColumn(rows));
      kpis := Kpis(rows);
    }
  }
}

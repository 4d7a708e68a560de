/** The scraper's entry point: list the members of the SNP category page by page, and for
    each listing page fetch the content of all its members in one batch request. */
module Scraper {
  import opened Wrappers
  import Json
  import opened MediaWiki

  /** `SNPListMember`, `SNPListPage`: one page of the category listing. */
  datatype ListMember = ListMember(title: string)
  datatype ListPage = ListPage(categorymembers: seq<ListMember>)

  /** `SNPBatchPage`: the raw JSON of every page in a batch, by page key. */
  datatype BatchPage = BatchPage(pages: map<string, Json.Value>)

  /** `SNPData` */
  datatype SnpData = SnpData(name: string, content: string)

  /** The category whose members are scraped. */
  const Category := "Category:Is_a_snp"

  /** How many listing pages the scraper processes. */
  const PageLimit := 3

  /** The answer of the wiki to a batch content request with the given query string. */
  type Fetch = Params -> Result<Response<BatchPage>, HttpError>

  /** `json` holds the string `s` at `revisions[0].slots.main["*"]`. */
  ghost predicate HasContent(json: Json.Value, s: string) {
    && json.Object? && "revisions" in json.fields
    && var revisions := json.fields["revisions"];
    && revisions.Array? && |revisions.items| > 0
    && var revision := revisions.items[0];
    && revision.Object? && "slots" in revision.fields
    && var slots := revision.fields["slots"];
    && slots.Object? && "main" in slots.fields
    && var main := slots.fields["main"];
    && main.Object? && "*" in main.fields
    && main.fields["*"] == Json.Str(s)
  }

  /** `json["revisions"][0]["slots"]["main"]["*"].as_str()` */
  function ContentAt(json: Json.Value): Option<string> {
    Json.AsStr(Json.Get(Json.Get(Json.Get(Json.At(Json.Get(json, "revisions"), 0), "slots"), "main"), "*"))
  }

  /** The lookup gives a string exactly when the whole path is present and ends in that string. */
  lemma ContentAtIff(json: Json.Value, s: string)
    ensures ContentAt(json) == Some(s) <==> HasContent(json, s)
  {
  }

  /** `SNPData::parse`. The source unwraps the lookup, so it panics unless the path holds a
      string: that is this function's precondition. */
  function ParseSnpData(name: string, json: Json.Value): (d: SnpData)
    requires ContentAt(json).Some?
    ensures d.name == name && HasContent(json, d.content)
  {
    ContentAtIff(json, ContentAt(json).value);
    SnpData(name, ContentAt(json).value)
  }

  /** Every page of the batch can be parsed without a panic. */
  predicate Extractable(pages: map<string, Json.Value>) {
    forall name :: name in pages ==> ContentAt(pages[name]).Some?
  }

  /** The records of the pages named in `names`. */
  function RecordsOf(pages: map<string, Json.Value>, names: set<string>): set<SnpData>
    requires Extractable(pages) && names <= pages.Keys
  {
    set name | name in names :: ParseSnpData(name, pages[name])
  }

  lemma {:induction false} RecordCount(pages: map<string, Json.Value>, names: set<string>)
    requires Extractable(pages) && names <= pages.Keys
    ensures |RecordsOf(pages, names)| == |names|
    decreases |names|
  {
    if names != {} {
      var k :| k in names;
      var rest := names - {k};
      RecordCount(pages, rest);
      var d := ParseSnpData(k, pages[k]);
      assert RecordsOf(pages, names) == RecordsOf(pages, rest) + {d};
      assert d !in RecordsOf(pages, rest);
    }
  }

  /** `pages.into_iter().map(|(k, v)| SNPData::parse(k, v)).collect()`. The iteration order of
      the source's hash map is unspecified, so the records form a set: one per page, named by
      the page's key, holding that page's content. */
  function Records(pages: map<string, Json.Value>): (r: set<SnpData>)
    requires Extractable(pages)
    ensures |r| == |pages|
    ensures forall name :: name in pages ==> ParseSnpData(name, pages[name]) in r
    ensures forall d :: d in r ==> d.name in pages && HasContent(pages[d.name], d.content)
  {
    RecordCount(pages, pages.Keys);
    RecordsOf(pages, pages.Keys)
  }

  /** A batch of one page gives the one record of that page. */
  lemma SinglePageRecords(name: string, json: Json.Value)
    requires ContentAt(json).Some?
    ensures Records(map[name := json]) == {ParseSnpData(name, json)}
  {
    var r := Records(map[name := json]);
    var d := ParseSnpData(name, json);
    assert d in r;
    assert |r - {d}| == 0;
  }

  /** `page?.categorymembers.into_iter().map(|m| m.title).collect()` */
  function Titles(page: ListPage): (titles: seq<string>)
    ensures |titles| == |page.categorymembers|
    ensures forall i :: 0 <= i < |titles| ==> titles[i] == page.categorymembers[i].title
  {
    seq(|page.categorymembers|, i requires 0 <= i < |page.categorymembers| => page.categorymembers[i].title)
  }

  /** The query string of the batch content request for a listing page. */
  function ContentQuery(page: ListPage): Params {
    WireParams(GetTitles(Titles(page)))
  }

  /** The batch content request asks for exactly the page's member titles, in order. */
  lemma ContentQueryTitles(page: ListPage)
    requires |page.categorymembers| > 0
    requires forall i :: 0 <= i < |page.categorymembers| ==> '|' !in page.categorymembers[i].title
    ensures ContentQuery(page)[3].0 == "titles"
    ensures Split(ContentQuery(page)[3].1, '|') == Titles(page)
  {
    GetTitlesCarriesTitles(Titles(page));
  }

  /** `handle_page` does not panic on `page`: if the batch request for it succeeds, every page of
      the answer holds its content. */
  predicate Answerable(fetch: Fetch, page: Result<ListPage, HttpError>) {
    page.Ok? && fetch(ContentQuery(page.value)).Ok? ==>
      Extractable(fetch(ContentQuery(page.value)).value.query.pages)
  }

  /** `handle_page`: a failed listing page is passed on without a content request; otherwise
      one batch request for its titles, whose failure is passed on, and whose pages are all
      parsed. */
  function HandlePage(fetch: Fetch, page: Result<ListPage, HttpError>): Result<set<SnpData>, HttpError>
    requires Answerable(fetch, page)
  {
    var listing :- page;
    var request := GetTitles(Titles(listing));
    var rsp :- fetch(WireParams(request));
    Ok(Records(rsp.query.pages))
  }

  /** What `handle_page` gives: the error of the listing page or of its batch request, or one
      record per page of the batch, named by the page's key and holding that page's content. */
  lemma HandlePageResult(fetch: Fetch, page: Result<ListPage, HttpError>)
    requires Answerable(fetch, page)
    ensures page.Err? ==> HandlePage(fetch, page) == Err(page.error)
    ensures page.Ok? && fetch(ContentQuery(page.value)).Err? ==>
              HandlePage(fetch, page) == Err(fetch(ContentQuery(page.value)).error)
    ensures page.Ok? && fetch(ContentQuery(page.value)).Ok? ==>
              var pages := fetch(ContentQuery(page.value)).value.query.pages;
              var r := HandlePage(fetch, page);
              && r.Ok? && |r.value| == |pages|
              && (forall name :: name in pages ==> ParseSnpData(name, pages[name]) in r.value)
              && (forall d :: d in r.value ==> d.name in pages && HasContent(pages[d.name], d.content))
  {
  }

  /** The category listing request built by `main`. */
  function CategoryRequest(): (r: Request)
    ensures r.cont.None?
    ensures r.params == [("list", "categorymembers"), ("cmtitle", "Category:Is_a_snp"),
                         ("action", "query"), ("format", "json")]
  {
    QueryJson([("list", "categorymembers"), ("cmtitle", Category)])
  }

  /** The listing pages `main` pulls: the first three pulls of the category pager. */
  function Listing(script: Script<ListPage>): seq<Result<ListPage, HttpError>> {
    Run(Some(CategoryRequest()), script, 0, PageLimit)
  }

  /** `.map(|page| handle_page(&client, page)).collect()`: every listing page handled, in order. */
  function HandleAll(fetch: Fetch, listing: seq<Result<ListPage, HttpError>>): seq<Result<set<SnpData>, HttpError>>
    requires forall i :: 0 <= i < |listing| ==> Answerable(fetch, listing[i])
  {
    seq(|listing|, i requires 0 <= i < |listing| => HandlePage(fetch, listing[i]))
  }

  /** Handling one more listing page appends its result. */
  lemma HandleAllSnoc(fetch: Fetch, listing: seq<Result<ListPage, HttpError>>, page: Result<ListPage, HttpError>)
    requires forall i :: 0 <= i < |listing| ==> Answerable(fetch, listing[i])
    requires Answerable(fetch, page)
    ensures HandleAll(fetch, listing + [page]) == HandleAll(fetch, listing) + [HandlePage(fetch, page)]
  {
  }

  /** `main`: page through the category listing, taking at most three pages, and handle each.
      The result is `handle_page` applied to each item of that run of the pager. */
  method Scrape(script: Script<ListPage>, fetch: Fetch) returns (results: seq<Result<set<SnpData>, HttpError>>)
    requires forall i :: 0 <= i < |Listing(script)| ==> Answerable(fetch, Listing(script)[i])
    ensures |results| <= PageLimit
    ensures results == HandleAll(fetch, Listing(script))
  {
    ghost var listing := Listing(script);
    var pager := new Source(CategoryRequest(), script);
    results := [];
    var taken := 0;
    while taken < PageLimit
      invariant 0 <= taken <= PageLimit
      invariant pager.Valid() && pager.start == CategoryRequest() && pager.script == script
      invariant pager.calls == taken
      invariant pager.yielded <= listing
      invariant results == HandleAll(fetch, pager.yielded)
    {
      ghost var before := pager.yielded;
      var item := pager.Next();
      if item.None? {
        break;
      }
      RunPrefix(Some(CategoryRequest()), script, 0, pager.calls, PageLimit);
      assert pager.yielded[..taken] == before;
      assert item.value == listing[taken];
      HandleAllSnoc(fetch, before, item.value);
      results := results + [HandlePage(fetch, item.value)];
      taken := taken + 1;
    }
    if pager.request.None? {
      RunStable(Some(CategoryRequest()), script, 0, pager.calls, PageLimit);
    }
    assert listing == pager.yielded;
  }

  /** The wiki's scenario of a two-page listing: the pager yields both pages, then stops. */
  lemma TwoPageListing(script: Script<ListPage>, n: nat)
    requires n >= 2
    requires script(0) == Ok(Response(Some(Continuation("x", "-||")), "", ListPage([ListMember("rs123")])))
    requires script(1) == Ok(Response(None, "", ListPage([ListMember("rs456")])))
    ensures Run(Some(CategoryRequest()), script, 0, n) == [Ok(ListPage([ListMember("rs123")])), Ok(ListPage([ListMember("rs456")]))]
    ensures After(Some(CategoryRequest()), script, 0, n).None?
  {
    EndsAtCall(CategoryRequest(), script, 0, 2, n);
  }

  /** The wiki's scenario of a one-title batch. */
  lemma OneTitleBatch(fetch: Fetch)
    requires fetch(ContentQuery(ListPage([ListMember("rs123")]))) ==
               Ok(Response(None, "", BatchPage(map["rs123" := Json.Object(map["revisions" := Json.Array([
                 Json.Object(map["slots" := Json.Object(map["main" := Json.Object(map["*" := Json.Str("SNP content")])])])])])])))
    ensures HandlePage(fetch, Ok(ListPage([ListMember("rs123")]))) == Ok({SnpData("rs123", "SNP content")})
  {
    var page: Result<ListPage, HttpError> := Ok(ListPage([ListMember("rs123")]));
    var json := Json.Object(map["revisions" := Json.Array([
                  Json.Object(map["slots" := Json.Object(map["main" := Json.Object(map["*" := Json.Str("SNP content")])])])])]);
    var pages := map["rs123" := json];
    assert fetch(ContentQuery(page.value)).value.query.pages == pages;
    assert ContentAt(json) == Some("SNP content");
    SinglePageRecords("rs123", json);
  }
}

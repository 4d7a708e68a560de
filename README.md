# SNPReporter scraper and genotype parser, modelled in Dafny

SNPReporter scrapes a MediaWiki wiki (SNPedia). It lists the members of the category
`Category:Is_a_snp` page by page and follows the wiki's continuation tokens. For each listing
page it fetches the content of all member pages in one batch request and extracts every page's
wikitext. The repository also has a small flat-file genotype parser that reads at most fifty lines.

The model has five modules:

- `Wrappers` (`wrappers.dfy`): `Option` and `Result`. `Result` supports `:-`, which stands for Rust's `?`.
- `Json` (`json.dfy`): serde_json's `Value`, its indexing `v["key"]`/`v[i]` (which gives `Null`
  for a missing key, an index out of range or a value of the wrong shape) and `as_str`.
- `MediaWiki` (`mediawiki.dfy`, from `scraper/src/mediawiki.rs`) covers these parts:
  - the continuation token and its two query parameters;
  - the request builders `new`, `query_json` and `get_titles`, with Rust's `join`;
  - the query string that `send` puts on the wire;
  - the pager `MWSource` as the class `Source`. Its field `request` is `Some(req)` while Active
    and `None` once Exhausted. `Next` is `MWSource::next`.

  The HTTP call is replaced by a *script*, a function that gives the wiki's decoded answer
  (or error) to call number 0, 1, 2, … The pager's real field `calls` is its position in that
  script. Ghost fields record the query string of every call (`sent`) and every item yielded
  (`yielded`). The pure functions `Run` and `After` give the items and the state after any number
  of pulls. `Source.Valid()` ties the class to them. Whole-run properties are lemmas about
  `Run` and `After`.
- `Scraper` (`scraper.dfy`, from `scraper/src/main.rs`) covers `SNPData::parse`, the
  `handle_page` pipeline and `main`. `main` becomes the method `Scrape`, which returns the
  results `main` prints. The batch content request's answer is a function `Fetch` from the
  query string to the decoded answer (or error).
- `Parser` (`parser.dfy`, from `src/parser.rs`) covers `parse_line` and `parse`. The input is the
  sequence of line-read results, and `Manifest` is the reference definition of what `parse`
  returns.

`SNPData::parse` calls `unwrap`, so a missing or non-string path panics. The model makes the
path's presence a precondition (`ParseSnpData`, `Extractable`) and has no missing-field error.
The records are printed, not stored.

## Model

| member | source | states |
|---|---|---|
| `MediaWiki.ToParams` | scraper/src/mediawiki.rs:10-12 | exactly two parameters, `cmcontinue` then `continue`, from which the token is read back unchanged |
| `MediaWiki.New` | scraper/src/mediawiki.rs:30-32 | a new request holds no continuation token and keeps the given parameters unchanged |
| `MediaWiki.QueryJson` | scraper/src/mediawiki.rs:34-38 | the caller's parameters keep their order, followed by exactly `action=query` and then `format=json`; no token |
| `MediaWiki.GetTitles` | scraper/src/mediawiki.rs:40-49 | the six parameters `prop=revisions`, `rvprop` = the two words content and timestamp joined by a vertical bar, `rvslots=main`, `titles` = the titles joined by a vertical bar, `action=query`, `format=json`, in that order |
| `MediaWiki.SplitJoin` | scraper/src/mediawiki.rs:45 | splitting the joined titles at the vertical bar gives back the list, when it is non-empty and no title contains a vertical bar |
| `MediaWiki.JoinExamples` | scraper/src/mediawiki.rs:45 | the list A, B joins to A, vertical bar, B; the list of A alone joins to A |
| `MediaWiki.JoinIsAmbiguous` | scraper/src/mediawiki.rs:45 | titles are not escaped: one title containing a vertical bar gives the same `titles` value as the two titles on either side of it |
| `MediaWiki.GetTitlesCarriesTitles` | scraper/src/mediawiki.rs:40-49 | the fourth parameter is `titles`, and the wiki recovers exactly the requested titles from it, in order |
| `MediaWiki.WireParams` | scraper/src/mediawiki.rs:51-59 | the request's parameters come first, unchanged; then nothing when no token is held, or the held token's parameters, from which the token is recovered |
| `MediaWiki.Advance` | scraper/src/mediawiki.rs:84-92 | after a call the pager stays Active exactly when the answer is a success with a token; it then keeps its parameters and holds that token |
| `MediaWiki.Run` | scraper/src/mediawiki.rs:79-96 | a run of at most n pulls yields at most n items, one per call made |
| `MediaWiki.RunPrefix` | scraper/src/mediawiki.rs:79-96 | pulling more often only extends the items yielded: the items of fewer pulls are a prefix |
| `MediaWiki.RunItem` | scraper/src/mediawiki.rs:83-93 | the i-th item a pager yields is the payload or error of the answer to the i-th call |
| `MediaWiki.RunStep` | scraper/src/mediawiki.rs:79-96 | a pull from an Active pager makes exactly one more call and appends exactly one item |
| `MediaWiki.RunStable` | scraper/src/mediawiki.rs:80-81 | Exhausted is absorbing: further pulls yield nothing and the pager stays Exhausted |
| `MediaWiki.HeldRequest` | scraper/src/mediawiki.rs:86-87 | while Active, the held request has its original parameters and carries the token of the latest answer |
| `MediaWiki.CallsAndTokens` | scraper/src/mediawiki.rs:84-92 | calls made = tokens received while Active, and tokens received + 1 once Exhausted |
| `MediaWiki.EndsAtCall` | scraper/src/mediawiki.rs:84-93 | if call N is the first answered without a token (error or last page), the run yields N-1 pages, then that answer's payload or error, then ends |
| `MediaWiki.ConsistentStep` | scraper/src/mediawiki.rs:82-93 | one call of an Active pager appends its query string and its item to the history. The history stays consistent: every call after the first sent the original parameters followed by the previous answer's token |
| `MediaWiki.Source.constructor` | scraper/src/mediawiki.rs:71-73 | a new pager is Active with the given request and has made no call |
| `MediaWiki.Source.Next` | scraper/src/mediawiki.rs:79-96 | Exhausted: yields nothing, makes no call and changes nothing. Active: one call with the request's query string; yields that answer's payload or error; keeps the parameters and holds the new token, or becomes Exhausted. Keeps `Valid()`, which says every call after the first sent the original parameters followed by the previous answer's token |
| `Scraper.ContentAtIff` | scraper/src/main.rs:43 | the lookup `revisions[0].slots.main["*"]` gives a string exactly when every step of that path is present and it ends in that string |
| `Scraper.ParseSnpData` | scraper/src/main.rs:42-44 | the record keeps the given name and holds the string at the content path; it is defined only when that path holds a string (the source panics otherwise) |
| `Scraper.RecordCount` | scraper/src/main.rs:28 | parsing distinct page keys gives distinct records, one per key |
| `Scraper.Records` | scraper/src/main.rs:28 | one record per page of the batch, named by the page's key and holding that page's content, and no other records |
| `Scraper.SinglePageRecords` | scraper/src/main.rs:28 | a batch holding one page gives exactly the one record parsed from that page |
| `Scraper.Titles` | scraper/src/main.rs:25 | the member titles of a listing page, one per member, in order |
| `Scraper.ContentQueryTitles` | scraper/src/main.rs:25-26 | the batch request for a listing page asks for exactly its member titles, in their original order |
| `Scraper.HandlePageResult` | scraper/src/main.rs:24-29 | a failed listing page yields its error whatever the wiki would answer (no content request); a failed batch request yields its error; otherwise one record per returned page, named by its key and holding its content, and no other records |
| `Scraper.CategoryRequest` | scraper/src/main.rs:13-16 | `list=categorymembers`, `cmtitle=Category:Is_a_snp`, `action=query`, `format=json`, in that order, with no token |
| `Scraper.Scrape` | scraper/src/main.rs:11-22 | at most three listing pages are processed: the result is `handle_page` applied to each item of the first three pulls of the category pager, in order (`HandleAll`); it requires only that the batches actually requested for those items can be parsed without a panic |
| `Scraper.TwoPageListing` | scraper/src/main.rs:16-18 | a first listing page with a token and a second without one make the pager yield exactly those two pages and stop |
| `Scraper.OneTitleBatch` | scraper/src/main.rs:24-29 | a batch for `rs123` whose page holds `"SNP content"` yields exactly the record `rs123` / `"SNP content"` |
| `Parser.ParseLine` | src/parser.rs:26-28 | never fails; the key is `Snp` with the whole line as id and the value is genotype `GG` |
| `Parser.Read` | src/parser.rs:18 | the reads performed are the first fifty lines, or all of them when there are fewer |
| `Parser.FirstError` | src/parser.rs:19 | the position of a failed read preceded only by successful reads, or none when every read succeeded |
| `Parser.FirstErrorAt` | src/parser.rs:19 | a failed read preceded only by successful ones is the first failure |
| `Parser.Parse` | src/parser.rs:16-24 | the loop returns exactly `Manifest(input)`: the first read error among the first fifty lines, or else the map from every line read to `GG` |
| `Parser.FirstErrorAborts` | src/parser.rs:19 | if one of the first fifty reads fails, the result is the first such error and no map |
| `Parser.AllReadsSucceed` | src/parser.rs:17-23 | when the first fifty reads succeed, the keys are exactly the ids of those lines and every value is `GG` |
| `Parser.IdsCount` | src/parser.rs:20 | the number of distinct SNPs equals the number of distinct line texts and is at most the number of lines |
| `Parser.ManifestSize` | src/parser.rs:20 | repeated lines collapse to one key: the map's size is the number of distinct lines read, at most fifty and at most the input length |
| `Parser.OnlyFirstLinesMatter` | src/parser.rs:18 | lines after the fiftieth never affect the result |
| `Parser.EmptyInput` | src/parser.rs:17-23 | an empty input gives an empty map |

## Left out

- The HTTP request itself is network I/O and is not modelled: `reqwest`, the fixed endpoint `http://bots.snpedia.com/api.php`, `Client::new` and the client reference the pager keeps. The pager gets its answers from a script indexed by call number. The batch request gets its answer from a function of the query string.
- Source: the script answers by call number, not by the query string sent. The query strings are recorded and proved (`sent` in `Valid()`), but an answer cannot depend on them.
- JSON decoding into `MWResponse`, `SNPListPage` and `SNPBatchPage`, including the required `batchcomplete` field, is done by a foreign library. Decoded values are taken as given, and a decode failure is one of the opaque `HttpError` values.
- The hash map's iteration order in `handle_page` is unspecified, so the records are a set, not a vector in some order.
- The error payloads of `reqwest::Error` and `std::io::Error` are opaque identifiers.
- `println!` of the results, lifetimes and `PhantomData` have no behaviour to model.
- `src/main.rs` (opening `data/23andme.txt`, building the reader, printing, `expect`) is file I/O. `Parse` takes the sequence of line-read results instead.
- JSON numbers are unbounded integers; floating point is not modelled.

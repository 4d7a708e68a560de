/** The MediaWiki client: request building, the parameters a request puts on the wire,
    and the pager that follows continuation tokens until the wiki says it is done.
    The HTTP transport is replaced by a script of the wiki's answers. */
module MediaWiki {
  import opened Wrappers

  type Param = (string, string)
  type Params = seq<Param>

  /** The HTTP client's error (connection failure, or a body that does not decode into the
      expected envelope). Its contents are opaque. */
  datatype HttpError = HttpError(id: nat)

  /** `MWContinue`: the continuation token the wiki returns while more results remain. */
  datatype Continuation = Continuation(cmcontinue: string, cont: string)

  /** `MWContinue::to_params`: the two query parameters that carry a token back to the wiki. */
  function ToParams(c: Continuation): (r: Params)
    ensures |r| == 2
    ensures r[0].0 == "cmcontinue" && r[1].0 == "continue"
    ensures FromParams(r) == Some(c)
  {
    [("cmcontinue", c.cmcontinue), ("continue", c.cont)]
  }

  /** How the wiki reads a token back from the parameters that carry it. */
  function FromParams(ps: Params): Option<Continuation> {
    if |ps| == 2 && ps[0].0 == "cmcontinue" && ps[1].0 == "continue"
    then Some(Continuation(ps[0].1, ps[1].1))
    else None
  }

  /** `MWRequest`: ordered query parameters and, once the wiki has sent one, a token. */
  datatype Request = Request(cont: Option<Continuation>, params: Params)

  /** `MWRequest::new` */
  function New(params: Params): (r: Request)
    ensures r.cont.None? && r.params == params
  {
    Request(None, params)
  }

  /** `MWRequest::query_json`: the caller's parameters, then `action=query` and `format=json`. */
  function QueryJson(params: Params): (r: Request)
    ensures r.cont.None?
    ensures |r.params| == |params| + 2
    ensures r.params[..|params|] == params
    ensures r.params[|params|..] == [("action", "query"), ("format", "json")]
    ensures ("action", "query") in r.params && ("format", "json") in r.params
  {
    var pushed := params + [("action", "query")];
    New(pushed + [("format", "json")])
  }

  /** Rust's `join` of a list of strings with a one-character separator. */
  function Join(xs: seq<string>, sep: char): string {
    if |xs| == 0 then ""
    else if |xs| == 1 then xs[0]
    else xs[0] + [sep] + Join(xs[1..], sep)
  }

  /** Splitting at every separator: how the wiki reads a joined `titles` value back. */
  function Split(s: string, sep: char): (parts: seq<string>)
    ensures |parts| >= 1
  {
    if |s| == 0 then [""]
    else
      var rest := Split(s[1..], sep);
      if s[0] == sep then [""] + rest else [[s[0]] + rest[0]] + rest[1..]
  }

  lemma {:induction false} SplitWithoutSeparator(a: string, sep: char)
    requires sep !in a
    ensures Split(a, sep) == [a]
  {
    if |a| > 0 {
      SplitWithoutSeparator(a[1..], sep);
      assert [a[0]] + a[1..] == a;
    }
  }

  lemma {:induction false} SplitAtFirstSeparator(a: string, sep: char, b: string)
    requires sep !in a
    ensures Split(a + [sep] + b, sep) == [a] + Split(b, sep)
  {
    if |a| == 0 {
      assert a + [sep] + b == [sep] + b;
    } else {
      var s := a + [sep] + b;
      assert s[0] == a[0] && s[1..] == a[1..] + [sep] + b;
      SplitAtFirstSeparator(a[1..], sep, b);
      assert [a[0]] + a[1..] == a;
    }
  }

  /** Joining is undone by splitting, as long as no element contains the separator. */
  lemma {:induction false} SplitJoin(xs: seq<string>, sep: char)
    requires |xs| > 0
    requires forall i :: 0 <= i < |xs| ==> sep !in xs[i]
    ensures Split(Join(xs, sep), sep) == xs
  {
    if |xs| == 1 {
      SplitWithoutSeparator(xs[0], sep);
    } else {
      assert sep !in xs[0];
      SplitAtFirstSeparator(xs[0], sep, Join(xs[1..], sep));
      SplitJoin(xs[1..], sep);
      assert [xs[0]] + xs[1..] == xs;
    }
  }

  lemma JoinExamples()
    ensures Join(["A", "B"], '|') == "A|B"
    ensures Join(["A"], '|') == "A"
  {
  }

  /** Titles are not escaped: a title containing `|` is indistinguishable from two titles. */
  lemma JoinIsAmbiguous()
    ensures Join(["A|B"], '|') == Join(["A", "B"], '|')
  {
  }

  /** `MWRequest::get_titles`: the batch content request for a list of titles. */
  function GetTitles(titles: seq<string>): (r: Request)
    ensures r.cont.None?
    ensures r.params == [("prop", "revisions"), ("rvprop", "content|timestamp"), ("rvslots", "main"),
                         ("titles", Join(titles, '|')), ("action", "query"), ("format", "json")]
  {
    QueryJson([("prop", "revisions"), ("rvprop", "content|timestamp"), ("rvslots", "main"),
               ("titles", Join(titles, '|'))])
  }

  /** The wiki recovers exactly the requested titles, in order, from the `titles` parameter. */
  lemma GetTitlesCarriesTitles(titles: seq<string>)
    requires |titles| > 0
    requires forall i :: 0 <= i < |titles| ==> '|' !in titles[i]
    ensures GetTitles(titles).params[3].0 == "titles"
    ensures Split(GetTitles(titles).params[3].1, '|') == titles
  {
    SplitJoin(titles, '|');
  }

  /** The query string `send` puts on the wire: the request's parameters, then those of its
      token when it holds one. */
  function WireParams(req: Request): (r: Params)
    ensures |req.params| <= |r| && r[..|req.params|] == req.params
    ensures req.cont.None? ==> r == req.params
    ensures req.cont.Some? ==> FromParams(r[|req.params|..]) == req.cont
  {
    match req.cont
    case None => req.params
    case Some(c) => req.params + ToParams(c)
  }

  /** `MWResponse<T>`, already decoded: the token (absent on the last page) and the payload. */
  datatype Response<T> = Response(cont: Option<Continuation>, batchcomplete: string, query: T)

  /** The wiki's answer to each call, in call order: `script(i)` answers call number `i`. */
  type Script<T> = nat -> Result<Response<T>, HttpError>

  predicate HasToken<T>(rsp: Result<Response<T>, HttpError>) {
    rsp.Ok? && rsp.value.cont.Some?
  }

  /** `rsp.map(|r| r.query)`: the item the pager yields for a response. */
  function Payload<T>(rsp: Result<Response<T>, HttpError>): Result<T, HttpError> {
    match rsp
    case Ok(r) => Ok(r.query)
    case Err(e) => Err(e)
  }

  /** What the pager holds after a call answered by `rsp`: the same request carrying the new
      token when there is one, and nothing (Exhausted) after a last page or an error. */
  function Advance<T>(req: Request, rsp: Result<Response<T>, HttpError>): (next: Option<Request>)
    ensures next.Some? <==> HasToken(rsp)
    ensures next.Some? ==> next.value.params == req.params && next.value.cont == rsp.value.cont
  {
    match rsp
    case Ok(r) =>
      (match r.cont
       case Some(_) => Some(Request(r.cont, req.params))
       case None => None)
    case Err(_) => None
  }

  /** The items of at most `n` pulls from a pager in state `request` that has made `k` calls,
      stopping at the first pull that yields nothing. Every item is the payload of one call. */
  function Run<T>(request: Option<Request>, script: Script<T>, k: nat, n: nat): (items: seq<Result<T, HttpError>>)
    ensures |items| <= n
    decreases n
  {
    if n == 0 || request.None? then []
    else
      var rsp := script(k);
      [Payload(rsp)] + Run(Advance(request.value, rsp), script, k + 1, n - 1)
  }

  /** More pulls only extend what a run yields. */
  lemma {:induction false} RunPrefix<T>(request: Option<Request>, script: Script<T>, k: nat, n: nat, m: nat)
    requires n <= m
    ensures Run(request, script, k, n) <= Run(request, script, k, m)
    decreases n
  {
    if n > 0 && request.Some? {
      RunPrefix(Advance(request.value, script(k)), script, k + 1, n - 1, m - 1);
    }
  }

  /** The `i`-th item of a run is the payload of the answer to the `i`-th call. */
  lemma {:induction false} RunItem<T>(request: Option<Request>, script: Script<T>, k: nat, n: nat, i: nat)
    requires i < |Run(request, script, k, n)|
    ensures Run(request, script, k, n)[i] == Payload(script(k + i))
    decreases n
  {
    if i > 0 {
      RunItem(Advance(request.value, script(k)), script, k + 1, n - 1, i - 1);
    }
  }

  /** The state of that pager after those pulls. */
  function After<T>(request: Option<Request>, script: Script<T>, k: nat, n: nat): Option<Request>
    decreases n
  {
    if n == 0 || request.None? then request
    else After(Advance(request.value, script(k)), script, k + 1, n - 1)
  }

  /** One more pull of a pager that is still Active makes one more call. */
  lemma {:induction false} RunStep<T>(request: Option<Request>, script: Script<T>, k: nat, n: nat)
    requires After(request, script, k, n).Some?
    ensures |Run(request, script, k, n)| == n
    ensures Run(request, script, k, n + 1) == Run(request, script, k, n) + [Payload(script(k + n))]
    ensures After(request, script, k, n + 1) == Advance(After(request, script, k, n).value, script(k + n))
    decreases n
  {
    if n > 0 {
      RunStep(Advance(request.value, script(k)), script, k + 1, n - 1);
    }
  }

  /** Exhausted is absorbing: once the pager is exhausted, further pulls yield nothing. */
  lemma {:induction false} RunStable<T>(request: Option<Request>, script: Script<T>, k: nat, n: nat, m: nat)
    requires n <= m
    requires After(request, script, k, n).None?
    ensures Run(request, script, k, m) == Run(request, script, k, n)
    ensures After(request, script, k, m).None?
    decreases n
  {
    if request.Some? {
      RunStable(Advance(request.value, script(k)), script, k + 1, n - 1, m - 1);
    }
  }

  /** While Active, the pager holds its first request's parameters unchanged, with the token
      of the latest response merged in. */
  lemma {:induction false} HeldRequest<T>(start: Request, script: Script<T>, k: nat, n: nat)
    requires After(Some(start), script, k, n).Some?
    ensures After(Some(start), script, k, n).value.params == start.params
    ensures n == 0 ==> After(Some(start), script, k, n) == Some(start)
    ensures n > 0 ==> HasToken(script(k + n - 1))
    ensures n > 0 ==> After(Some(start), script, k, n).value.cont == script(k + n - 1).value.cont
    decreases n
  {
    if n > 0 {
      var next := Advance(start, script(k));
      HeldRequest(next.value, script, k + 1, n - 1);
    }
  }

  /** How many of the calls `k`, ..., `k + c - 1` were answered with a token. */
  function TokensReceived<T>(script: Script<T>, k: nat, c: nat): (t: nat)
    ensures t <= c
    decreases c
  {
    if c == 0 then 0
    else (if HasToken(script(k)) then 1 else 0) + TokensReceived(script, k + 1, c - 1)
  }

  /** The number of calls is the number of tokens received, plus one once the pager is
      exhausted (the call whose answer had no token, or failed). */
  lemma {:induction false} CallsAndTokens<T>(start: Request, script: Script<T>, k: nat, n: nat)
    ensures After(Some(start), script, k, n).None? ==>
              |Run(Some(start), script, k, n)| == TokensReceived(script, k, |Run(Some(start), script, k, n)|) + 1
    ensures After(Some(start), script, k, n).Some? ==>
              |Run(Some(start), script, k, n)| == n == TokensReceived(script, k, n)
    decreases n
  {
    if n > 0 {
      var next := Advance(start, script(k));
      assert Run(Some(start), script, k, n) == [Payload(script(k))] + Run(next, script, k + 1, n - 1);
      assert After(Some(start), script, k, n) == After(next, script, k + 1, n - 1);
      if next.Some? {
        CallsAndTokens(next.value, script, k + 1, n - 1);
        var c := |Run(Some(start), script, k, n)|;
        assert TokensReceived(script, k, c) == 1 + TokensReceived(script, k + 1, c - 1);
      } else {
        assert TokensReceived(script, k, 1) == 0;
      }
    }
  }

  /** A run whose first `N - 1` calls are answered with a token and whose call number `N` is
      answered without one (an error, or the last page) yields exactly `N` items and ends:
      `N - 1` pages, then that last answer's payload or error, then nothing. */
  lemma {:induction false} EndsAtCall<T>(start: Request, script: Script<T>, k: nat, N: nat, n: nat)
    requires 1 <= N <= n
    requires forall j :: k <= j < k + N - 1 ==> HasToken(script(j))
    requires !HasToken(script(k + N - 1))
    ensures |Run(Some(start), script, k, n)| == N
    ensures forall i :: 0 <= i < N - 1 ==>
              Run(Some(start), script, k, n)[i].Ok? && Run(Some(start), script, k, n)[i] == Payload(script(k + i))
    ensures Run(Some(start), script, k, n)[N - 1] == Payload(script(k + N - 1))
    ensures After(Some(start), script, k, n).None?
    decreases N
  {
    var next := Advance(start, script(k));
    var items := Run(Some(start), script, k, n);
    assert items == [Payload(script(k))] + Run(next, script, k + 1, n - 1);
    assert After(Some(start), script, k, n) == After(next, script, k + 1, n - 1);
    if N > 1 {
      assert HasToken(script(k));
      EndsAtCall(next.value, script, k + 1, N - 1, n - 1);
    }
    forall i | 0 <= i < N
      ensures items[i] == Payload(script(k + i))
    {
      RunItem(Some(start), script, k, n, i);
    }
  }

  /** What the pager's history says about its state: `calls` calls made, the query string of
      each (`sent`), the items yielded, and the state it is in. */
  ghost predicate Consistent<T>(start: Request, script: Script<T>, calls: nat, request: Option<Request>,
                                sent: seq<Params>, yielded: seq<Result<T, HttpError>>)
  {
    && calls == |sent| == |yielded|
    && yielded == Run(Some(start), script, 0, calls)
    && request == After(Some(start), script, 0, calls)
    && (request.Some? ==> calls == TokensReceived(script, 0, calls))
    && (request.None? ==> calls == TokensReceived(script, 0, calls) + 1)
    && (calls > 0 ==> sent[0] == WireParams(start))
    && (forall i :: 0 <= i < calls - 1 ==> SentWithToken(start, script, sent, i))
  }

  /** Call number `i + 1` sent the original parameters followed by the token that answered
      call number `i`. */
  ghost predicate SentWithToken<T>(start: Request, script: Script<T>, sent: seq<Params>, i: nat)
    requires i + 1 < |sent|
  {
    HasToken(script(i)) && sent[i + 1] == start.params + ToParams(script(i).value.cont.value)
  }

  /** One call of an Active pager keeps its history consistent. */
  lemma ConsistentStep<T>(start: Request, script: Script<T>, calls: nat, request: Option<Request>,
                          sent: seq<Params>, yielded: seq<Result<T, HttpError>>)
    requires Consistent(start, script, calls, request, sent, yielded)
    requires request.Some?
    ensures Consistent(start, script, calls + 1, Advance(request.value, script(calls)),
                       sent + [WireParams(request.value)], yielded + [Payload(script(calls))])
  {
    RunStep(Some(start), script, 0, calls);
    HeldRequest(start, script, 0, calls);
    CallsAndTokens(start, script, 0, calls + 1);
    var sent' := sent + [WireParams(request.value)];
    forall i | 0 <= i < calls
      ensures SentWithToken(start, script, sent', i)
    {
      if i + 1 < calls {
        assert SentWithToken(start, script, sent, i);
        assert sent'[i + 1] == sent[i + 1];
      } else {
        var held := request.value;
        assert sent'[i + 1] == WireParams(held);
        assert held.params == start.params && held.cont == script(i).value.cont;
      }
    }
    assert calls + 1 > 0 ==> sent'[0] == WireParams(start) by {
      if calls == 0 {
        assert request == Some(start);
      } else {
        assert sent'[0] == sent[0];
      }
    }
  }

  /** `MWSource`: the pager. `request` is `Some(req)` while Active and `None` once Exhausted.
      The HTTP client is replaced by `script`, and `calls` is the script's position. */
  class Source<T> {
    const script: Script<T>
    var calls: nat
    var request: Option<Request>
    /** The request the pager was created with. */
    ghost const start: Request
    /** The query string of every call made so far, in order. */
    ghost var sent: seq<Params>
    /** Every item yielded so far, in order. */
    ghost var yielded: seq<Result<T, HttpError>>

    ghost predicate Valid()
      reads this
    {
      Consistent(start, script, calls, request, sent, yielded)
    }

    /** `MWSource::new` */
    constructor (request: Request, script: Script<T>)
      ensures Valid()
      ensures this.request == Some(request) && this.script == script && start == request
      ensures calls == 0 && sent == [] && yielded == []
    {
      this.script := script;
      this.start := request;
      this.request := Some(request);
      calls := 0;
      sent := [];
      yielded := [];
    }

    /** `MWSource::next` */
    method Next() returns (item: Option<Result<T, HttpError>>)
      requires Valid()
      modifies this
      ensures Valid()
      ensures old(request).None? ==> item.None? && unchanged(this)
      ensures old(request).Some? ==>
                && calls == old(calls) + 1
                && sent == old(sent) + [WireParams(old(request).value)]
                && item == Some(Payload(script(old(calls))))
                && yielded == old(yielded) + [item.value]
      ensures old(request).Some? && HasToken(script(old(calls))) ==>
                request == Some(Request(script(old(calls)).value.cont, old(request).value.params))
      ensures old(request).Some? && !HasToken(script(old(calls))) ==> request.None?
    {
      match request
      case None =>
        item := None;
      case Some(req) =>
        ConsistentStep(start, script, calls, request, sent, yielded);
        // `req.send(client)`: the wiki answers the call with the next entry of the script.
        var rsp := script(calls);
        sent := sent + [WireParams(req)];
        calls := calls + 1;
        match rsp {
          case Ok(r) =>
            match r.cont {
              case Some(_) => request := Some(Request(r.cont, req.params));
              case None => request := None;
            }
          case Err(_) =>
            request := None;
        }
        item := Some(Payload(rsp));
        yielded := yielded + [item.value];
        assert request == Advance(req, rsp);
    }
  }
}

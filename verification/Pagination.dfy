/** Continue-token pagination: the server that computes limit and offset and binds a token to
    the query, and the client loop that follows tokens to the end. */
module Pagination {
  import opened Json
  import opened Documents

  datatype TargetRef = TargetRef(group: string, version: string, kind: string)

  /** A target list as decoded: absent, or a list that may be empty. The two are not equal. */
  type TargetList = Option<seq<TargetRef>>

  /** What a token carries. Tokens are unforgeable, so one that verifies is its claims. */
  datatype Claims = Claims(offset: int, limit: int, query: string, targets: TargetList)

  /** A continue string: empty, a token that verifies, or anything else. */
  datatype Token = NoToken | Signed(claims: Claims) | Unverified

  datatype Spec = Spec(query: string, targets: TargetList, limit: int, cont: Token)

  datatype Server = Server(defaultLimit: int, maxLimit: int)

  datatype PageError = InvalidToken | QueryChanged | LimitChanged | TargetsChanged | NegativeLimit | LimitTooLarge

  datatype Result<T> = Ok(value: T) | Err(error: PageError)

  datatype Window = Window(limit: int, offset: int)

  datatype Page = Page(results: seq<SearchResult>, cont: Token)

  /** What the search backend finds, in rank order; None when no index is searchable. */
  type Backend = Option<seq<Fields>>

  /** Conversion to 32 bits, two's complement. */
  function Int32(x: int): (r: int)
    ensures Fits(r) && (Fits(x) ==> r == x)
    decreases if Fits(x) then 0 else if x >= 0 then x else -x
  {
    if x >= 0x8000_0000 then Int32(x - 0x1_0000_0000)
    else if x < -0x8000_0000 then Int32(x + 0x1_0000_0000)
    else x
  }

  lemma {:induction false} Int32Wraps(x: int)
    ensures (Int32(x) - x) % 0x1_0000_0000 == 0
    decreases if Fits(x) then 0 else if x >= 0 then x else -x
  {
    if x >= 0x8000_0000 {
      Int32Wraps(x - 0x1_0000_0000);
    } else if x < -0x8000_0000 {
      Int32Wraps(x + 0x1_0000_0000);
    }
  }

  predicate Fits(x: int) { -0x8000_0000 <= x < 0x8000_0000 }

  // ---- server ------------------------------------------------------------------------------------

  function ValidateAndGetPagination(srv: Server, spec: Spec): Result<Window> {
    if spec.cont.Unverified? then Err(InvalidToken)
    else if spec.cont.Signed? then
      var claims := spec.cont.claims;
      if spec.query != claims.query then Err(QueryChanged)
      else if Int32(srv.defaultLimit) != claims.limit && spec.limit != 0 && spec.limit != claims.limit then
        Err(LimitChanged)
      else if spec.targets != claims.targets then Err(TargetsChanged)
      else Ok(Window(claims.limit, claims.offset))
    else if spec.limit < 0 then Err(NegativeLimit)
    else if spec.limit > 0 then
      if spec.limit > srv.maxLimit then Err(LimitTooLarge) else Ok(Window(spec.limit, 0))
    else Ok(Window(srv.defaultLimit, 0))
  }

  function NextContinueToken(w: Window, found: nat, spec: Spec): Token {
    if found > 0 && found >= w.limit then
      Signed(Claims(w.offset + w.limit, Int32(w.limit), spec.query, spec.targets))
    else NoToken
  }

  /** The hits of one page. */
  function Slice(hits: seq<Fields>, w: Window): seq<Fields> {
    if w.limit <= 0 || w.offset < 0 || w.offset >= |hits| then []
    else if w.offset + w.limit >= |hits| then hits[w.offset..]
    else hits[w.offset..w.offset + w.limit]
  }

  /** Turns a hit into a result, or fails; the server uses `Formatted`. */
  type Formatter = Fields -> Option<SearchResult>

  /** The hits that format, formatted, in order. */
  function Keep(format: Formatter, hits: seq<Fields>): seq<SearchResult> {
    if hits == [] then []
    else Keep(format, hits[..|hits| - 1]) + (var r := format(hits[|hits| - 1]); if r.Some? then [r.value] else [])
  }

  function PageResults(format: Formatter, backend: Backend, w: Window): seq<SearchResult> {
    if backend.Some? then Keep(format, Slice(backend.value, w)) else []
  }

  /** The token depends on the hits found, not on those that format. */
  function TokenOf(backend: Backend, spec: Spec, w: Window): Token {
    if backend.Some? then NextContinueToken(w, |Slice(backend.value, w)|, spec) else NoToken
  }

  function PageOf(backend: Backend, spec: Spec, w: Window): Page {
    Page(PageResults(Formatted, backend, w), TokenOf(backend, spec, w))
  }

  /** The limit of a first request: its own, or the server's default. */
  function FirstLimit(srv: Server, spec: Spec): int { if spec.limit > 0 then spec.limit else srv.defaultLimit }

  /** The limit is positive, and still is in a token's 32 bits. */
  predicate Lasting(limit: int) { limit >= 1 && Int32(limit) >= 1 }

  /** `x` moved into 0..n. */
  function Clip(x: int, n: nat): nat { if x < 0 then 0 else if x > n then n else x }

  /** Runs one search and formats its hits, dropping those that do not format. A first request is
      answered with the first hits, a follow-up with those from its token's offset on. */
  method Create(srv: Server, backend: Backend, spec: Spec) returns (r: Result<Page>)
    ensures r == match ValidateAndGetPagination(srv, spec)
                 case Err(e) => Err(e)
                 case Ok(w) => Ok(PageOf(backend, spec, w))
    ensures r == Err(InvalidToken) <==> spec.cont.Unverified?
    ensures r == Err(NegativeLimit) <==> spec.cont.NoToken? && spec.limit < 0
    ensures r == Err(LimitTooLarge) <==> spec.cont.NoToken? && spec.limit > 0 && spec.limit > srv.maxLimit
    ensures r == Err(QueryChanged) <==> spec.cont.Signed? && spec.query != spec.cont.claims.query
    ensures r == Err(LimitChanged) <==>
              && spec.cont.Signed? && spec.query == spec.cont.claims.query
              && spec.limit != 0 && spec.limit != spec.cont.claims.limit && spec.cont.claims.limit != Int32(srv.defaultLimit)
    ensures r == Err(TargetsChanged) <==>
              && spec.cont.Signed? && spec.query == spec.cont.claims.query && spec.targets != spec.cont.claims.targets
              && (spec.limit == 0 || spec.limit == spec.cont.claims.limit || spec.cont.claims.limit == Int32(srv.defaultLimit))
    ensures r.Ok? && backend.None? ==> r.value == Page([], NoToken)
    ensures r.Ok? && backend.Some? && spec.cont.NoToken? ==>
              ShowsHits(r.value, backend.value, spec, 0, FirstLimit(srv, spec))
    ensures r.Ok? && backend.Some? && spec.cont.Signed? && spec.cont.claims.offset >= 0 ==>
              ShowsHits(r.value, backend.value, spec, spec.cont.claims.offset, spec.cont.claims.limit)
  {
    r := Search(srv, backend, spec);
    ghost var w := ValidateAndGetPagination(srv, spec);
    if backend.Some? && w.Ok? && w.value.offset >= 0 {
      ShownHits(backend.value, spec, w.value);
    }
  }

  /** The page holds the formattable hits from `offset` on, at most `limit` hits, and a token for the
      hits after them exactly when it found that many. */
  ghost predicate ShowsHits(page: Page, hits: seq<Fields>, spec: Spec, offset: int, limit: int) {
    var lo, hi := Clip(offset, |hits|), Clip(offset + limit, |hits|);
    if lo >= hi then page == Page([], NoToken)
    else
      && page.results == Keep(Formatted, hits[lo..hi])
      && page.cont == if hi - lo < limit then NoToken
                      else Signed(Claims(offset + limit, Int32(limit), spec.query, spec.targets))
  }

  lemma ShownHits(hits: seq<Fields>, spec: Spec, w: Window)
    requires w.offset >= 0
    ensures ShowsHits(PageOf(Some(hits), spec, w), hits, spec, w.offset, w.limit)
  {
    var lo, hi := Clip(w.offset, |hits|), Clip(w.offset + w.limit, |hits|);
    assert Keep(Formatted, []) == [];
    if lo < hi {
      assert Slice(hits, w) == hits[lo..hi];
    } else {
      assert Slice(hits, w) == [];
    }
  }

  method Search(srv: Server, backend: Backend, spec: Spec) returns (r: Result<Page>)
    ensures r == match ValidateAndGetPagination(srv, spec)
                 case Err(e) => Err(e)
                 case Ok(w) => Ok(PageOf(backend, spec, w))
  {
    var v := ValidateAndGetPagination(srv, spec);
    if v.Err? {
      return Err(v.error);
    }
    if backend.None? {
      return Ok(Page([], NoToken));
    }
    var found := Slice(backend.value, v.value);
    var results := [];
    for i := 0 to |found|
      invariant results == Keep(Formatted, found[..i])
    {
      assert found[..i + 1][..i] == found[..i];
      var res, _ := FormatSearchResult(found[i]);
      if res.Some? {
        results := results + [res.value];
      }
    }
    assert found[..|found|] == found;
    return Ok(Page(results, NextContinueToken(v.value, |found|, spec)));
  }

  /** The results are those of the hits that format, and nothing else. */
  lemma {:induction false} KeepMeans(format: Formatter, hits: seq<Fields>, r: SearchResult)
    ensures r in Keep(format, hits) <==> exists i :: 0 <= i < |hits| && format(hits[i]) == Some(r)
  {
    if hits != [] {
      var init := hits[..|hits| - 1];
      KeepMeans(format, init, r);
      if i :| 0 <= i < |init| && format(init[i]) == Some(r) {
        assert hits[i] == init[i];
      }
      if i :| 0 <= i < |hits| && format(hits[i]) == Some(r) {
        assert i < |init| ==> init[i] == hits[i];
      }
    }
  }

  // ---- pages -------------------------------------------------------------------------------------

  lemma {:induction false} KeepConcat(format: Fields -> Option<SearchResult>, a: seq<Fields>, b: seq<Fields>)
    ensures Keep(format, a + b) == Keep(format, a) + Keep(format, b)
  {
    if b == [] {
      assert a + b == a;
    } else {
      var n := |b| - 1;
      assert (a + b)[..|a| + n] == a + b[..n];
      KeepConcat(format, a, b[..n]);
    }
  }

  function From(hits: seq<Fields>, offset: int): seq<Fields> {
    if 0 <= offset <= |hits| then hits[offset..] else []
  }

  /** Hits at or after the offset. */
  function Remaining(backend: Backend, offset: int): nat {
    if backend.Some? then |From(backend.value, offset)| else 0
  }

  /** Requests needed to read `n` remaining hits. */
  function Requests(n: nat, limit: int): nat {
    if limit >= 1 && n >= limit then 1 + Requests(n - limit, limit) else 1
  }

  /** One request per full page, and one that is not full. */
  lemma {:induction false} RequestsCount(n: nat, limit: int)
    requires limit >= 1
    ensures (Requests(n, limit) - 1) * limit <= n < Requests(n, limit) * limit
  {
    if n >= limit {
      RequestsCount(n - limit, limit);
      var k := Requests(n - limit, limit);
      assert k * limit == (k - 1) * limit + limit && (k + 1) * limit == k * limit + limit;
    }
  }

  /** A page with a token is full and the rest starts where it ends; without one it is the rest. */
  lemma PageSplits(hits: seq<Fields>, spec: Spec, w: Window)
    requires w.limit >= 1
    ensures var token := TokenOf(Some(hits), spec, w);
            if token.Signed? then
              && token.claims.offset == w.offset + w.limit
              && Slice(hits, w) + From(hits, w.offset + w.limit) == From(hits, w.offset)
              && |Slice(hits, w)| == w.limit
            else token == NoToken && Slice(hits, w) == From(hits, w.offset)
  {}

  // ---- client ------------------------------------------------------------------------------------

  /** Every formattable hit from the window's offset on. */
  ghost function Everything(format: Formatter, backend: Backend, w: Window): seq<SearchResult> {
    if w.limit >= 1 then AllFrom(format, backend, w.offset) else []
  }

  function AllFrom(format: Formatter, backend: Backend, offset: int): seq<SearchResult> {
    if backend.Some? then Keep(format, From(backend.value, offset)) else []
  }

  /** What following every token returns: everything from the offset on, provided the limit is still
      positive in the token's 32 bits. Otherwise the second page is empty and the last. */
  ghost function Followed(format: Formatter, backend: Backend, w: Window): seq<SearchResult> {
    if w.limit < 1 || w.offset < 0 then []
    else if Int32(w.limit) >= 1 then AllFrom(format, backend, w.offset)
    else PageResults(format, backend, w)
  }

  /** How many requests that takes. */
  ghost function FollowRequests(backend: Backend, w: Window): nat {
    if w.limit >= 1 && Remaining(backend, w.offset) >= w.limit
    then 1 + Requests(Remaining(backend, w.offset + w.limit), Int32(w.limit)) else 1
  }

  /** The result of the client loop: the server's refusal, its first page, or everything the tokens
      lead to, with the number of requests that took. */
  ghost predicate Fetched(srv: Server, backend: Backend, base: Spec, all: bool, r: Result<Page>, requests: nat) {
    match ValidateAndGetPagination(srv, base)
    case Err(e) => r == Err(e)
    case Ok(w) =>
      if all then r == Ok(Page(Followed(Formatted, backend, w), NoToken)) && requests == FollowRequests(backend, w)
      else r == Ok(PageOf(backend, base, w)) && requests == 1
  }

  /** The client: follows tokens until none is left. It always ends, and with a limit that is still
      positive in 32 bits it returns every formattable hit from the starting offset exactly once and
      in order, the whole hit list if it started without a token; an exact multiple of the limit
      costs one final empty page. */
  method FetchQuery(srv: Server, backend: Backend, base: Spec, all: bool) returns (r: Result<Page>, ghost requests: nat)
    requires Fits(base.limit) && (base.cont.Signed? ==> Fits(base.cont.claims.limit))
    ensures Fetched(srv, backend, base, all, r, requests)
    ensures base.cont.NoToken? ==> (r.Ok? <==> base.limit == 0 || 0 < base.limit <= srv.maxLimit)
    ensures r.Ok? && all && base.cont.NoToken? && backend.Some? && Lasting(FirstLimit(srv, base)) ==>
              r.value == Page(Keep(Formatted, backend.value), NoToken)
    ensures r.Ok? && all && base.cont.Signed? && Resumable(base.cont.claims) ==>
              && r.value == Page(AllFrom(Formatted, backend, base.cont.claims.offset), NoToken)
              && OnePerPage(requests, base.cont.claims.limit, Remaining(backend, base.cont.claims.offset))
    ensures r.Ok? && all && base.cont.NoToken? && backend.Some? && FirstLimit(srv, base) >= 1 && Fits(FirstLimit(srv, base)) ==>
              OnePerPage(requests, FirstLimit(srv, base), |backend.value|)
  {
    r, requests := Fetch(srv, backend, base, all);
    if r.Ok? && all && base.cont.NoToken? && backend.Some? {
      FromTheStart(srv, backend, base, r.value, requests);
    } else if r.Ok? && all && base.cont.Signed? && Resumable(base.cont.claims) {
      FromTheToken(srv, backend, base, r.value, requests);
    }
  }

  /** One request per full page of the n hits, and one that is not full. */
  predicate OnePerPage(requests: nat, limit: int, n: nat) { (requests - 1) * limit <= n < requests * limit }

  predicate Resumable(claims: Claims) { claims.limit >= 1 && claims.offset >= 0 && Fits(claims.limit) }

  method Fetch(srv: Server, backend: Backend, base: Spec, all: bool) returns (r: Result<Page>, ghost requests: nat)
    requires Fits(base.limit) && (base.cont.Signed? ==> Fits(base.cont.claims.limit))
    ensures Fetched(srv, backend, base, all, r, requests)
  {
    r := Search(srv, backend, base);
    requests := 1;
    if r.Err? || !all {
      return;
    }
    ghost var w := ValidateAndGetPagination(srv, base).value;
    FirstAccounted(Formatted, backend, base, w);
    if r.value.cont == NoToken {
      return;
    }
    var results: seq<SearchResult>;
    results, requests := FollowTokens(srv, backend, base, w, r.value);
    r := Ok(Page(results, NoToken));
  }

  /** Requests page after page, each with the token of the one before. */
  method FollowTokens(srv: Server, backend: Backend, base: Spec, ghost w0: Window, first: Page)
    returns (results: seq<SearchResult>, ghost requests: nat)
    requires Fits(base.limit) && (base.cont.Signed? ==> Fits(base.cont.claims.limit))
    requires Following(Formatted, srv, backend, base, w0, first.results, first.cont, 1)
    ensures results == Followed(Formatted, backend, w0) && requests == FollowRequests(backend, w0)
  {
    results, requests := first.results, 1;
    var cont := first.cont;
    while cont != NoToken
      invariant Following(Formatted, srv, backend, base, w0, results, cont, requests)
      decreases if cont.Signed? then Remaining(backend, cont.claims.offset) + 1 else 0
    {
      FollowUpAccepted(srv, base, cont);
      FollowNext(Formatted, srv, backend, base, w0, results, cont, requests);
      var page := Search(srv, backend, base.(cont := cont));
      results := results + page.value.results;
      cont := page.value.cont;
      requests := requests + 1;
    }
  }

  lemma FromTheStart(srv: Server, backend: Backend, base: Spec, page: Page, requests: nat)
    requires Fetched(srv, backend, base, true, Ok(page), requests) && base.cont.NoToken? && backend.Some?
    ensures Lasting(FirstLimit(srv, base)) ==> page == Page(Keep(Formatted, backend.value), NoToken)
    ensures FirstLimit(srv, base) >= 1 && Fits(FirstLimit(srv, base)) ==>
              OnePerPage(requests, FirstLimit(srv, base), |backend.value|)
  {
    var w := Window(FirstLimit(srv, base), 0);
    assert ValidateAndGetPagination(srv, base) == Ok(w) && From(backend.value, 0) == backend.value;
    if Lasting(w.limit) {
      CompleteExactly(Formatted, backend, w);
    }
    if w.limit >= 1 && Fits(w.limit) {
      RequestsExactly(backend, w);
    }
  }

  lemma FromTheToken(srv: Server, backend: Backend, base: Spec, page: Page, requests: nat)
    requires Fetched(srv, backend, base, true, Ok(page), requests) && base.cont.Signed? && Resumable(base.cont.claims)
    ensures page == Page(AllFrom(Formatted, backend, base.cont.claims.offset), NoToken)
    ensures OnePerPage(requests, base.cont.claims.limit, Remaining(backend, base.cont.claims.offset))
  {
    var w := Window(base.cont.claims.limit, base.cont.claims.offset);
    assert ValidateAndGetPagination(srv, base) == Ok(w);
    CompleteExactly(Formatted, backend, w);
    RequestsExactly(backend, w);
  }

  /** The loop's invariant: what is collected and what the token still leads to is everything. */
  ghost predicate Following(format: Formatter, srv: Server, backend: Backend, base: Spec, w0: Window,
                            results: seq<SearchResult>, cont: Token, requests: nat) {
    && ValidateAndGetPagination(srv, base) == Ok(w0)
    && !cont.Unverified?
    && (cont.Signed? ==>
          && cont.claims.query == base.query && cont.claims.targets == base.targets
          && cont.claims.limit == Int32(w0.limit))
    && results + Later(format, backend, cont) == Followed(format, backend, w0)
    && requests + LaterRequests(backend, cont) == FollowRequests(backend, w0)
  }

  ghost function Later(format: Formatter, backend: Backend, cont: Token): seq<SearchResult> {
    if cont.Signed? then Everything(format, backend, Window(cont.claims.limit, cont.claims.offset)) else []
  }

  ghost function LaterRequests(backend: Backend, cont: Token): nat {
    if cont.Signed? then Requests(Remaining(backend, cont.claims.offset), cont.claims.limit) else 0
  }

  /** The first page and what its token leads to. */
  lemma FirstAccounted(format: Formatter, backend: Backend, spec: Spec, w: Window)
    ensures PageResults(format, backend, w) + Later(format, backend, TokenOf(backend, spec, w)) == Followed(format, backend, w)
    ensures 1 + LaterRequests(backend, TokenOf(backend, spec, w)) == FollowRequests(backend, w)
  {
    if backend.Some? && w.limit >= 1 && w.offset >= 0 {
      PageThenRest(format, backend, w);
      AddsNothing(PageResults(format, backend, w), []);
      if |Slice(backend.value, w)| < w.limit {
        LastPage(backend.value, w);
        assert AllFrom(format, backend, w.offset + w.limit) == [] by {
          assert Keep(format, []) == [];
        }
      } else {
        FullPage(backend.value, w);
      }
    }
  }

  /** Nothing is left behind a page that is not full. */
  lemma LastPage(hits: seq<Fields>, w: Window)
    requires w.limit >= 1 && w.offset >= 0 && |Slice(hits, w)| < w.limit
    ensures Remaining(Some(hits), w.offset) < w.limit && From(hits, w.offset + w.limit) == []
  {}

  lemma FullPage(hits: seq<Fields>, w: Window)
    requires w.limit >= 1 && w.offset >= 0 && |Slice(hits, w)| >= w.limit
    ensures |Slice(hits, w)| == w.limit <= Remaining(Some(hits), w.offset)
    ensures Remaining(Some(hits), w.offset + w.limit) == Remaining(Some(hits), w.offset) - w.limit
  {}

  /** One page is what its window held minus what its token leads to, for one request. */
  lemma PageAccounted(format: Formatter, backend: Backend, spec: Spec, w: Window)
    requires Fits(w.limit)
    ensures PageResults(format, backend, w) + Later(format, backend, TokenOf(backend, spec, w)) == Everything(format, backend, w)
    ensures 1 + LaterRequests(backend, TokenOf(backend, spec, w)) == Requests(Remaining(backend, w.offset), w.limit)
  {
    if backend.Some? && w.limit >= 1 && w.offset >= 0 {
      PageThenRest(format, backend, w);
      AddsNothing(PageResults(format, backend, w), AllFrom(format, backend, w.offset + w.limit));
      if |Slice(backend.value, w)| < w.limit {
        LastPage(backend.value, w);
        assert AllFrom(format, backend, w.offset + w.limit) == [] by {
          assert Keep(format, []) == [];
        }
      } else {
        FullPage(backend.value, w);
      }
    }
  }

  /** A token leads strictly further. */
  lemma TokenAdvances(backend: Backend, spec: Spec, w: Window)
    ensures var cont := TokenOf(backend, spec, w);
            cont.Signed? ==>
              && Remaining(backend, cont.claims.offset) < Remaining(backend, w.offset)
              && cont.claims.query == spec.query && cont.claims.targets == spec.targets && cont.claims.limit == Int32(w.limit)
  {}

  /** Every follow-up the client builds passes the server's token check. */
  lemma FollowUpAccepted(srv: Server, base: Spec, cont: Token)
    requires Fits(base.limit) && (base.cont.Signed? ==> Fits(base.cont.claims.limit))
    requires ValidateAndGetPagination(srv, base).Ok? && cont.Signed?
    requires cont.claims.query == base.query && cont.claims.targets == base.targets
    requires cont.claims.limit == Int32(ValidateAndGetPagination(srv, base).value.limit)
    ensures ValidateAndGetPagination(srv, base.(cont := cont)) == Ok(Window(cont.claims.limit, cont.claims.offset))
  {}

  lemma FollowNext(format: Formatter, srv: Server, backend: Backend, base: Spec, w0: Window,
                   results: seq<SearchResult>, cont: Token, requests: nat)
    requires Following(format, srv, backend, base, w0, results, cont, requests) && cont.Signed?
    ensures var w := Window(cont.claims.limit, cont.claims.offset);
            var next := TokenOf(backend, base.(cont := cont), w);
            && Following(format, srv, backend, base, w0, results + PageResults(format, backend, w), next, requests + 1)
            && (next.Signed? ==> Remaining(backend, next.claims.offset) < Remaining(backend, cont.claims.offset))
  {
    var w := Window(cont.claims.limit, cont.claims.offset);
    var next := TokenOf(backend, base.(cont := cont), w);
    PageAccounted(format, backend, base.(cont := cont), w);
    TokenAdvances(backend, base.(cont := cont), w);
    Regroup(results, PageResults(format, backend, w), Later(format, backend, next));
  }

  lemma Regroup<T>(a: seq<T>, b: seq<T>, c: seq<T>)
    ensures a + b + c == a + (b + c)
  {}

  /** Following every token returns every formattable hit from the starting offset exactly once and
      in order iff the limit is still positive in 32 bits or nothing formattable lies behind the
      first page. */
  lemma CompleteExactly(format: Formatter, backend: Backend, w: Window)
    requires w.limit >= 1 && w.offset >= 0
    ensures Followed(format, backend, w) == AllFrom(format, backend, w.offset)
       <==> Int32(w.limit) >= 1 || AllFrom(format, backend, w.offset + w.limit) == []
  {
    PageThenRest(format, backend, w);
    AddsNothing(PageResults(format, backend, w), AllFrom(format, backend, w.offset + w.limit));
  }

  lemma AddsNothing<T>(page: seq<T>, rest: seq<T>)
    ensures page + [] == page && (page == page + rest <==> rest == [])
  {
    assert |page + rest| == |page| + |rest|;
  }

  /** The first page followed by whatever lies behind it. */
  lemma PageThenRest(format: Formatter, backend: Backend, w: Window)
    requires w.limit >= 1 && w.offset >= 0
    ensures PageResults(format, backend, w) + AllFrom(format, backend, w.offset + w.limit) == AllFrom(format, backend, w.offset)
  {
    if backend.Some? {
      var hits := backend.value;
      KeepConcat(format, Slice(hits, w), From(hits, w.offset + w.limit));
      assert Slice(hits, w) + From(hits, w.offset + w.limit) == From(hits, w.offset) by {
        SliceSplits(hits, w);
      }
    }
  }

  lemma SliceSplits(hits: seq<Fields>, w: Window)
    requires w.limit >= 1 && w.offset >= 0
    ensures Slice(hits, w) + From(hits, w.offset + w.limit) == From(hits, w.offset)
  {}

  /** A limit that fits 32 bits takes one request per full page and one that is not full, so an
      exact multiple of the limit costs a final empty page. */
  lemma RequestsExactly(backend: Backend, w: Window)
    requires Fits(w.limit) && w.limit >= 1 && w.offset >= 0
    ensures (FollowRequests(backend, w) - 1) * w.limit <= Remaining(backend, w.offset) < FollowRequests(backend, w) * w.limit
  {
    RequestsCount(Remaining(backend, w.offset), w.limit);
    assert FollowRequests(backend, w) == Requests(Remaining(backend, w.offset), w.limit);
  }

  /** A server default of 2^31 comes back as a negative limit: with one formattable hit more than
      that, following the tokens misses it. */
  lemma IncompleteExample(format: Formatter, hits: seq<Fields>)
    requires |hits| == 0x8000_0001 && format(hits[0x8000_0000]).Some?
    ensures Followed(format, Some(hits), Window(0x8000_0000, 0)) != AllFrom(format, Some(hits), 0)
  {
    var rest := From(hits, 0x8000_0000);
    assert |rest| == 1 && rest[0] == hits[0x8000_0000];
    assert Keep(format, rest) != [];
    CompleteExactly(format, Some(hits), Window(0x8000_0000, 0));
  }

  // ---- sessions ----------------------------------------------------------------------------------

  /** A follow-up is answered exactly when it repeats query and targets and either leaves the
      limit out, repeats the token's, or the token's is the server default; the token then
      decides limit and offset. */
  lemma TokenDecides(srv: Server, spec: Spec)
    requires spec.cont.Signed?
    ensures var claims := spec.cont.claims;
            if && spec.query == claims.query && spec.targets == claims.targets
               && (spec.limit == 0 || spec.limit == claims.limit || claims.limit == Int32(srv.defaultLimit))
            then ValidateAndGetPagination(srv, spec) == Ok(Window(claims.limit, claims.offset))
            else ValidateAndGetPagination(srv, spec).Err?
  {}

  /** A changed limit is refused iff the token's limit is not the default: with the default in
      the token, any other limit is accepted and ignored. */
  lemma ChangedLimitAccepted(srv: Server, spec: Spec)
    requires spec.cont.Signed? && spec.query == spec.cont.claims.query && spec.targets == spec.cont.claims.targets
    requires spec.limit != 0 && spec.limit != spec.cont.claims.limit
    ensures ValidateAndGetPagination(srv, spec) == Err(LimitChanged) <==> Int32(srv.defaultLimit) != spec.cont.claims.limit
  {}

  lemma ChangedLimitExample()
    ensures var spec := Spec("q", None, 50, Signed(Claims(10, 10, "q", None)));
            ValidateAndGetPagination(Server(10, 100), spec) == Ok(Window(10, 10))
  {}

  /** Each request but the first carries the token the previous page returned, and all are accepted. */
  ghost predicate Session(srv: Server, backend: Backend, specs: seq<Spec>) {
    && (forall i :: 0 <= i < |specs| ==> ValidateAndGetPagination(srv, specs[i]).Ok?)
    && (forall i, j :: 0 <= i && j == i + 1 < |specs| ==> Continues(srv, backend, specs[i], specs[j]))
  }

  ghost predicate Continues(srv: Server, backend: Backend, spec: Spec, next: Spec)
    requires ValidateAndGetPagination(srv, spec).Ok?
  {
    next.cont.Signed? && next.cont == TokenOf(backend, spec, ValidateAndGetPagination(srv, spec).value)
  }

  /** Along any accepted session query, targets and limit stay what they were, whatever limits the
      requests carry, and offsets advance by exactly the limit. */
  lemma {:induction false} SessionBound(srv: Server, backend: Backend, specs: seq<Spec>, i: nat)
    requires Session(srv, backend, specs) && i < |specs|
    requires Fits(ValidateAndGetPagination(srv, specs[0]).value.limit)
    ensures specs[i].query == specs[0].query && specs[i].targets == specs[0].targets
    ensures var w0 := ValidateAndGetPagination(srv, specs[0]).value;
            ValidateAndGetPagination(srv, specs[i]) == Ok(Window(w0.limit, w0.offset + i * w0.limit))
  {
    if i > 0 {
      SessionBound(srv, backend, specs, i - 1);
      assert Continues(srv, backend, specs[i - 1], specs[i]);
      var w0 := ValidateAndGetPagination(srv, specs[0]).value;
      assert w0.offset + (i - 1) * w0.limit + w0.limit == w0.offset + i * w0.limit;
    }
  }
}

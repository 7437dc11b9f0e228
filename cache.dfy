// The read-through response cache in front of the GET routes, and the pattern invalidation the
// mutation routes call (server/middleware/cache.js).

module Cache {
  import opened Wrappers
  import opened Text
  import opened Glob

  /** The named lifetimes of CACHE_DURATIONS. */
  datatype Lifetime = Analytics | Categories | Transactions | UserProfile

  /** The lifetime in seconds. */
  function Seconds(l: Lifetime): (s: nat)
    ensures 300 <= s <= 3600
    ensures l == Analytics ==> s == DefaultSeconds
  {
    match l
    case Analytics => 900
    case Categories => 3600
    case Transactions => 300
    case UserProfile => 1800
  }

  /** The lifetime `cache()` uses when it is given none: 15 minutes. */
  const DefaultSeconds: nat := 900

  /** `req.user?.id || 'anonymous'`: a missing user and the falsy id 0 both read as anonymous. */
  function Owner(userId: Option<nat>): (o: string)
    ensures ':' !in o && '/' !in o && o != []
  {
    if userId.Some? && userId.value != 0 then
      var o := NatToString(userId.value);
      assert forall c :: c in o ==> IsDigit(c);
      o
    else "anonymous"
  }

  function CacheKey(url: string, userId: Option<nat>): string {
    "cache:" + url + ":" + Owner(userId)
  }

  /** Where a suffix `:t` of `a:o` puts the colon. */
  lemma ColonSuffix(a: string, o: string, t: string)
    requires EndsWith(a + ":" + o, ":" + t)
    ensures |t| > |o| ==> t[|t| - |o| - 1] == ':'
    ensures |t| < |o| ==> o[|o| - |t| - 1] == ':'
    ensures |t| == |o| ==> t == o
  {
    var s := a + ":" + o;
    var u := ":" + t;
    assert s[|s| - |u|..] == u;
    if |t| > |o| {
      assert u[|t| - |o|] == s[|a|];
    } else if |t| < |o| {
      assert s[|s| - |u|] == o[|o| - |t| - 1];
    } else {
      assert o == s[|s| - |o|..];
      assert t == u[1..];
    }
  }

  /** A key ends in its owner: whatever follows the last ':' is the owner. */
  lemma OwnerAfterLastColon(a: string, o: string, t: string)
    requires ':' !in o && ':' !in t
    requires EndsWith(a + ":" + o, ":" + t)
    ensures o == t
  {
    ColonSuffix(a, o, t);
  }

  /** `prefix a:o` splits uniquely at its last colon when the owner part holds none. */
  lemma SplitAtLastColon(prefix: string, a1: string, o1: string, a2: string, o2: string)
    requires ':' !in o1 && ':' !in o2
    requires prefix + a1 + ":" + o1 == prefix + a2 + ":" + o2
    ensures a1 == a2 && o1 == o2
  {
    var k := prefix + a1 + ":" + o1;
    var u := ":" + o2;
    assert k[|k| - |u|..] == u by {
      assert k == (prefix + a2) + u;
    }
    OwnerAfterLastColon(prefix + a1, o1, o2);
    assert prefix + a1 == k[..|k| - |o1| - 1];
    assert prefix + a2 == k[..|k| - |o2| - 1];
    assert a1 == (prefix + a1)[|prefix|..];
    assert a2 == (prefix + a2)[|prefix|..];
  }

  /** Keys are unambiguous: the key names its URL and its owner. */
  lemma CacheKeyInjective(url1: string, user1: Option<nat>, url2: string, user2: Option<nat>)
    requires CacheKey(url1, user1) == CacheKey(url2, user2)
    ensures url1 == url2 && Owner(user1) == Owner(user2)
  {
    SplitAtLastColon("cache:", url1, Owner(user1), url2, Owner(user2));
  }

  /** Two signed-in users never share an entry. */
  lemma KeysSeparateUsers(url1: string, a: nat, url2: string, b: nat)
    requires a != 0 && b != 0 && a != b
    ensures CacheKey(url1, Some(a)) != CacheKey(url2, Some(b))
  {
    if CacheKey(url1, Some(a)) == CacheKey(url2, Some(b)) {
      CacheKeyInjective(url1, Some(a), url2, Some(b));
      NatToStringInjective(a, b);
    }
  }

  datatype Request = Request(httpMethod: string, originalUrl: string, userId: Option<nat>)

  /** A response: its status code and the JSON text of its body. */
  datatype Reply = Reply(status: int, body: string)

  /** A stored response body and the lifetime it was stored with. */
  datatype Entry = Entry(json: string, seconds: nat)

  /** `if (cachedData)`: the key holds a non-empty string. */
  predicate IsHit(entries: map<string, Entry>, key: string) {
    key in entries && entries[key].json != ""
  }

  /** What serving one request produced: the reply, whether the route handler ran, and the
      store afterwards. */
  datatype Served = Served(reply: Reply, handlerRan: bool, entries: map<string, Entry>)

  /** `cache(seconds)` in front of `handler`. `reachable` says whether the store answers the
      read; `writeLands` whether the write after the handler reaches it. A hit answers with the
      stored body and status 200; a miss stores whatever body the handler answers with. */
  function Serve(entries: map<string, Entry>, reachable: bool, seconds: nat, req: Request,
                 handler: Request -> Reply, writeLands: bool): (sv: Served)
    ensures !sv.handlerRan <==> req.httpMethod == "GET" && reachable && IsHit(entries, CacheKey(req.originalUrl, req.userId))
    ensures sv.handlerRan ==> sv.reply == handler(req)
    ensures !sv.handlerRan ==> sv.reply == Reply(200, entries[CacheKey(req.originalUrl, req.userId)].json) && sv.entries == entries
  {
    if req.httpMethod != "GET" || !reachable then Served(handler(req), true, entries)
    else
      var key := CacheKey(req.originalUrl, req.userId);
      if IsHit(entries, key) then Served(Reply(200, entries[key].json), false, entries)
      else
        var reply := handler(req);
        Served(reply, true, if writeLands then entries[key := Entry(reply.body, seconds)] else entries)
  }

  /** Only GET requests are cached: anything else reaches the handler and leaves the store as it
      was, and so does a GET while the store cannot be read. */
  lemma ServeBypass(entries: map<string, Entry>, reachable: bool, seconds: nat, req: Request,
                    handler: Request -> Reply, writeLands: bool)
    requires req.httpMethod != "GET" || !reachable
    ensures var r := Serve(entries, reachable, seconds, req, handler, writeLands);
      r.reply == handler(req) && r.handlerRan && r.entries == entries
  {
  }

  /** On a hit the handler does not run: the reply is the stored body whatever the handler is. */
  lemma HitIgnoresHandler(entries: map<string, Entry>, seconds: nat, req: Request,
                          h1: Request -> Reply, h2: Request -> Reply, writeLands: bool)
    requires req.httpMethod == "GET" && IsHit(entries, CacheKey(req.originalUrl, req.userId))
    ensures Serve(entries, true, seconds, req, h1, writeLands) == Serve(entries, true, seconds, req, h2, writeLands)
    ensures !Serve(entries, true, seconds, req, h1, writeLands).handlerRan
  {
  }

  /** A request changes no entry but its own. */
  lemma ServeTouchesOnlyItsKey(entries: map<string, Entry>, reachable: bool, seconds: nat,
                               req: Request, handler: Request -> Reply, writeLands: bool, k: string)
    requires k != CacheKey(req.originalUrl, req.userId)
    ensures var r := Serve(entries, reachable, seconds, req, handler, writeLands);
      (k in r.entries <==> k in entries) && (k in entries ==> r.entries[k] == entries[k])
  {
  }

  /** What one signed-in user requests never changes what another is served from the store. */
  lemma ServeIsolatesUsers(entries: map<string, Entry>, reachable: bool, seconds: nat,
                           req: Request, handler: Request -> Reply, writeLands: bool,
                           url: string, other: nat)
    requires req.userId.Some? && req.userId.value != 0 && other != 0 && other != req.userId.value
    ensures var k := CacheKey(url, Some(other));
      var r := Serve(entries, reachable, seconds, req, handler, writeLands);
      (k in r.entries <==> k in entries) && (k in entries ==> r.entries[k] == entries[k])
  {
    KeysSeparateUsers(url, other, req.originalUrl, req.userId.value);
    ServeTouchesOnlyItsKey(entries, reachable, seconds, req, handler, writeLands, CacheKey(url, Some(other)));
  }

  /** A miss whose write lands is a hit for the next identical request: the same user asking
      for the same URL is answered the stored body, with status 200, without the handler. This
      holds whatever status the first reply had. */
  lemma MissThenHit(entries: map<string, Entry>, seconds: nat, req: Request,
                    h1: Request -> Reply, h2: Request -> Reply, writeLands2: bool)
    requires req.httpMethod == "GET" && !IsHit(entries, CacheKey(req.originalUrl, req.userId))
    requires h1(req).body != ""
    ensures var first := Serve(entries, true, seconds, req, h1, true);
      var second := Serve(first.entries, true, seconds, req, h2, writeLands2);
      first.reply == h1(req) && first.handlerRan &&
      second.reply == Reply(200, h1(req).body) && !second.handlerRan
  {
  }

  /** As written, an error reply is cached like any other and then replayed with status 200:
      a request answered 400 or 500 once is answered 200 with the error body until the entry
      expires. */
  lemma ErrorReplayedAsSuccess(entries: map<string, Entry>, seconds: nat, req: Request,
                               handler: Request -> Reply)
    requires req.httpMethod == "GET" && !IsHit(entries, CacheKey(req.originalUrl, req.userId))
    requires handler(req).status == 500 && handler(req).body != ""
    ensures var first := Serve(entries, true, seconds, req, handler, true);
      var second := Serve(first.entries, true, seconds, req, handler, true);
      first.reply.status == 500 && second.reply.status == 200 && !second.handlerRan
  {
    MissThenHit(entries, seconds, req, handler, handler, true);
  }

  predicate IsSuccess(status: int) { 200 <= status < 300 }

  /** The evidently intended behaviour: only a successful reply is stored. */
  function ServeSuccessOnly(entries: map<string, Entry>, reachable: bool, seconds: nat, req: Request,
                            handler: Request -> Reply, writeLands: bool): Served
  {
    if req.httpMethod != "GET" || !reachable then Served(handler(req), true, entries)
    else
      var key := CacheKey(req.originalUrl, req.userId);
      if IsHit(entries, key) then Served(Reply(200, entries[key].json), false, entries)
      else
        var reply := handler(req);
        var stores := writeLands && IsSuccess(reply.status);
        Served(reply, true, if stores then entries[key := Entry(reply.body, seconds)] else entries)
  }

  /** With only successes stored, a failing request is retried by the next identical request,
      which again gets the handler's own status; every stored entry came from a success. */
  lemma FailureNotReplayed(entries: map<string, Entry>, reachable: bool, seconds: nat, req: Request,
                           handler: Request -> Reply, writeLands: bool)
    requires req.httpMethod == "GET" && !IsHit(entries, CacheKey(req.originalUrl, req.userId))
    requires !IsSuccess(handler(req).status)
    ensures var first := ServeSuccessOnly(entries, reachable, seconds, req, handler, writeLands);
      var second := ServeSuccessOnly(first.entries, reachable, seconds, req, handler, writeLands);
      first.entries == entries && second.reply == handler(req) && second.handlerRan
  {
  }

  /** With only successes stored, a cached reply is exactly what the handler answered when it
      succeeded. */
  lemma SuccessStillCached(entries: map<string, Entry>, seconds: nat, req: Request,
                           h1: Request -> Reply, h2: Request -> Reply)
    requires req.httpMethod == "GET" && !IsHit(entries, CacheKey(req.originalUrl, req.userId))
    requires IsSuccess(h1(req).status) && h1(req).body != ""
    ensures var first := ServeSuccessOnly(entries, true, seconds, req, h1, true);
      var second := ServeSuccessOnly(first.entries, true, seconds, req, h2, true);
      second.reply == Reply(200, h1(req).body) && !second.handlerRan
  {
  }

  /** The body `res.status(code).json({ error: message })` sends. */
  function ErrorJson(message: string): string {
    "{\"error\":\"" + message + "\"}"
  }

  /** The reply a handler's failure sends. */
  function ErrorReply<T>(answer: Outcome<T>): Reply
    requires answer.Failure?
  {
    Reply(answer.status, ErrorJson(answer.message))
  }

  /** Whether a GET under `key` is answered from the store: the store answers and holds a
      non-empty body there. */
  predicate Replays(entries: map<string, Entry>, reachable: bool, key: string) {
    reachable && IsHit(entries, key)
  }

  /** What a client keeps from one GET sent through the middleware: the handler's answer, or
      the stored body the middleware sent in its place. */
  datatype Received<+T> = Fresh(value: T) | Replayed(json: string)

  /** A client's GET under `key`, as the client sees it, when the handler would answer
      `answer`: a replay is a 200 carrying the stored body; anything else is the handler's own
      answer. */
  function Through<T>(entries: map<string, Entry>, reachable: bool, key: string, answer: Outcome<T>)
    : (r: Outcome<Received<T>>)
    ensures r.Success? <==> Replays(entries, reachable, key) || answer.Success?
    ensures Replays(entries, reachable, key) ==> r == Success(200, Replayed(entries[key].json))
    ensures r.Success? && r.value.Fresh? ==> answer.Success? && r.value.value == answer.value
  {
    if Replays(entries, reachable, key) then Success(200, Replayed(entries[key].json))
    else if answer.Success? then Success(answer.status, Fresh(answer.value))
    else Failure(answer.status, answer.message)
  }

  /** `Through` is what `Serve` answers: the same status, a replay exactly when the handler did
      not run, and then the served body. */
  lemma ThroughAgreesWithServe<T>(entries: map<string, Entry>, reachable: bool, seconds: nat, req: Request,
                                  handler: Request -> Reply, writeLands: bool, answer: Outcome<T>)
    requires req.httpMethod == "GET" && handler(req).status == answer.status
    ensures var r := Through(entries, reachable, CacheKey(req.originalUrl, req.userId), answer);
      var s := Serve(entries, reachable, seconds, req, handler, writeLands);
      && r.status == s.reply.status
      && (r.Success? && r.value.Replayed? <==> !s.handlerRan)
      && (r.Success? && r.value.Replayed? ==> r.value.json == s.reply.body)
  {
  }

  /** The store once `KEYS pattern` and `DEL` of what it lists have run. */
  function Invalidated(entries: map<string, Entry>, pattern: string): (r: map<string, Entry>)
    ensures forall k :: k in r ==> k in entries && r[k] == entries[k]
  {
    map k | k in entries && !Match(pattern, k) :: entries[k]
  }

  /** A key the pattern reports is gone afterwards; one it does not report stays as it was. */
  lemma InvalidatedKey(entries: map<string, Entry>, pattern: string, k: string)
    ensures Match(pattern, k) ==> k !in Invalidated(entries, pattern)
    ensures !Match(pattern, k) ==>
      (k in Invalidated(entries, pattern) <==> k in entries) &&
      (k in entries ==> Invalidated(entries, pattern)[k] == entries[k])
  {
  }

  /** Invalidating `pre*` removes every key that starts with pre. */
  lemma PrefixPatternRemoves(entries: map<string, Entry>, pre: string, rest: string)
    requires IsLiteral(pre) && pre != []
    ensures pre + rest !in Invalidated(entries, pre + "*")
  {
    PrefixStarMatches(pre, rest);
  }

  /** Invalidating twice with one pattern removes nothing more. */
  lemma InvalidateIdempotent(entries: map<string, Entry>, pattern: string)
    ensures Invalidated(Invalidated(entries, pattern), pattern) == Invalidated(entries, pattern)
  {
  }

  /** Two invalidations may run in either order. */
  lemma InvalidateCommutes(entries: map<string, Entry>, p1: string, p2: string)
    ensures Invalidated(Invalidated(entries, p1), p2) == Invalidated(Invalidated(entries, p2), p1)
  {
  }

  /** The pattern the transaction routes invalidate after a write by `userId`. */
  function TransactionPattern(userId: nat): string {
    "cache:*/transactions*:" + NatToString(userId)
  }

  /** The pattern the category routes invalidate after any write. */
  const CategoryPattern: string := "cache:*/categories*"

  lemma DigitsAreLiteral(s: string)
    requires AllDigits(s)
    ensures IsLiteral(":" + s)
  {
    assert forall i :: 1 <= i < |":" + s| ==> (":" + s)[i] == s[i - 1];
  }

  lemma TransactionPatternShape(userId: nat)
    ensures TransactionPattern(userId) == TwoStars("cache:", "/transactions", ":" + NatToString(userId))
    ensures IsLiteral("cache:") && IsLiteral("/transactions") && IsLiteral(":" + NatToString(userId))
  {
    DigitsAreLiteral(NatToString(userId));
  }

  lemma CategoryPatternShape()
    ensures CategoryPattern == TwoStars("cache:", "/categories", "")
    ensures IsLiteral("cache:") && IsLiteral("/categories") && IsLiteral("")
  {
  }

  /** A transaction write removes every cached transaction listing of its author: each key whose
      URL contains "/transactions". */
  lemma TransactionPatternRemovesListings(entries: map<string, Entry>, userId: nat, url: string, i: nat)
    requires userId != 0 && OccursAt(url, "/transactions", i)
    ensures CacheKey(url, Some(userId)) !in Invalidated(entries, TransactionPattern(userId))
  {
    var post := ":" + NatToString(userId);
    TransactionPatternShape(userId);
    assert CacheKey(url, Some(userId)) == "cache:" + url + post;
    TwoStarsMatchesInside("cache:", "/transactions", post, url, i);
  }

  /** A transaction write leaves every entry of every other owner (another user, anonymous) as
      it was. */
  lemma TransactionPatternSparesOthers(entries: map<string, Entry>, userId: nat, url: string, owner: Option<nat>)
    requires Owner(owner) != NatToString(userId)
    requires CacheKey(url, owner) in entries
    ensures var k := CacheKey(url, owner);
      var after := Invalidated(entries, TransactionPattern(userId));
      k in after && after[k] == entries[k]
  {
    var key := CacheKey(url, owner);
    TransactionPatternShape(userId);
    if Match(TransactionPattern(userId), key) {
      TwoStarsMatchEndsWith("cache:", "/transactions", ":" + NatToString(userId), key);
      OwnerAfterLastColon("cache:" + url, Owner(owner), NatToString(userId));
    }
  }

  /** The analytics endpoints, each cached per user. */
  datatype Endpoint = Overview | ExpensesByCategory | MonthlyTrends | RecentTransactions | SpendingPatterns

  function EndpointPath(e: Endpoint): (p: string)
    ensures p != [] && '/' !in p && p[0] != 't' && p[0] != 'c'
  {
    match e
    case Overview => "overview"
    case ExpensesByCategory => "expenses-by-category"
    case MonthlyTrends => "monthly-trends"
    case RecentTransactions => "recent-transactions"
    case SpendingPatterns => "spending-patterns"
  }

  /** The URL of an analytics request; its query string holds no '/'. */
  function AnalyticsUrl(e: Endpoint, query: string): string {
    AnalyticsRoot + EndpointPath(e) + query
  }

  /** An analytics key: the prefix naming the analytics routes, then the endpoint, the query,
      and the owner. */
  lemma AnalyticsKeyForm(e: Endpoint, query: string, user: Option<nat>)
    ensures CacheKey(AnalyticsUrl(e, query), user) ==
      AnalyticsPrefix + (EndpointPath(e) + query) + (":" + Owner(user))
    ensures CacheKey(AnalyticsUrl(e, query), user) ==
      AnalyticsPrefix + ((EndpointPath(e) + query) + (":" + Owner(user)))
  {
    KeyRegroup(AnalyticsRoot, EndpointPath(e), query, Owner(user));
  }

  /** The key of URL `root path query` regrouped around its prefix `cache:root`. */
  lemma KeyRegroup(root: string, path: string, query: string, o: string)
    ensures "cache:" + (root + path + query) + ":" + o == ("cache:" + root) + (path + query) + (":" + o)
    ensures "cache:" + (root + path + query) + ":" + o == ("cache:" + root) + ((path + query) + (":" + o))
  {
    assert root + path + query == root + (path + query);
    SeqAssoc("cache:", root, path + query, ":", o);
  }

  lemma SeqAssoc(a: string, b: string, c: string, d: string, e: string)
    ensures a + (b + c) + d + e == (a + b) + c + (d + e)
  {
  }

  /** "cache:/analytics/", the start of every analytics key. */
  const AnalyticsPrefix: string := "cache:" + AnalyticsRoot

  const AnalyticsRoot: string := "/analytics/"

  lemma AnalyticsPrefixSlashes()
    ensures AnalyticsPrefix == "cache:" + "/" + "analytics" + "/"
    ensures '/' !in "cache:" && '/' !in "analytics" && "analytics"[0] == 'a'
  {
    assert AnalyticsRoot == "/" + "analytics" + "/";
  }

  /** In a text with exactly two slashes, a word starting with '/' can only occur at one of
      them, and so not at all when it differs from what follows each. */
  lemma NoSlashWordBetween(p1: string, p2: string, rest: string, word: string, i: int)
    requires '/' !in p1 && '/' !in p2 && '/' !in rest
    requires |word| >= 2 && word[0] == '/'
    requires |p2| >= 1 && word[1] != p2[0] && |rest| >= 1 && word[1] != rest[0]
    ensures !OccursAt(p1 + "/" + p2 + "/" + rest, word, i)
  {
  }

  /** A word that starts with '/' and then neither 'a' nor the endpoint's first letter occurs
      nowhere in an analytics key. */
  lemma AnalyticsKeyLacks(e: Endpoint, query: string, user: Option<nat>, word: string)
    requires '/' !in query
    requires |word| >= 2 && word[0] == '/' && word[1] != 'a' && word[1] != EndpointPath(e)[0]
    ensures var key := CacheKey(AnalyticsUrl(e, query), user);
      forall i :: 0 <= i <= |key| ==> !OccursAt(key, word, i)
  {
    var rest := (EndpointPath(e) + query) + (":" + Owner(user));
    assert '/' !in rest;
    assert rest[0] == EndpointPath(e)[0];
    AnalyticsKeyForm(e, query, user);
    AnalyticsPrefixSlashes();
    forall i | 0 <= i ensures !OccursAt("cache:" + "/" + "analytics" + "/" + rest, word, i) {
      NoSlashWordBetween("cache:", "analytics", rest, word, i);
    }
  }

  /** As written, a transaction write leaves every analytics entry of its author in place: the
      totals, trends and recent list built from the old transactions are served until they
      expire. */
  lemma TransactionPatternSparesAnalytics(entries: map<string, Entry>, userId: nat, e: Endpoint,
                                          query: string, user: Option<nat>)
    requires '/' !in query && CacheKey(AnalyticsUrl(e, query), user) in entries
    ensures var k := CacheKey(AnalyticsUrl(e, query), user);
      var after := Invalidated(entries, TransactionPattern(userId));
      k in after && after[k] == entries[k]
  {
    TransactionPatternMissesAnalytics(userId, e, query, user);
  }

  lemma TransactionPatternMissesAnalytics(userId: nat, e: Endpoint, query: string, user: Option<nat>)
    requires '/' !in query
    ensures !Match(TransactionPattern(userId), CacheKey(AnalyticsUrl(e, query), user))
  {
    var key := CacheKey(AnalyticsUrl(e, query), user);
    AnalyticsKeyLacks(e, query, user, "/transactions");
    TransactionPatternShape(userId);
    TwoStarsMissesWithoutWord("cache:", "/transactions", ":" + NatToString(userId), key);
  }

  /** As written, a category write leaves every analytics entry in place, though the breakdown,
      the recent list and the patterns show category names and colours. */
  lemma CategoryPatternSparesAnalytics(entries: map<string, Entry>, e: Endpoint, query: string, user: Option<nat>)
    requires '/' !in query && CacheKey(AnalyticsUrl(e, query), user) in entries
    ensures var k := CacheKey(AnalyticsUrl(e, query), user);
      var after := Invalidated(entries, CategoryPattern);
      k in after && after[k] == entries[k]
  {
    CategoryPatternMissesAnalytics(e, query, user);
  }

  lemma CategoryPatternMissesAnalytics(e: Endpoint, query: string, user: Option<nat>)
    requires '/' !in query
    ensures !Match(CategoryPattern, CacheKey(AnalyticsUrl(e, query), user))
  {
    var key := CacheKey(AnalyticsUrl(e, query), user);
    AnalyticsKeyLacks(e, query, user, "/categories");
    CategoryPatternShape();
    TwoStarsMissesWithoutWord("cache:", "/categories", "", key);
  }

  /** The analytics entries of one user. */
  function AnalyticsPattern(userId: nat): string {
    OneStar(AnalyticsPrefix, ":" + NatToString(userId))
  }

  /** Every analytics entry. */
  const AllAnalyticsPattern: string := AnalyticsPrefix + "*"

  lemma AnalyticsPrefixLiteral()
    ensures IsLiteral(AnalyticsPrefix) && AnalyticsPrefix != []
  {
  }

  /** The evidently intended invalidation after a transaction write by `userId`: its listings
      and its analytics. */
  function AfterTransactionWrite(entries: map<string, Entry>, userId: nat): map<string, Entry> {
    Invalidated(Invalidated(entries, TransactionPattern(userId)), AnalyticsPattern(userId))
  }

  /** The evidently intended invalidation after a category write: the category list and every
      analytics entry. */
  function AfterCategoryWrite(entries: map<string, Entry>): map<string, Entry> {
    Invalidated(Invalidated(entries, CategoryPattern), AllAnalyticsPattern)
  }

  /** With the analytics pattern added, no analytics entry of the writer survives a transaction
      write. */
  lemma AfterTransactionWriteRemovesAnalytics(entries: map<string, Entry>, userId: nat, e: Endpoint, query: string)
    requires userId != 0
    ensures CacheKey(AnalyticsUrl(e, query), Some(userId)) !in AfterTransactionWrite(entries, userId)
  {
    var post := ":" + NatToString(userId);
    DigitsAreLiteral(NatToString(userId));
    AnalyticsPrefixLiteral();
    AnalyticsKeyForm(e, query, Some(userId));
    OneStarMatchesInside(AnalyticsPrefix, EndpointPath(e) + query, post);
    InvalidatedKey(Invalidated(entries, TransactionPattern(userId)), AnalyticsPattern(userId),
                   CacheKey(AnalyticsUrl(e, query), Some(userId)));
  }

  /** The corrected transaction invalidation still spares every other owner's entries. */
  lemma AfterTransactionWriteSparesOthers(entries: map<string, Entry>, userId: nat, url: string, owner: Option<nat>)
    requires Owner(owner) != NatToString(userId)
    requires CacheKey(url, owner) in entries
    ensures var k := CacheKey(url, owner);
      var after := AfterTransactionWrite(entries, userId);
      k in after && after[k] == entries[k]
  {
    var key := CacheKey(url, owner);
    TransactionPatternSparesOthers(entries, userId, url, owner);
    var post := ":" + NatToString(userId);
    DigitsAreLiteral(NatToString(userId));
    AnalyticsPrefixLiteral();
    if Match(AnalyticsPattern(userId), key) {
      OneStarMatchEndsWith(AnalyticsPrefix, post, key);
      OwnerAfterLastColon("cache:" + url, Owner(owner), NatToString(userId));
    }
  }

  /** With every analytics entry dropped on a category write, none survives it. */
  lemma AfterCategoryWriteRemovesAnalytics(entries: map<string, Entry>, e: Endpoint, query: string, user: Option<nat>)
    ensures CacheKey(AnalyticsUrl(e, query), user) !in AfterCategoryWrite(entries)
  {
    AnalyticsKeyForm(e, query, user);
    AnalyticsPrefixLiteral();
    PrefixPatternRemoves(Invalidated(entries, CategoryPattern), AnalyticsPrefix,
                         (EndpointPath(e) + query) + (":" + Owner(user)));
  }

  /** The Redis connection the middleware and the routes share. */
  class RedisStore {
    var entries: map<string, Entry>
    /** Whether the server answers; when it does not, every command fails. */
    var reachable: bool

    constructor(reachable: bool)
      ensures entries == map[] && this.reachable == reachable
    {
      entries := map[];
      this.reachable := reachable;
    }

    /** The cache middleware around `handler` for one request. */
    method Handle(seconds: nat, req: Request, handler: Request -> Reply, writeLands: bool)
      returns (reply: Reply, handlerRan: bool)
      modifies this
      ensures Served(reply, handlerRan, entries) == Serve(old(entries), reachable, seconds, req, handler, writeLands)
      ensures reachable == old(reachable)
    {
      if req.httpMethod != "GET" {
        reply := handler(req);
        handlerRan := true;
        return;
      }
      if !reachable {
        reply := handler(req);
        handlerRan := true;
        return;
      }
      var key := CacheKey(req.originalUrl, req.userId);
      var cached := if key in entries then Some(entries[key].json) else None;
      if cached.Some? && cached.value != "" {
        reply := Reply(200, cached.value);
        handlerRan := false;
        return;
      }
      reply := handler(req);
      handlerRan := true;
      if writeLands {
        entries := entries[key := Entry(reply.body, seconds)];
      }
    }

    /** `KEYS pattern`. */
    method Keys(pattern: string) returns (keys: set<string>)
      requires reachable
      ensures keys == set k | k in entries && Match(pattern, k)
    {
      keys := set k | k in entries && Match(pattern, k);
    }

    /** `DEL keys`. */
    method Del(keys: set<string>)
      requires reachable
      modifies this
      ensures entries == map k | k in old(entries) && k !in keys :: old(entries)[k]
      ensures reachable == old(reachable)
    {
      entries := map k | k in entries && k !in keys :: entries[k];
    }

    /** `invalidateCache(pattern)`: deletes the matching keys when there are any; a store that
        does not answer is left as it is and nothing is raised. */
    method Invalidate(pattern: string)
      modifies this
      ensures entries == if old(reachable) then Invalidated(old(entries), pattern) else old(entries)
      ensures reachable == old(reachable)
    {
      if !reachable {
        return;
      }
      var keys := Keys(pattern);
      if |keys| > 0 {
        Del(keys);
      } else {
        forall k | k in entries ensures !Match(pattern, k) {
          assert k !in keys;
        }
        assert entries == Invalidated(entries, pattern);
      }
    }

    /** An entry's lifetime running out. */
    method Expire(key: string)
      modifies this
      ensures entries == old(entries) - {key}
      ensures reachable == old(reachable)
    {
      entries := entries - {key};
    }
  }
}

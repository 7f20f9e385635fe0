/** The GitHub repository list: a fetch with bounded retries and linear
    backoff, a ten-minute cache under a fixed key, and the
    stale-while-revalidate decision of which view the repository container
    shows. The DOM is reduced to the view chosen; the network is a scripted
    `Net`; the clock is a parameter. */
module GitHub {
  import opened Json
  import opened Network
  import opened Storage
  import Cache

  const ReposKey: string := "github_repos"
  const CacheDuration: int := 10 * 60 * 1000
  const MaxRetries: nat := 3
  const ReposUrl: string := "https://api.github.com/users/afif25fradana/repos?sort=updated&direction=desc"

  // -----------------------------------------------------------------------
  // fetchWithRetry

  /** What `fetchWithRetry` ends with: a response, a re-thrown transport
      error, or `undefined` when the loop is never entered. */
  datatype Reply =
    | Response(status: int, body: Option<Json>)
    | Thrown
    | NoReturn

  /** A whole call: its reply, the final retry counter, the waits it made and
      the number of requests it sent. */
  datatype Run = Run(reply: Reply, count: nat, waits: seq<nat>, tries: nat)

  /** The loop of `fetchWithRetry` from retry counter `count` on. A 403 below
      the ceiling waits 2000·(count+1) ms and retries; a transport error below
      the ceiling waits 1000·(count+1) ms and retries; at the ceiling a 403 is
      returned and a transport error re-thrown; any other response is
      returned at once. */
  function RetryRun(script: seq<Outcome>, count: nat, max: nat): Run
    decreases if count <= max then max - count + 1 else 0
  {
    if count > max then Run(NoReturn, count, [], 0)
    else
      match Head(script)
      case Resp(status, body) =>
        if status == 403 && count < max then
          var r := RetryRun(Tail(script), count + 1, max);
          Run(r.reply, r.count, [2000 * (count + 1)] + r.waits, r.tries + 1)
        else Run(Response(status, body), count, [], 1)
      case NetErr =>
        if count >= max then Run(Thrown, count, [], 1)
        else
          var r := RetryRun(Tail(script), count + 1, max);
          Run(r.reply, r.count, [1000 * (count + 1)] + r.waits, r.tries + 1)
  }

  /** The outcomes the loop retries on. */
  predicate Retryable(o: Outcome) {
    o.NetErr? || o.status == 403
  }

  /** The wait after outcome `o` when the counter stands at `k`. */
  function Backoff(o: Outcome, k: nat): nat {
    if o.NetErr? then 1000 * (k + 1) else 2000 * (k + 1)
  }

  /** How the last outcome of a call decides its reply. */
  predicate Settles(o: Outcome, count: nat, max: nat, reply: Reply) {
    match o
    case Resp(status, body) => reply == Response(status, body) && (status == 403 ==> count == max)
    case NetErr => reply == Thrown && count == max
  }

  /** Started at or below the ceiling, the loop ends with a response or a
      thrown error, the counter never passes the ceiling and never goes
      down, and it sends one request more than it retries: at most
      `max + 1 - count` requests. Every wait follows a retryable outcome and
      is its linear backoff, and the last outcome settles the reply. */
  lemma {:induction false} RetryTrace(script: seq<Outcome>, count: nat, max: nat)
    requires count <= max
    ensures var r := RetryRun(script, count, max);
      && count <= r.count <= max
      && r.tries == r.count - count + 1
      && |r.waits| == r.count - count
      && (forall i | 0 <= i < |r.waits| ::
            Retryable(At(script, i)) && r.waits[i] == Backoff(At(script, i), count + i))
      && Settles(At(script, r.tries - 1), r.count, max, r.reply)
    decreases max - count
  {
    var r := RetryRun(script, count, max);
    var o := Head(script);
    assert o == At(script, 0);
    if Retryable(o) && count < max {
      var rest := Tail(script);
      RetryTrace(rest, count + 1, max);
      var r' := RetryRun(rest, count + 1, max);
      assert r.waits == [Backoff(o, count)] + r'.waits;
      forall i | 0 <= i < |r.waits|
        ensures Retryable(At(script, i)) && r.waits[i] == Backoff(At(script, i), count + i)
      {
        if i > 0 {
          AtTail(script, i - 1);
        }
      }
      AtTail(script, r'.tries - 1);
    }
  }

  /** The loop falls through and yields `undefined` exactly when the counter
      already stands above the ceiling. */
  lemma RetryFallsThroughIff(script: seq<Outcome>, count: nat, max: nat)
    ensures RetryRun(script, count, max).reply == NoReturn <==> count > max
  {
    if count <= max {
      RetryTrace(script, count, max);
    }
  }

  /** A first answer other than 403 is returned on the first try, without
      waiting and without touching the counter. */
  lemma NonRateLimitedFirstTry(script: seq<Outcome>, count: nat, max: nat, status: int, body: Option<Json>)
    requires count <= max && Head(script) == Resp(status, body) && status != 403
    ensures RetryRun(script, count, max) == Run(Response(status, body), count, [], 1)
  {
  }

  /** A transport that fails every time is tried exactly four times from a
      fresh counter, with waits of 1, 2 and 3 seconds, and the error is
      re-thrown. */
  lemma AlwaysFailingTransport(script: seq<Outcome>)
    requires forall i | 0 <= i < 4 :: At(script, i) == NetErr
    ensures RetryRun(script, 0, MaxRetries) == Run(Thrown, 3, [1000, 2000, 3000], 4)
  {
    RetryTrace(script, 0, MaxRetries);
    var r := RetryRun(script, 0, MaxRetries);
    assert At(script, r.tries - 1) == NetErr;
    assert r.waits[0] == 1000 && r.waits[1] == 2000 && r.waits[2] == 3000;
  }

  /** Two rate-limit answers and then a success: the success is returned after
      three requests, with waits of 2 and 4 seconds. */
  lemma RateLimitedTwiceThenOk(a: Option<Json>, b: Option<Json>, c: Option<Json>, rest: seq<Outcome>)
    ensures RetryRun([Resp(403, a), Resp(403, b), Resp(200, c)] + rest, 0, MaxRetries) ==
              Run(Response(200, c), 2, [2000, 4000], 3)
  {
    var s := [Resp(403, a), Resp(403, b), Resp(200, c)] + rest;
    assert Tail(s) == [Resp(403, b), Resp(200, c)] + rest;
    assert Tail(Tail(s)) == [Resp(200, c)] + rest;
  }

  // -----------------------------------------------------------------------
  // renderRepos

  datatype View =
    | Blank            // the container was cleared and nothing was added
    | Loading
    | Cards(repos: seq<Json>)
    | NoRepos
    | ErrorBox         // the error message with its Retry button

  predicate IsFork(repo: Json) {
    TruthyField(repo, "fork")
  }

  /** `repos.filter(repo => !repo.fork)`. */
  function NonForks(repos: seq<Json>): (r: seq<Json>)
    ensures |r| <= |repos|
    ensures forall k | 0 <= k < |r| :: r[k] in repos && !IsFork(r[k])
  {
    if repos == [] then []
    else (if IsFork(repos[0]) then [] else [repos[0]]) + NonForks(repos[1..])
  }

  /** The filter works element by element: it distributes over concatenation,
      so the kept repositories stay in their original order. */
  lemma {:induction false} NonForksAppend(a: seq<Json>, b: seq<Json>)
    ensures NonForks(a + b) == NonForks(a) + NonForks(b)
  {
    if a != [] {
      assert (a + b)[0] == a[0];
      assert (a + b)[1..] == a[1..] + b;
      NonForksAppend(a[1..], b);
    } else {
      assert a + b == b;
    }
  }

  /** A repository is kept exactly when it is in the list and is not a fork. */
  lemma {:induction false} NonForksMembers(repos: seq<Json>, x: Json)
    ensures x in NonForks(repos) <==> x in repos && !IsFork(x)
  {
    if repos != [] {
      NonForksMembers(repos[1..], x);
      assert repos == [repos[0]] + repos[1..];
    }
  }

  /** `forEach` over a truthy `topics` that is not an array throws. */
  predicate BadTopics(repo: Json) {
    TruthyField(repo, "topics") && !ArrayField(repo, "topics")
  }

  /** Some repository of the list is kept and has bad `topics` exactly when
      some kept one does; the list keeps nothing exactly when every entry is
      a fork. */
  lemma NonForksByMembers(items: seq<Json>)
    ensures (exists k | 0 <= k < |NonForks(items)| :: BadTopics(NonForks(items)[k])) <==>
            exists x | x in items && !IsFork(x) :: BadTopics(x)
    ensures NonForks(items) == [] <==> forall x | x in items :: IsFork(x)
  {
    var kept := NonForks(items);
    if x :| x in items && !IsFork(x) && BadTopics(x) {
      NonForksMembers(items, x);
      var k :| 0 <= k < |kept| && kept[k] == x;
    }
    if x :| x in items && !IsFork(x) {
      NonForksMembers(items, x);
    }
  }

  /** What `renderRepos(repos)` leaves in the container; None when it throws
      (`filter` on a non-array, `.fork` of a null entry, `forEach` on a bad
      `topics` of a repository that is not a fork). */
  function RenderRepos(repos: Json): (r: Option<View>)
    ensures r.None? <==> || !repos.JArr? || JNull in repos.items
                         || exists x | x in repos.items && !IsFork(x) :: BadTopics(x)
    ensures r == Some(NoRepos) <==> repos.JArr? && JNull !in repos.items && forall x | x in repos.items :: IsFork(x)
  {
    match repos
    case JArr(items) =>
      if JNull in items then None
      else
        var kept := NonForks(items);
        NonForksByMembers(items);
        if kept == [] then Some(NoRepos)
        else if exists k | 0 <= k < |kept| :: BadTopics(kept[k]) then None
        else Some(Cards(kept))
    case _ => None
  }

  /** For a list of repositories the view shows exactly the non-fork ones in
      their original order, or the no-repositories message when none is
      left. */
  lemma RenderReposShowsNonForks(items: seq<Json>)
    requires JNull !in items && forall k | 0 <= k < |items| :: !BadTopics(items[k])
    ensures NonForks(items) == [] ==> RenderRepos(JArr(items)) == Some(NoRepos)
    ensures NonForks(items) != [] ==> RenderRepos(JArr(items)) == Some(Cards(NonForks(items)))
  {
    var kept := NonForks(items);
    forall k | 0 <= k < |kept| ensures !BadTopics(kept[k]) {
      NonForksMembers(items, kept[k]);
    }
  }

  // -----------------------------------------------------------------------
  // fetchRepos

  /** The part of `fetchRepos` before the request: which view the cache gives
      and whether the request is made at all. */
  datatype Start = Start(shown: seq<View>, view: View, fetches: bool)

  /** The cached data counts only when it is truthy (`if (cachedData)`). */
  function Rendered(cached: Option<Json>): (r: Option<Json>)
    ensures r.Some? <==> cached.Some? && Truthy(cached.value)
    ensures r.Some? ==> r == cached
  {
    if cached.Some? && Truthy(cached.value) then cached else None
  }

  /** Truthy cached data is rendered at once: an empty list shows the
      no-repositories message and ends the call, a list is rendered and the
      fresh data is still fetched, and a value `renderRepos` throws on ends
      the call with the container cleared. Without cached data the loading
      view is shown. */
  function ShowCached(cached: Option<Json>): Start {
    var rendered := Rendered(cached);
    if rendered.None? then Start([Loading], Loading, true)
    else if LengthIsZero(rendered.value) then Start([NoRepos], NoRepos, false)
    else
      var v := RenderRepos(rendered.value);
      if v.None? then Start([], Blank, false) else Start([v.value], v.value, true)
  }

  /** The part of `fetchRepos` after the request: the views added, the final
      view and what is written to the cache. */
  datatype Finish = Finish(shown: seq<View>, view: View, write: Option<Json>)

  /** The `catch` branch: the error view only when nothing was rendered from
      the cache; otherwise the current view stays. */
  function Failed(rendered: Option<Json>, view: View, write: Option<Json>): Finish {
    if rendered.None? then Finish([ErrorBox], ErrorBox, write) else Finish([], view, write)
  }

  /** Only an ok response with a parsable body is cached. The container is
      rebuilt when nothing came from the cache or the fresh list differs
      from the cached one; a failure shows the error view only when nothing
      came from the cache. */
  function ShowFresh(rendered: Option<Json>, view: View, reply: Reply): Finish {
    if reply.Response? && Ok(reply.status) && reply.body.Some? then
      var repos := reply.body.value;
      if rendered.Some? && rendered.value == repos then Finish([], view, Some(repos))
      else
        if LengthIsZero(repos) then Finish([NoRepos], NoRepos, Some(repos))
        else if JsLength(repos).LengthThrows? then Failed(rendered, Blank, Some(repos))
        else
          var v := RenderRepos(repos);
          if v.Some? then Finish([v.value], v.value, Some(repos))
          else Failed(rendered, Blank, Some(repos))
    else Failed(rendered, view, None)
  }

  /** Everything `fetchRepos` reads and changes. */
  datatype State = State(
    items: map<string, Item>,
    script: seq<Outcome>,
    sent: seq<string>,
    retryCount: nat,
    waited: seq<nat>,
    view: View,
    shown: seq<View>)

  /** The state after one call of `fetchRepos`, reading the clock at
      `readTime` for the cache and at `writeTime` for the new entry. */
  function FetchReposSpec(s: State, hasContainer: bool, readTime: int, writeTime: int, quotaExceeded: bool): State {
    if !hasContainer then s
    else
      var cached := Cache.ReadResult(s.items, ReposKey, readTime, CacheDuration);
      var items := Cache.AfterRead(s.items, ReposKey, readTime, CacheDuration);
      var start := ShowCached(cached);
      if !start.fetches then s.(items := items, view := start.view, shown := s.shown + start.shown)
      else
        var run := RetryRun(s.script, s.retryCount, MaxRetries);
        var fin := ShowFresh(Rendered(cached), start.view, run.reply);
        State(
          if fin.write.Some? then Cache.AfterWrite(items, ReposKey, fin.write.value, writeTime, quotaExceeded) else items,
          Drop(s.script, run.tries),
          s.sent + Repeat(ReposUrl, run.tries),
          run.count,
          s.waited + run.waits,
          fin.view,
          s.shown + start.shown + fin.shown)
  }

  /** The retry loop has made `tries` requests from `script0` and waited
      `waits`, so that `script` is what is left, `sent` is `sent0` followed
      by those requests and `waited` is `waited0` followed by those waits;
      the counter stands at `count`. The whole run is what happened so far
      followed by the run from here. */
  predicate RetrySoFar(script0: seq<Outcome>, sent0: seq<string>, waited0: seq<nat>, count0: nat, max: nat,
                       tries: nat, waits: seq<nat>, script: seq<Outcome>, sent: seq<string>, waited: seq<nat>, count: nat)
  {
    && script == Drop(script0, tries)
    && sent == sent0 + Repeat(ReposUrl, tries)
    && waited == waited0 + waits
    && var rest := RetryRun(script, count, max);
       RetryRun(script0, count0, max) == Run(rest.reply, rest.count, waits + rest.waits, tries + rest.tries)
  }

  /** A retried outcome: one more request, one more wait, one more count. */
  lemma RetryAgain(script0: seq<Outcome>, sent0: seq<string>, waited0: seq<nat>, count0: nat, max: nat,
                   tries: nat, waits: seq<nat>, script: seq<Outcome>, sent: seq<string>, waited: seq<nat>, count: nat)
    requires RetrySoFar(script0, sent0, waited0, count0, max, tries, waits, script, sent, waited, count)
    requires count < max && Retryable(Head(script))
    ensures var ms := Backoff(Head(script), count);
      RetrySoFar(script0, sent0, waited0, count0, max, tries + 1, waits + [ms],
                 Tail(script), sent + [ReposUrl], waited + [ms], count + 1)
  {
    DropStep(script0, tries);
    var ms := Backoff(Head(script), count);
    var rest := RetryRun(Tail(script), count + 1, max);
    assert waits + ([ms] + rest.waits) == (waits + [ms]) + rest.waits;
  }

  /** An outcome that ends the loop: it is the last request. */
  lemma RetryStops(script0: seq<Outcome>, sent0: seq<string>, waited0: seq<nat>, count0: nat, max: nat,
                   tries: nat, waits: seq<nat>, script: seq<Outcome>, sent: seq<string>, waited: seq<nat>, count: nat)
    requires RetrySoFar(script0, sent0, waited0, count0, max, tries, waits, script, sent, waited, count)
    requires count <= max && !(count < max && Retryable(Head(script)))
    ensures var r := RetryRun(script0, count0, max);
      && r.reply == (if Head(script).Resp? then Response(Head(script).status, Head(script).body) else Thrown)
      && r.count == count && waited == waited0 + r.waits
      && Tail(script) == Drop(script0, r.tries) && sent + [ReposUrl] == sent0 + Repeat(ReposUrl, r.tries)
  {
    DropStep(script0, tries);
    assert waits + [] == waits;
  }

  /** The counter passed the ceiling: nothing is returned. */
  lemma RetryFallsThrough(script0: seq<Outcome>, sent0: seq<string>, waited0: seq<nat>, count0: nat, max: nat,
                          tries: nat, waits: seq<nat>, script: seq<Outcome>, sent: seq<string>, waited: seq<nat>, count: nat)
    requires RetrySoFar(script0, sent0, waited0, count0, max, tries, waits, script, sent, waited, count)
    requires count > max
    ensures var r := RetryRun(script0, count0, max);
      && r.reply == NoReturn && r.count == count && waited == waited0 + r.waits
      && script == Drop(script0, r.tries) && sent == sent0 + Repeat(ReposUrl, r.tries)
  {
    assert waits + [] == waits;
  }

  /** An ok response with a parsable body. */
  predicate Fresh(reply: Reply) {
    reply.Response? && Ok(reply.status) && reply.body.Some?
  }

  /** When the cache rendered something, no failure of the refresh shows the
      error view: the error appears only when nothing came from the cache. */
  lemma ErrorOnlyWithoutCachedRender(s: State, readTime: int, writeTime: int, quotaExceeded: bool)
    requires Rendered(Cache.ReadResult(s.items, ReposKey, readTime, CacheDuration)).Some?
    ensures var t := FetchReposSpec(s, true, readTime, writeTime, quotaExceeded);
      |t.shown| >= |s.shown| && ErrorBox !in t.shown[|s.shown|..] && t.view != ErrorBox
  {
    var cached := Cache.ReadResult(s.items, ReposKey, readTime, CacheDuration);
    var start := ShowCached(cached);
    var t := FetchReposSpec(s, true, readTime, writeTime, quotaExceeded);
    if start.fetches {
      var run := RetryRun(s.script, s.retryCount, MaxRetries);
      var fin := ShowFresh(Rendered(cached), start.view, run.reply);
      assert t.shown[|s.shown|..] == start.shown + fin.shown;
    } else {
      assert t.shown[|s.shown|..] == start.shown;
    }
  }

  /** Without cached data, a failed fetch ends on the error view after the
      loading view, and nothing is written to the cache. */
  lemma FailureWithoutCacheShowsError(s: State, readTime: int, writeTime: int, quotaExceeded: bool)
    requires Rendered(Cache.ReadResult(s.items, ReposKey, readTime, CacheDuration)).None?
    requires !Fresh(RetryRun(s.script, s.retryCount, MaxRetries).reply)
    ensures var t := FetchReposSpec(s, true, readTime, writeTime, quotaExceeded);
      t.view == ErrorBox && t.shown == s.shown + [Loading, ErrorBox] &&
      t.items == Cache.AfterRead(s.items, ReposKey, readTime, CacheDuration)
  {
  }

  /** Only an ok response with a parsable body reaches the cache, and then
      it is stored whole (before the fork filter) with the write time. */
  lemma OnlyOkResponsesAreCached(s: State, readTime: int, writeTime: int, quotaExceeded: bool)
    ensures var t := FetchReposSpec(s, true, readTime, writeTime, quotaExceeded);
      var run := RetryRun(s.script, s.retryCount, MaxRetries);
      var items := Cache.AfterRead(s.items, ReposKey, readTime, CacheDuration);
      && (!ShowCached(Cache.ReadResult(s.items, ReposKey, readTime, CacheDuration)).fetches || !Fresh(run.reply) ==> t.items == items)
      && (ShowCached(Cache.ReadResult(s.items, ReposKey, readTime, CacheDuration)).fetches && Fresh(run.reply) ==>
            t.items == Cache.AfterWrite(items, ReposKey, run.reply.body.value, writeTime, quotaExceeded))
  {
  }

  /** A refresh that brings back exactly the cached list does not rebuild the
      container: the call shows one view, the one rendered from the cache. */
  lemma UnchangedRefreshRendersOnce(s: State, readTime: int, writeTime: int, quotaExceeded: bool, v: View)
    requires var cached := Cache.ReadResult(s.items, ReposKey, readTime, CacheDuration);
      && Rendered(cached).Some?
      && !LengthIsZero(cached.value)
      && RenderRepos(cached.value) == Some(v)
      && var run := RetryRun(s.script, s.retryCount, MaxRetries);
         Fresh(run.reply) && run.reply.body.value == cached.value
    ensures var t := FetchReposSpec(s, true, readTime, writeTime, quotaExceeded);
      t.shown == s.shown + [v] && t.view == v
  {
  }

  /** A cached empty list shows the no-repositories message and ends the
      call: no request, no wait, no change to the counter. */
  lemma CachedEmptyListSkipsFetch(s: State, readTime: int, writeTime: int, quotaExceeded: bool)
    requires Cache.ReadResult(s.items, ReposKey, readTime, CacheDuration) == Some(JArr([]))
    ensures var t := FetchReposSpec(s, true, readTime, writeTime, quotaExceeded);
      && t.script == s.script && t.sent == s.sent && t.retryCount == s.retryCount && t.waited == s.waited
      && t.shown == s.shown + [NoRepos] && t.view == NoRepos
  {
    var cached := Cache.ReadResult(s.items, ReposKey, readTime, CacheDuration);
    assert Rendered(cached) == Some(JArr([]));
    assert LengthIsZero(JArr([]));
    assert ShowCached(cached) == Start([NoRepos], NoRepos, false);
  }

  /** `fetchRepos` never lowers the retry counter and never takes it past the
      ceiling; only the Retry button sets it back to zero. */
  lemma RetryCounterOnlyGrows(s: State, hasContainer: bool, readTime: int, writeTime: int, quotaExceeded: bool)
    requires s.retryCount <= MaxRetries
    ensures var t := FetchReposSpec(s, hasContainer, readTime, writeTime, quotaExceeded);
      s.retryCount <= t.retryCount <= MaxRetries
  {
    RetryTrace(s.script, s.retryCount, MaxRetries);
  }

  /** With an empty cache and a first answer listing `repo-a` and the fork
      `repo-b`, the loading view is followed by one card for `repo-a`, and
      the cache holds both repositories under the write time. */
  lemma EmptyCacheThenTwoRepos(s: State, readTime: int, writeTime: int, rest: seq<Outcome>)
    requires ReposKey !in s.items && s.retryCount == 0
    requires s.script == [Resp(200, Some(JArr([RepoA(), RepoB()])))] + rest
    ensures var t := FetchReposSpec(s, true, readTime, writeTime, false);
      && t.shown == s.shown + [Loading, Cards([RepoA()])]
      && t.items[ReposKey] == Entry(JArr([RepoA(), RepoB()]), writeTime)
      && t.sent == s.sent + [ReposUrl]
  {
    var run := RetryRun(s.script, 0, MaxRetries);
    assert run == Run(Response(200, Some(JArr([RepoA(), RepoB()]))), 0, [], 1);
    assert NonForks([RepoA(), RepoB()]) == [RepoA()] by {
      assert IsFork(RepoB()) && !IsFork(RepoA());
      assert [RepoA(), RepoB()][1..] == [RepoB()];
    }
    assert Repeat(ReposUrl, 1) == [ReposUrl];
  }

  function RepoA(): Json {
    JObj(map["name" := JStr("repo-a"), "fork" := JBool(false)])
  }

  function RepoB(): Json {
    JObj(map["name" := JStr("repo-b"), "fork" := JBool(true)])
  }

  class GitHubFetcher {
    const hasContainer: bool
    const storage: LocalStorage
    const net: Net
    const maxRetries: nat := MaxRetries
    var retryCount: nat
    var waited: seq<nat>
    var view: View
    var shown: seq<View>

    constructor (hasContainer: bool, storage: LocalStorage, net: Net)
      ensures this.hasContainer == hasContainer && this.storage == storage && this.net == net
      ensures retryCount == 0 && waited == [] && view == Blank && shown == []
    {
      this.hasContainer := hasContainer;
      this.storage := storage;
      this.net := net;
      retryCount := 0;
      waited := [];
      view := Blank;
      shown := [];
    }

    function Snapshot(): State
      reads this, storage, net
    {
      State(storage.items, net.script, net.sent, retryCount, waited, view, shown)
    }

    /** `wait(ms)`: the delay is recorded, not slept. */
    method Wait(ms: nat)
      modifies this`waited
      ensures waited == old(waited) + [ms]
    {
      waited := waited + [ms];
    }

    method FetchWithRetry() returns (reply: Reply)
      modifies this`retryCount, this`waited, net
      ensures var r := RetryRun(old(net.script), old(retryCount), maxRetries);
        && reply == r.reply
        && retryCount == r.count
        && waited == old(waited) + r.waits
        && net.script == Drop(old(net.script), r.tries)
        && net.sent == old(net.sent) + Repeat(ReposUrl, r.tries)
    {
      ghost var script0, sent0, waited0, count0 := net.script, net.sent, waited, retryCount;
      ghost var tries: nat := 0;
      ghost var waits: seq<nat> := [];
      assert sent0 + [] == sent0 && waited0 + [] == waited0;
      while retryCount <= maxRetries
        invariant RetrySoFar(script0, sent0, waited0, count0, maxRetries, tries, waits, net.script, net.sent, waited, retryCount)
        decreases maxRetries + 1 - retryCount
      {
        // A 403 below the ceiling and a network error below it are retried;
        // anything else is the answer (or, for the error, rethrown).
        if !(Retryable(Head(net.script)) && retryCount < maxRetries) {
          RetryStops(script0, sent0, waited0, count0, maxRetries, tries, waits, net.script, net.sent, waited, retryCount);
        } else {
          RetryAgain(script0, sent0, waited0, count0, maxRetries, tries, waits, net.script, net.sent, waited, retryCount);
        }
        var o := net.Fetch(ReposUrl);
        if !(Retryable(o) && retryCount < maxRetries) {
          return if o.Resp? then Response(o.status, o.body) else Thrown;
        }
        var ms := if o.NetErr? then 1000 * (retryCount + 1) else 2000 * (retryCount + 1);
        Wait(ms);
        waits := waits + [ms];
        retryCount := retryCount + 1;
        tries := tries + 1;
      }
      RetryFallsThrough(script0, sent0, waited0, count0, maxRetries, tries, waits, net.script, net.sent, waited, retryCount);
      reply := NoReturn;
    }

    /** `cacheRepos(repos)`: best effort, never fails. */
    method CacheRepos(repos: Json, now: int, quotaExceeded: bool)
      modifies storage
      ensures storage.items == Cache.AfterWrite(old(storage.items), ReposKey, repos, now, quotaExceeded)
    {
      var threw := storage.SetItem(ReposKey, Entry(repos, now), quotaExceeded);
    }

    /** `getCachedRepos()`: the same read rule as the cache manager, under the
        fixed key and a ten-minute duration. */
    method GetCachedRepos(now: int) returns (r: Option<Json>)
      modifies storage
      ensures r == Cache.ReadResult(old(storage.items), ReposKey, now, CacheDuration)
      ensures storage.items == Cache.AfterRead(old(storage.items), ReposKey, now, CacheDuration)
    {
      var cached := storage.GetItem(ReposKey);
      if cached.None? || cached.value == Raw("") {
        return None;
      }
      match cached.value
      case Raw(_) =>
        r := None;
      case Entry(data, timestamp) =>
        if now - timestamp > CacheDuration {
          storage.RemoveItem(ReposKey);
          return None;
        }
        r := Some(data);
    }

    method Show(v: View)
      modifies this`view, this`shown
      ensures view == v && shown == old(shown) + [v]
    {
      view := v;
      shown := shown + [v];
    }

    /** `displayErrorMessage()`. */
    method DisplayErrorMessage()
      modifies this`view, this`shown
      ensures view == ErrorBox && shown == old(shown) + [ErrorBox]
    {
      Show(ErrorBox);
    }

    method FetchRepos(readTime: int, writeTime: int, quotaExceeded: bool)
      modifies this`retryCount, this`waited, this`view, this`shown, storage, net
      ensures Snapshot() == FetchReposSpec(old(Snapshot()), hasContainer, readTime, writeTime, quotaExceeded)
    {
      if !hasContainer {
        return;
      }
      var cachedData := GetCachedRepos(readTime);
      var fetches := ShowCachedRepos(cachedData);
      if !fetches {
        return;
      }
      var reply := FetchWithRetry();
      ShowFreshRepos(Rendered(cachedData), reply, writeTime, quotaExceeded);
    }

    /** The first half of `fetchRepos`: a truthy cached list is rendered at
        once (or the no-repositories message shown, which ends the call);
        without one, the loading view. */
    method ShowCachedRepos(cachedData: Option<Json>) returns (fetches: bool)
      modifies this`view, this`shown
      ensures var start := ShowCached(cachedData);
        fetches == start.fetches && view == start.view && shown == old(shown) + start.shown
    {
      var rendered := if cachedData.Some? && Truthy(cachedData.value) then cachedData else None;
      if rendered.Some? {
        view := Blank;
        var c := rendered.value;
        if LengthIsZero(c) {
          Show(NoRepos);
          return false;
        }
        var v := RenderRepos(c);
        if v.None? {
          // renderRepos throws outside the try block
          return false;
        }
        Show(v.value);
      } else {
        Show(Loading);
      }
      return true;
    }

    /** The second half of `fetchRepos`, after the request: cache and render
        a fresh list that differs from the rendered one, or show the error
        view when nothing came from the cache. */
    method ShowFreshRepos(rendered: Option<Json>, reply: Reply, writeTime: int, quotaExceeded: bool)
      modifies this`view, this`shown, storage
      ensures var fin := ShowFresh(rendered, old(view), reply);
        && view == fin.view && shown == old(shown) + fin.shown
        && storage.items == if fin.write.Some? then Cache.AfterWrite(old(storage.items), ReposKey, fin.write.value, writeTime, quotaExceeded)
                            else old(storage.items)
    {
      if !(reply.Response? && Ok(reply.status) && reply.body.Some?) {
        if rendered.None? {
          DisplayErrorMessage();
        }
        return;
      }
      var repos := reply.body.value;
      CacheRepos(repos, writeTime, quotaExceeded);
      if rendered.None? || rendered.value != repos {
        view := Blank;
        var len := JsLength(repos);
        if len == Value(JNum(0.0)) {
          Show(NoRepos);
          return;
        }
        var v := if len.LengthThrows? then None else RenderRepos(repos);
        if v.None? {
          if rendered.None? {
            DisplayErrorMessage();
          }
          return;
        }
        Show(v.value);
      }
    }

    /** The Retry button of the error view: the counter goes back to zero
        and the whole fetch starts again. */
    method RetryClicked(readTime: int, writeTime: int, quotaExceeded: bool)
      requires view == ErrorBox
      modifies this`retryCount, this`waited, this`view, this`shown, storage, net
      ensures Snapshot() == FetchReposSpec(old(Snapshot()).(retryCount := 0), hasContainer, readTime, writeTime, quotaExceeded)
    {
      retryCount := 0;
      FetchRepos(readTime, writeTime, quotaExceeded);
    }
  }
}

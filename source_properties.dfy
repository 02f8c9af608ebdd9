/** Properties of `GitSource::fetch` that relate several fetches, several
    sources, or the fetch and its collaborators' promises. */
module SourceProperties {
  import opened Wrappers
  import opened GitTypes
  import opened Git
  import opened Reporting
  import opened Source

  /** The mirror directory and the checkout directories of a cache never
      coincide or nest, and a checkout path determines its ident and short id. */
  lemma LayoutDisjoint(cache: Path, ident: string, ident': string, shortId: string, shortId': string)
    ensures DbPath(cache, ident) != CheckoutPath(cache, ident', shortId)
    ensures CheckoutPath(cache, ident', shortId)[..|cache| + 2] != DbPath(cache, ident)
    ensures CheckoutPath(cache, ident, shortId) == CheckoutPath(cache, ident', shortId')
            <==> ident == ident' && shortId == shortId'
  {
    var c := CheckoutPath(cache, ident', shortId);
    assert c[|cache|] == "checkouts";
    assert DbPath(cache, ident)[|cache|] == "db";
    if CheckoutPath(cache, ident, shortId) == CheckoutPath(cache, ident', shortId') {
      assert CheckoutPath(cache, ident, shortId)[|cache| + 1] == ident;
      assert CheckoutPath(cache, ident, shortId)[|cache| + 2] == shortId;
    }
  }

  /** The cache identity ignores everything but the repository URL: a source
      with another reference, another lock and another credential store uses
      the same database, and checks out under the same `checkouts/<ident>`. */
  lemma CacheIdentityIgnoresReferenceAndCredentials(
    src: GitSource, env: Collaborators, state: CacheState, token: nat,
    reference: GitReference, precise: Option<GitOid>,
    credentials: map<CanonicalUrl, Credentials>, apply: (Credentials, Url) -> Url, token': nat)
    ensures
      var src' := src.(git := src.git.(reference := reference, precise := precise));
      var env' := env.(credentials := credentials, apply := apply);
      var run := FetchSpec(src, env, state, token);
      var run' := FetchSpec(src', env', state, token');
      && MirrorPath(src', env') == MirrorPath(src, env)
      && (run.update.Some? && run'.update.Some? ==> run.update.value.dbPath == run'.update.value.dbPath)
      && (run.result.Ok? && run'.result.Ok? ==>
            run.result.value.path[..|src.cache| + 2] == run'.result.value.path[..|src.cache| + 2]
                                                   == src.cache + ["checkouts", env.Ident(src.git.repository)])
  {
    var src' := src.(git := src.git.(reference := reference, precise := precise));
    var env' := env.(credentials := credentials, apply := apply);
    var ident := env.Ident(src.git.repository);
    assert env'.Ident(src'.git.repository) == ident;
    var run := FetchSpec(src, env, state, token);
    var run' := FetchSpec(src', env', state, token');
    if run.result.Ok? {
      var p := run.result.value.path;
      assert p == CheckoutPath(src.cache, ident, p[|src.cache| + 2]);
      assert p[..|src.cache| + 2] == src.cache + ["checkouts", ident];
    }
    if run'.result.Ok? {
      var p := run'.result.value.path;
      assert p == CheckoutPath(src.cache, ident, p[|src.cache| + 2]);
      assert p[..|src.cache| + 2] == src.cache + ["checkouts", ident];
    }
  }

  /** Installing a reporter changes neither what a fetch returns, nor what it
      writes, nor what it asks of the remote; without one no callback is made. */
  lemma ReporterDoesNotChangeOutcome(src: GitSource, env: Collaborators, state: CacheState, token: nat, r: Reporter)
    requires src.reporter.None?
    ensures
      var run := FetchSpec(src, env, state, token);
      var run' := FetchSpec(src.WithReporter(r), env, state, token);
      && run'.result == run.result && run'.state == run.state && run'.update == run.update
      && run.events == []
  {
  }

  /** `dangerous` changes only the SSL flag the remote is given: the fast
      paths are unaffected, and the slow path asks the same of the remote
      apart from that flag. */
  lemma DangerousOnlyChangesSsl(src: GitSource, env: Collaborators, state: CacheState, token: nat)
    ensures
      var run := FetchSpec(src, env, state, token);
      var run' := FetchSpec(src.Dangerous(), env, state, token);
      && (run.update.None? ==> run' == run)
      && (run.update.Some? ==> run'.update == Some(run.update.value.(disableSsl := true)))
  {
  }

  /** With a Git layer that keeps its promises, a successful fetch leaves the
      commit in the repository's database, checked out at a path whose last
      component is a non-empty prefix of the full commit id. */
  lemma FetchedCommitIsMirrored(src: GitSource, env: Collaborators, state: CacheState, token: nat)
    requires env.Sound()
    ensures
      var run := FetchSpec(src, env, state, token);
      run.result.Ok? ==>
        var f := run.result.value;
        var rev := f.git.precise.value;
        && MirrorPath(src, env) in run.state.databases
        && run.state.databases[MirrorPath(src, env)].Contains(rev)
        && f.path in run.state.checkouts && run.state.checkouts[f.path] == rev
        && 0 < |f.path[|src.cache| + 2]| && f.path[|src.cache| + 2] <= rev.hex
  {
  }

  /** Replaying a lock: fetching again the URL a fetch returned, from the cache
      it left behind, takes fast path A (no remote call, no callback, offline
      or not) and returns the same result and the same cache. */
  lemma ReplayTakesFastPath(src: GitSource, env: Collaborators, state: CacheState, token: nat,
                            offline: bool, token': nat)
    requires env.Sound()
    requires FetchSpec(src, env, state, token).result.Ok?
    ensures
      var run := FetchSpec(src, env, state, token);
      var replay := FetchSpec(src.(git := run.result.value.git, offline := offline), env, run.state, token');
      && replay.update.None? && replay.events == []
      && replay.result == run.result && replay.state == run.state
  {
  }

  /** Offline, with no database yet: the fetch fails, creates neither a
      database nor a checkout, and never reports completion. (It does report
      the start when a reporter is installed, since the remote is asked.) */
  lemma OfflineWithoutDatabaseFails(src: GitSource, env: Collaborators, state: CacheState, token: nat)
    requires src.offline && env.RefusesOffline()
    requires MirrorPath(src, env) !in state.databases
    ensures
      var run := FetchSpec(src, env, state, token);
      && run.result.Err? && run.state == state
      && run.update.Some?
      && run.events == (if src.reporter.Some?
                        then [CheckoutStart(env.RemoteUrl(src.git.repository), src.git.reference, token)] else [])
  {
  }

  /** Offline, with a locked commit the existing database lacks: fast path A
      does not apply, and unless fast path B does, the remote is asked and the
      fetch fails without touching the cache or reporting completion. Only a
      fast path can succeed. */
  lemma OfflineLockedMissFails(src: GitSource, env: Collaborators, state: CacheState, token: nat)
    requires src.offline && env.RefusesOffline()
    requires src.git.precise.Some?
    requires MirrorPath(src, env) in state.databases
    requires !state.databases[MirrorPath(src, env)].Contains(src.git.precise.value)
    ensures
      var run := FetchSpec(src, env, state, token);
      && (run.result.Ok? ==> run.update.None? && run.events == [])
      && (run.update.Some? ==> run.result.Err? && run.state == state && |run.events| <= 1)
      && (run.update.Some? <==> !HasExactCommit(src.git, ExistingDb(state, MirrorPath(src, env))))
  {
  }

  /** The callback contract holds across fetches: if a reporter's log honours
      it before a fetch, it still does afterwards. */
  lemma {:induction false} FetchKeepsLogPaired(src: GitSource, env: Collaborators, state: CacheState, log: seq<Event>)
    requires Paired(log)
    ensures Paired(log + FetchSpec(src, env, state, |log|).events)
  {
    var events := FetchSpec(src, env, state, |log|).events;
    if events != [] {
      var start := events[0];
      AppendStartPaired(log, start);
      if |events| == 2 {
        var complete := events[1];
        assert events == [start, complete];
        AppendCompletePaired(log + [start], complete);
        assert log + events == log + [start] + [complete];
      } else {
        assert events == [start];
      }
    }
  }

  /** Appending a start whose index is its position keeps a log paired. */
  lemma AppendStartPaired(log: seq<Event>, start: Event)
    requires Paired(log)
    requires start.CheckoutStart? && start.index == |log|
    ensures Paired(log + [start])
  {
    var log' := log + [start];
    forall k | 0 <= k < |log'| && log'[k].CheckoutComplete?
      ensures log'[k].index < k && log'[log'[k].index].CheckoutStart? && log'[log'[k].index].url == log'[k].url
    {
      assert k < |log| && log'[k] == log[k];
      assert log'[log[k].index] == log[log[k].index];
    }
  }

  /** Appending the completion of the last start keeps a log paired. */
  lemma AppendCompletePaired(log: seq<Event>, complete: Event)
    requires Paired(log) && |log| > 0
    requires log[|log| - 1].CheckoutStart? && log[|log| - 1].url == complete.url
    requires complete.CheckoutComplete? && complete.index == |log| - 1
    ensures Paired(log + [complete])
  {
    var log' := log + [complete];
    forall k | 0 <= k < |log'| && log'[k].CheckoutComplete?
      ensures log'[k].index < k && log'[log'[k].index].CheckoutStart? && log'[log'[k].index].url == log'[k].url
    {
      if k < |log| {
        assert log'[k] == log[k];
        assert log'[log[k].index] == log[log[k].index];
      }
    }
    forall k, k' | 0 <= k < k' < |log'| && log'[k].CheckoutComplete? && log'[k'].CheckoutComplete?
      ensures log'[k].index != log'[k'].index
    {
      assert log'[k] == log[k];
      if k' < |log| {
        assert log'[k'] == log[k'];
      }
    }
  }
}

/** `GitSource` and `GitSource::fetch`: resolve a Git URL to one commit, using
    the local database when it already answers the question and the remote
    otherwise, then check that commit out under the cache directory.

    The fetch is stated twice: `FetchSpec` (with `Resolve` and `Materialize`,
    the two halves of the source's procedure) says what a fetch does as a
    function of the cache's contents, and the method `GitSource.Fetch` carries
    it out step by step on a `CacheDir` and a `Reporter`, proved equal to it. */
module Source {
  import opened Wrappers
  import opened GitTypes
  import opened Git
  import opened Reporting

  /** `GitSource`: the fetch's configuration. */
  datatype GitSource = GitSource(
    git: GitUrl,
    client: HttpClient,
    disableSsl: bool,
    offline: bool,
    cache: Path,
    reporter: Option<Reporter>)
  {
    /** `GitSource::new`: SSL verification on, no reporter. */
    static function New(git: GitUrl, client: HttpClient, cache: Path, offline: bool): (s: GitSource)
      ensures s.git == git && s.client == client && s.cache == cache && s.offline == offline
      ensures !s.disableSsl && s.reporter.None?
    {
      GitSource(git, client, false, offline, cache, None)
    }

    /** `GitSource::dangerous`: turns SSL verification off and changes nothing else. */
    function Dangerous(): (s: GitSource)
      ensures s.disableSsl
      ensures s.(disableSsl := disableSsl) == this
    {
      this.(disableSsl := true)
    }

    /** `GitSource::with_reporter`: installs `r` and changes nothing else. */
    function WithReporter(r: Reporter): (s: GitSource)
      ensures s.reporter == Some(r)
      ensures s.(reporter := reporter) == this
    {
      this.(reporter := Some(r))
    }

    /** The objects a fetch may change besides the cache directory. */
    function ReporterFrame(): set<object>
    {
      if reporter.Some? then {reporter.value} else {}
    }

    /** The length of the reporter's log, which is the index its next start returns. */
    function LogLength(): nat
      reads ReporterFrame()
    {
      if reporter.Some? then |reporter.value.log| else 0
    }

    /** The closure of `fetch`: find the commit in the existing database, or
        update the database through the remote between the reporter's start
        callback and the rest of the fetch. */
    method ResolveRevision(env: Collaborators, fs: CacheDir, remote: Url, dbPath: Path)
      returns (r: Result<Resolved, GitError>)
      modifies fs, ReporterFrame()
      ensures
        var run := Resolve(this, env, remote, dbPath, old(ExistingDb(fs.State(), dbPath)), old(LogLength()));
        && r == run.result
        && fs.checkouts == old(fs.checkouts)
        && fs.databases == (if run.update.Some? && r.Ok? then old(fs.databases)[dbPath := r.value.db]
                            else old(fs.databases))
        && (reporter.Some? ==> reporter.value.log == old(reporter.value.log) + run.events)
    {
      // `git_remote.db_at(&db_path).ok()`
      var maybeDb := if dbPath in fs.databases then Some(fs.databases[dbPath]) else None;

      if git.precise.Some? && maybeDb.Some? {
        if maybeDb.value.Contains(git.precise.value) {
          return Ok(Resolved(maybeDb.value, git.precise.value, None));
        }
      }

      if maybeDb.Some? {
        if git.reference.BranchOrTagOrCommit? {
          var parsed := ParseOid(git.reference.name);
          if parsed.Ok? {
            if maybeDb.value.Contains(parsed.value) {
              return Ok(Resolved(maybeDb.value, parsed.value, None));
            }
          }
        }
      }

      var task: Option<nat> := None;
      if reporter.Some? {
        var index := reporter.value.OnCheckoutStart(remote, git.reference);
        task := Some(index);
      }

      var update := env.checkout(CheckoutRequest(remote, dbPath, maybeDb, git.reference, git.precise,
                                                 client, disableSsl, offline));
      if update.Err? {
        return Err(update.error);
      }
      var (db, actualRev) := update.value;
      fs.databases := fs.databases[dbPath := db];
      r := Ok(Resolved(db, actualRev, task));
    }

    /** `GitSource::fetch`. */
    method Fetch(env: Collaborators, fs: CacheDir) returns (r: Result<Fetch, GitError>)
      modifies fs, ReporterFrame()
      ensures
        var run := FetchSpec(this, env, old(fs.State()), old(LogLength()));
        && r == run.result
        && fs.State() == run.state
        && (reporter.Some? ==> reporter.value.log == old(reporter.value.log) + run.events)
    {
      var canonical := env.canonicalize(git.repository);
      var ident := env.digest(canonical);
      var dbPath := Join(Join(cache, "db"), ident);

      var remote := if canonical in env.credentials
                    then env.apply(env.credentials[canonical], git.repository)
                    else git.repository;

      var resolved := ResolveRevision(env, fs, remote, dbPath);
      if resolved.Err? {
        return Err(resolved.error);
      }
      var Resolved(db, actualRev, maybeTask) := resolved.value;

      var shortId := env.shortId(db, actualRev);
      if shortId.Err? {
        return Err(shortId.error);
      }

      var checkoutPath := Join(Join(Join(cache, "checkouts"), ident), shortId.value);

      var copied := env.copyTo(db, actualRev, checkoutPath);
      if copied.Err? {
        return Err(copied.error);
      }
      fs.checkouts := fs.checkouts[checkoutPath := actualRev];

      if maybeTask.Some? {
        if reporter.Some? {
          reporter.value.OnCheckoutComplete(remote, actualRev, maybeTask.value);
        }
      }

      r := Ok(Fetched(git.WithPrecise(actualRev), checkoutPath));
    }
  }

  /** `Fetch`: the commit that was checked out (as a locked Git URL) and where.
      Its accessors `git`/`into_git` and `path`/`into_path` are the destructors. */
  datatype Fetch = Fetched(git: GitUrl, path: Path)

  /** What the cache directory holds: a database per `db/<ident>` path and,
      per checkout path, the commit checked out there. */
  datatype CacheState = CacheState(databases: map<Path, GitDatabase>, checkouts: map<Path, GitOid>)

  /** The cache directory on disk, which a fetch updates in place. */
  class CacheDir {
    var databases: map<Path, GitDatabase>
    var checkouts: map<Path, GitOid>

    constructor (databases: map<Path, GitDatabase>, checkouts: map<Path, GitOid>)
      ensures State() == CacheState(databases, checkouts)
    {
      this.databases := databases;
      this.checkouts := checkouts;
    }

    function State(): CacheState
      reads this
    {
      CacheState(databases, checkouts)
    }
  }

  /** `<cache>/db/<ident>`. */
  function DbPath(cache: Path, ident: string): Path
  {
    Join(Join(cache, "db"), ident)
  }

  /** `<cache>/checkouts/<ident>/<short id>`. */
  function CheckoutPath(cache: Path, ident: string, shortId: string): Path
  {
    Join(Join(Join(cache, "checkouts"), ident), shortId)
  }

  /** The database path of a source: it depends on the repository URL and the
      cache root alone. */
  function MirrorPath(src: GitSource, env: Collaborators): Path
  {
    DbPath(src.cache, env.Ident(src.git.repository))
  }

  /** `GitRemote::db_at(path).ok()`: the database at `path`, if there is one. */
  function ExistingDb(state: CacheState, path: Path): Option<GitDatabase>
  {
    if path in state.databases then Some(state.databases[path]) else None
  }

  /** The commit a reference names outright: a `BranchOrTagOrCommit` whose
      string parses as a full commit id. */
  function CommitCandidate(reference: GitReference): (r: Option<GitOid>)
    ensures r.Some? <==> reference.BranchOrTagOrCommit? && ParseOid(reference.name).Ok?
    ensures r.Some? ==> r.value.hex == reference.name
  {
    match reference
    case BranchOrTagOrCommit(s) =>
      (match ParseOid(s)
       case Ok(oid) => Some(oid)
       case Err(_) => None)
    case _ => None
  }

  /** Fast path A: the URL is locked to a commit the existing database holds. */
  predicate HasLocked(git: GitUrl, db: Option<GitDatabase>)
  {
    git.precise.Some? && db.Some? && db.value.Contains(git.precise.value)
  }

  /** Fast path B: the reference is a full commit id the existing database holds. */
  predicate HasExactCommit(git: GitUrl, db: Option<GitDatabase>)
  {
    db.Some? && CommitCandidate(git.reference).Some? && db.value.Contains(CommitCandidate(git.reference).value)
  }

  datatype Decision = LockedHit(rev: GitOid) | CommitHit(rev: GitOid) | NeedsUpdate

  /** The three-way choice of `fetch`'s closure. Path A is tried first; path B
      only when A does not apply; the remote only when neither does. Either
      fast path answers with a commit the database holds. */
  function Decide(git: GitUrl, db: Option<GitDatabase>): (d: Decision)
    ensures d.LockedHit? <==> HasLocked(git, db)
    ensures d.CommitHit? <==> !HasLocked(git, db) && HasExactCommit(git, db)
    ensures d.LockedHit? ==> git.precise == Some(d.rev)
    ensures d.CommitHit? ==> CommitCandidate(git.reference) == Some(d.rev)
    ensures !d.NeedsUpdate? ==> db.Some? && db.value.Contains(d.rev)
  {
    if git.precise.Some? && db.Some? && db.value.Contains(git.precise.value) then
      LockedHit(git.precise.value)
    else if db.Some? && git.reference.BranchOrTagOrCommit? then
      match ParseOid(git.reference.name)
      case Ok(oid) => if db.value.Contains(oid) then CommitHit(oid) else NeedsUpdate
      case Err(_) => NeedsUpdate
    else
      NeedsUpdate
  }

  /** The database and commit the closure settles on, and the reporter's index
      when it called `on_checkout_start`. */
  datatype Resolved = Resolved(db: GitDatabase, rev: GitOid, task: Option<nat>)

  /** The outcome of the closure: its result, the reporter callbacks it made
      and the call it made to `GitRemote::checkout`, if any. */
  datatype ResolveRun = ResolveRun(result: Result<Resolved, GitError>, events: seq<Event>, update: Option<CheckoutRequest>)

  /** The closure of `fetch`, for a reporter whose start callback returns `token`. */
  function Resolve(src: GitSource, env: Collaborators, remote: Url, dbPath: Path,
                   db: Option<GitDatabase>, token: nat): (run: ResolveRun)
    // the fast paths: no remote call, no callback, the database as it was
    ensures run.update.None? <==> !Decide(src.git, db).NeedsUpdate?
    ensures run.update.None? ==>
              run.events == [] && run.result == Ok(Resolved(db.value, Decide(src.git, db).rev, None))
    // the slow path passes everything along to the remote
    ensures run.update.Some? ==>
              run.update.value == CheckoutRequest(remote, dbPath, db, src.git.reference, src.git.precise,
                                                  src.client, src.disableSsl, src.offline)
    ensures run.update.Some? ==>
              run.events == (if src.reporter.Some? then [CheckoutStart(remote, src.git.reference, token)] else [])
    ensures run.update.Some? && env.checkout(run.update.value).Ok? ==>
              run.result == Ok(Resolved(env.checkout(run.update.value).value.0, env.checkout(run.update.value).value.1,
                                        if src.reporter.Some? then Some(token) else None))
    ensures run.update.Some? && env.checkout(run.update.value).Err? ==>
              run.result == Err(env.checkout(run.update.value).error)
  {
    match Decide(src.git, db)
    case LockedHit(rev) => ResolveRun(Ok(Resolved(db.value, rev, None)), [], None)
    case CommitHit(rev) => ResolveRun(Ok(Resolved(db.value, rev, None)), [], None)
    case NeedsUpdate =>
      var request := CheckoutRequest(remote, dbPath, db, src.git.reference, src.git.precise,
                                     src.client, src.disableSsl, src.offline);
      var started := if src.reporter.Some? then [CheckoutStart(remote, src.git.reference, token)] else [];
      var task := if src.reporter.Some? then Some(token) else None;
      match env.checkout(request)
      case Err(e) => ResolveRun(Err(e), started, Some(request))
      case Ok((newDb, rev)) => ResolveRun(Ok(Resolved(newDb, rev, task)), started, Some(request))
  }

  /** The outcome of the second half of `fetch`: its result, the new checkout
      map and the completion callback, if made. */
  datatype Materialized = Materialized(result: Result<Fetch, GitError>, checkouts: map<Path, GitOid>, events: seq<Event>)

  /** The second half of `fetch`: shorten the commit id, check the commit out at
      `<cache>/checkouts/<ident>/<short id>`, report completion, and return the
      URL locked to the commit. */
  function Materialize(src: GitSource, env: Collaborators, ident: string, remote: Url,
                       resolved: Resolved, checkouts: map<Path, GitOid>): (m: Materialized)
    ensures env.shortId(resolved.db, resolved.rev).Err? ==>
              m.result == Err(env.shortId(resolved.db, resolved.rev).error)
    ensures env.shortId(resolved.db, resolved.rev).Ok? ==>
              var path := CheckoutPath(src.cache, ident, env.shortId(resolved.db, resolved.rev).value);
              && (env.copyTo(resolved.db, resolved.rev, path).Err? ==>
                    m.result == Err(env.copyTo(resolved.db, resolved.rev, path).error))
              && (env.copyTo(resolved.db, resolved.rev, path).Ok? ==>
                    m.result == Ok(Fetched(src.git.WithPrecise(resolved.rev), path)))
    ensures m.result.Err? ==> m.checkouts == checkouts && m.events == []
    ensures m.result.Ok? ==> m.checkouts == checkouts[m.result.value.path := resolved.rev]
    // completion is reported once, after a successful copy, with the start's index
    ensures m.events == (if m.result.Ok? && resolved.task.Some? && src.reporter.Some?
                         then [CheckoutComplete(remote, resolved.rev, resolved.task.value)] else [])
  {
    match env.shortId(resolved.db, resolved.rev)
    case Err(e) => Materialized(Err(e), checkouts, [])
    case Ok(shortId) =>
      var path := CheckoutPath(src.cache, ident, shortId);
      match env.copyTo(resolved.db, resolved.rev, path)
      case Err(e) => Materialized(Err(e), checkouts, [])
      case Ok(_) =>
        var completed := if resolved.task.Some? && src.reporter.Some?
                         then [CheckoutComplete(remote, resolved.rev, resolved.task.value)] else [];
        Materialized(Ok(Fetched(src.git.WithPrecise(resolved.rev), path)), checkouts[path := resolved.rev], completed)
  }

  /** The outcome of one fetch: its result, the cache directory afterwards,
      the reporter callbacks in order, and the call made to the remote, if any. */
  datatype FetchRun = FetchRun(result: Result<Fetch, GitError>, state: CacheState, events: seq<Event>,
                               update: Option<CheckoutRequest>)

  /** `GitSource::fetch` as a function of the cache directory's contents, for a
      reporter whose start callback returns `token`. */
  function FetchSpec(src: GitSource, env: Collaborators, state: CacheState, token: nat): (run: FetchRun)
    // fast path A: locked to a commit the database holds
    ensures HasLocked(src.git, ExistingDb(state, MirrorPath(src, env))) ==>
              && run.update.None? && run.events == [] && run.state.databases == state.databases
              && (run.result.Ok? ==> run.result.value.git.precise == src.git.precise)
    // fast path B: otherwise, a full commit id the database holds
    ensures !HasLocked(src.git, ExistingDb(state, MirrorPath(src, env)))
              && HasExactCommit(src.git, ExistingDb(state, MirrorPath(src, env))) ==>
              && run.update.None? && run.events == [] && run.state.databases == state.databases
              && (run.result.Ok? ==> run.result.value.git.precise == CommitCandidate(src.git.reference))
    // the remote is used exactly when neither fast path applies, and is passed
    // the mirror path, the authenticated URL and the source's settings
    ensures run.update.None? ==>
              || HasLocked(src.git, ExistingDb(state, MirrorPath(src, env)))
              || HasExactCommit(src.git, ExistingDb(state, MirrorPath(src, env)))
    ensures run.update.Some? ==>
              run.update.value == CheckoutRequest(env.RemoteUrl(src.git.repository), MirrorPath(src, env),
                                                  ExistingDb(state, MirrorPath(src, env)),
                                                  src.git.reference, src.git.precise,
                                                  src.client, src.disableSsl, src.offline)
    // a failed checkout changes nothing on disk; a successful one stores the database
    ensures run.update.Some? && env.checkout(run.update.value).Err? ==>
              run.result == Err(env.checkout(run.update.value).error) && run.state == state
    ensures run.update.Some? && env.checkout(run.update.value).Ok? ==>
              run.state.databases == state.databases[MirrorPath(src, env) := env.checkout(run.update.value).value.0]
    // the result: the input URL locked to the commit, checked out under the same ident
    ensures run.result.Ok? ==>
              && run.result.value.git.precise.Some?
              && run.result.value.git.(precise := src.git.precise) == src.git
    ensures run.result.Ok? ==>
              var f := run.result.value;
              && |f.path| == |src.cache| + 3
              && f.path == CheckoutPath(src.cache, env.Ident(src.git.repository), f.path[|src.cache| + 2])
              && MirrorPath(src, env) in run.state.databases
              && env.shortId(run.state.databases[MirrorPath(src, env)], f.git.precise.value) == Ok(f.path[|src.cache| + 2])
              && run.state.checkouts == state.checkouts[f.path := f.git.precise.value]
    ensures run.result.Ok? ==>
              env.copyTo(run.state.databases[MirrorPath(src, env)], run.result.value.git.precise.value,
                         run.result.value.path).Ok?
    ensures run.result.Err? ==> run.state.checkouts == state.checkouts
    // once the closure settles on a database and a commit, a failing short id
    // or copy is the fetch's error, with no checkout and no completion
    ensures
      var resolved := Resolve(src, env, env.RemoteUrl(src.git.repository), MirrorPath(src, env),
                              ExistingDb(state, MirrorPath(src, env)), token).result;
      resolved.Ok? ==>
        var db, rev := resolved.value.db, resolved.value.rev;
        && (env.shortId(db, rev).Err? ==>
              run.result == Err(env.shortId(db, rev).error)
              && run.state.checkouts == state.checkouts && |run.events| <= 1)
        && (env.shortId(db, rev).Ok? ==>
              var path := CheckoutPath(src.cache, env.Ident(src.git.repository), env.shortId(db, rev).value);
              && (env.copyTo(db, rev, path).Err? ==>
                    run.result == Err(env.copyTo(db, rev, path).error)
                    && run.state.checkouts == state.checkouts && |run.events| <= 1)
              && (env.copyTo(db, rev, path).Ok? ==>
                    run.result == Ok(Fetched(src.git.WithPrecise(rev), path))))
    // reporter callbacks: none on the fast paths or without a reporter; start
    // first; complete only after success and with the index start returned
    ensures run.events != [] <==> src.reporter.Some? && run.update.Some?
    ensures run.events != [] ==> run.events[0] == CheckoutStart(env.RemoteUrl(src.git.repository), src.git.reference, token)
    ensures |run.events| <= 2
    ensures |run.events| == 2 <==> run.events != [] && run.result.Ok?
    ensures |run.events| == 2 ==>
              run.events[1] == CheckoutComplete(env.RemoteUrl(src.git.repository), run.result.value.git.precise.value, token)
  {
    var ident := env.Ident(src.git.repository);
    var dbPath := DbPath(src.cache, ident);
    var remote := env.RemoteUrl(src.git.repository);
    var resolve := Resolve(src, env, remote, dbPath, ExistingDb(state, dbPath), token);
    match resolve.result
    case Err(e) => FetchRun(Err(e), state, resolve.events, resolve.update)
    case Ok(resolved) =>
      var databases := state.databases[dbPath := resolved.db];
      var m := Materialize(src, env, ident, remote, resolved, state.checkouts);
      FetchRun(m.result, CacheState(databases, m.checkouts), resolve.events + m.events, resolve.update)
  }
}

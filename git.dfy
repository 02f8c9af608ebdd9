/** The collaborators `GitSource::fetch` calls but whose code is not modelled:
    URL canonicalisation and its digest (`uv_cache_key`), the credential store
    (`GIT_STORE`), and the Git database and remote (`crate::git`). Each is a
    function-valued field of `Collaborators`, so every property proved of the
    fetch holds for every behaviour they may have. */
module Git {
  import opened Wrappers
  import opened GitTypes

  /** An error raised by a collaborator (`anyhow::Error`). */
  datatype GitError = GitError(message: string)

  /** `RepositoryUrl`: the canonical, credential-free form of a repository URL. */
  type CanonicalUrl = string

  /** Stored authentication material for one canonical URL. */
  datatype Credentials = Credentials(secret: string)

  /** `ClientWithMiddleware`: opaque transport configuration. */
  datatype HttpClient = HttpClient(config: string)

  /** `GitDatabase`: a local mirror of one repository, seen as the commits it holds. */
  datatype GitDatabase = GitDatabase(commits: set<GitOid>)
  {
    /** `GitDatabase::contains`. */
    predicate Contains(oid: GitOid)
    {
      oid in commits
    }
  }

  /** The arguments of one call to `GitRemote::checkout`, with the URL the
      remote was created from (`GitRemote::new(&remote)`). */
  datatype CheckoutRequest = CheckoutRequest(
    remote: Url,
    dbPath: Path,
    db: Option<GitDatabase>,
    reference: GitReference,
    precise: Option<GitOid>,
    client: HttpClient,
    disableSsl: bool,
    offline: bool)

  /** The request needs a commit that is not in the local database. */
  predicate MissingLocally(req: CheckoutRequest)
  {
    req.db.None? || (req.precise.Some? && !req.db.value.Contains(req.precise.value))
  }

  datatype Collaborators = Collaborators(
    canonicalize: Url -> CanonicalUrl,                                 // RepositoryUrl::new
    digest: CanonicalUrl -> string,                                    // cache_digest
    credentials: map<CanonicalUrl, Credentials>,                       // GIT_STORE
    apply: (Credentials, Url) -> Url,                                  // Credentials::apply
    checkout: CheckoutRequest -> Result<(GitDatabase, GitOid), GitError>,  // GitRemote::checkout
    shortId: (GitDatabase, GitOid) -> Result<string, GitError>,        // GitDatabase::to_short_id
    copyTo: (GitDatabase, GitOid, Path) -> Result<(), GitError>)       // GitDatabase::copy_to
  {
    /** The cache identity of a repository: the digest of its canonical URL. */
    function Ident(repository: Url): string
    {
      digest(canonicalize(repository))
    }

    /** The network-facing URL: credentials stored for the canonical URL are
        applied to a copy of the repository URL; otherwise it is used as is. */
    function RemoteUrl(repository: Url): (r: Url)
      ensures canonicalize(repository) !in credentials ==> r == repository
      ensures canonicalize(repository) in credentials ==>
                r == apply(credentials[canonicalize(repository)], repository)
    {
      var canonical := canonicalize(repository);
      if canonical in credentials then apply(credentials[canonical], repository) else repository
    }

    /** What the Git layer promises and the fetch relies on: a checkout returns
        a database holding the commit it returns, and a short id is a non-empty
        prefix of the full commit id. */
    ghost predicate Sound()
    {
      && (forall req :: checkout(req).Ok? ==> checkout(req).value.0.Contains(checkout(req).value.1))
      && (forall db, rev :: shortId(db, rev).Ok? ==>
            0 < |shortId(db, rev).value| <= |rev.hex| && shortId(db, rev).value <= rev.hex)
    }

    /** Offline, a checkout cannot produce a commit the local database lacks:
        it fails when there is no database, and when the locked commit is
        missing from the one there is. */
    ghost predicate RefusesOffline()
    {
      forall req: CheckoutRequest :: req.offline && MissingLocally(req) ==> checkout(req).Err?
    }
  }
}

# A verified model of uv's Git fetch orchestrator

This project models `GitSource` from `crates/uv-git/src/source.rs`: the part
of uv's Git support that turns a Git URL (repository, reference, optional
locked commit) into one commit and a checkout of it in the cache directory.

`GitSource::fetch` derives a cache identity from the repository's canonical
URL and looks for a Git database at `<cache>/db/<ident>`. Stored credentials
are applied only to the network-facing URL. The fetch then makes one of three
choices:

- **Path A.** It takes the locked commit if the existing database holds it.
- **Path B.** It takes the reference itself if the reference is a
  `BranchOrTagOrCommit` whose string is a full commit id the database holds.
- **Slow path.** Otherwise it asks the remote to update the database. The
  reporter's start and complete callbacks wrap this path.

Finally it checks the commit out at `<cache>/checkouts/<ident>/<short id>`
and returns the URL locked to that commit.

Layout:

- `wrappers.dfy`: `Option` and `Result`.
- `git_types.dfy`: the value types. These are the commit id `GitOid` and its
  parser, `GitReference`, `GitUrl` with `with_precise`, and paths.
- `git.dfy`: the collaborators whose code is not modelled. They are
  `RepositoryUrl::new`, `cache_digest`, the credential store and
  `Credentials::apply`, `GitRemote::checkout`, `GitDatabase::to_short_id` and
  `GitDatabase::copy_to`. Each is a function-valued field of `Collaborators`,
  so every property below holds whatever those functions do. The predicates
  `Sound` and `RefusesOffline` state what the Git layer promises; a lemma
  assumes them only when it says so in its `requires`.
- `reporting.dfy`: the `Reporter` callback contract. The model's reporter is
  a class that records each callback in a log. `Paired` is the contract's
  invariant on that log.
- `source.dfy`: `GitSource` with its builders, and the `Fetch` result.
  `CacheDir` is a class whose two maps are the cache directory. They map a
  database path to its database, and a checkout path to the commit checked
  out there. The fetch appears twice:
  - As functions: `Decide`, `Resolve` (the closure at lines 91-141),
    `Materialize` (lines 143-168) and `FetchSpec`, which composes them.
  - As methods: `GitSource.ResolveRevision` and `GitSource.Fetch` run the
    procedure step by step on a `CacheDir` and a `Reporter`, early returns
    included. Each is proved equal to its function.
- `source_properties.dfy`: lemmas that relate several fetches or sources.

The `Fetch` accessors `git`, `into_git`, `path` and `into_path` are the
destructors `git` and `path` of the `Fetch` datatype. Its constructor is
named `Fetched` so that it does not clash with the `Fetch` method.

## Model

| member | source | states |
|---|---|---|
| `GitTypes.AllHex` | crates/uv-git/src/source.rs:109 | The character scan accepts a string exactly when every character is a hexadecimal digit. |
| `GitTypes.ParseOid` | crates/uv-git/src/source.rs:109 | Parsing a commit id succeeds exactly on 40 hexadecimal digits, and the id it yields prints back as the input. It fails with `Empty` exactly on the empty string. |
| `GitTypes.ParseOidRoundTrip` | crates/uv-git/src/source.rs:109 | A well-formed commit id parses back from its string form. |
| `GitTypes.GitUrl.WithPrecise` | crates/uv-git/src/source.rs:166 | The new URL is locked to the given commit. Its repository and reference are unchanged. |
| `Git.Collaborators.RemoteUrl` | crates/uv-git/src/source.rs:82-87 | The network-facing URL carries the credentials stored for the canonical URL, if any. Otherwise it is the repository URL unchanged. |
| `Reporting.Reporter.OnCheckoutStart` | crates/uv-git/src/source.rs:198-199 | Records a start. The index it returns is that entry's position in the log. |
| `Reporting.Reporter.OnCheckoutComplete` | crates/uv-git/src/source.rs:201-202 | Records a completion with the given index. |
| `Source.GitSource.New` | crates/uv-git/src/source.rs:38-52 | The source holds the given URL, client, cache and offline flag. SSL verification is on and there is no reporter. |
| `Source.GitSource.Dangerous` | crates/uv-git/src/source.rs:54-61 | SSL verification is off and every other field is unchanged. |
| `Source.GitSource.WithReporter` | crates/uv-git/src/source.rs:63-70 | The reporter is installed and every other field is unchanged. |
| `Source.CommitCandidate` | crates/uv-git/src/source.rs:108-109 | A reference names a commit outright exactly when it is `BranchOrTagOrCommit` and its string parses as a commit id. That commit prints as the string. |
| `Source.Decide` | crates/uv-git/src/source.rs:95-118 | Path A is taken exactly when the locked commit is in the existing database. Path B is taken exactly when A is not and the reference's commit is in it. Otherwise an update is needed. Either fast path answers with a commit the database holds. |
| `Source.Resolve` | crates/uv-git/src/source.rs:91-141 | The fast paths make no remote call and no callback, and keep the existing database. The slow path reports start with the authenticated URL and reference when a reporter exists, then calls `checkout`. It passes along the database path, the existing database, the reference, the lock, the client, the SSL flag and the offline flag. It returns the remote's database and commit with the start's index, or the remote's error. |
| `Source.Materialize` | crates/uv-git/src/source.rs:143-168 | A short-id failure or a copy failure is returned as the error, with no checkout and no callback. On success the commit is recorded at `<cache>/checkouts/<ident>/<short id>`. The result is the input URL locked to the commit. Completion is reported exactly when the copy succeeded and start ran with a reporter, and it uses the start's index. |
| `Source.FetchSpec` | crates/uv-git/src/source.rs:74-169 | Path A and path B make no remote call and no callback, leave the databases as they were, and return the locked or named commit. The remote is used only when neither applies, with exactly the source's settings. A failed checkout is returned as the error and changes nothing on disk. Once a database and commit are settled on, a failing short id or copy is returned as the error, with no checkout and no completion; a successful result implies the copy succeeded. A successful result is the input URL locked to a commit, checked out at `<cache>/checkouts/<ident>/<short id of that commit in the database>`. An error leaves the checkouts unchanged. The callbacks are empty on fast paths and without a reporter. Otherwise they are a start, then a completion with the same index only on success. |
| `Source.GitSource.ResolveRevision` | crates/uv-git/src/source.rs:91-141 | The closure's imperative form returns what `Resolve` does. It writes the remote's database only on a successful slow path. It appends exactly `Resolve`'s callbacks to the reporter's log. |
| `Source.GitSource.Fetch` | crates/uv-git/src/source.rs:72-169 | The imperative fetch returns what `FetchSpec` does. It leaves the cache directory as `FetchSpec` says. It appends exactly `FetchSpec`'s callbacks to the reporter's log. |
| `SourceProperties.LayoutDisjoint` | crates/uv-git/src/source.rs:150-154 | The database path never equals or contains a checkout path. A checkout path determines its ident and its short id. |
| `SourceProperties.CacheIdentityIgnoresReferenceAndCredentials` | crates/uv-git/src/source.rs:76-87 | Changing the reference, the lock or the credential store does not change the database path. Nor does it change the `checkouts/<ident>` directory a successful fetch uses. |
| `SourceProperties.ReporterDoesNotChangeOutcome` | crates/uv-git/src/source.rs:125-128 | Installing a reporter changes neither the result, nor the cache, nor the remote call. Without a reporter there are no callbacks. |
| `SourceProperties.DangerousOnlyChangesSsl` | crates/uv-git/src/source.rs:54-61 | Under `dangerous` the fast paths behave identically. The remote is asked the same thing except that the SSL flag is set. |
| `SourceProperties.FetchedCommitIsMirrored` | crates/uv-git/src/source.rs:130-156 | If the Git layer keeps its promises, a successful fetch leaves the commit in the repository's database. The commit is checked out at the result path, whose last component is a non-empty prefix of the commit id. |
| `SourceProperties.ReplayTakesFastPath` | crates/uv-git/src/source.rs:95-101 | Fetching the returned locked URL again from the cache left behind takes path A, online or offline. That makes no remote call and no callback, and gives the same result and the same cache. |
| `SourceProperties.OfflineWithoutDatabaseFails` | crates/uv-git/src/source.rs:120-138 | Offline with no database, if the remote cannot produce a missing commit offline, the fetch fails and changes nothing on disk. It never reports completion; it still reports the start. |
| `SourceProperties.OfflineLockedMissFails` | crates/uv-git/src/source.rs:120-138 | Offline with a locked commit the existing database lacks, if the remote cannot produce a missing commit offline, only fast path B can succeed. Otherwise the remote is asked and the fetch fails, changes nothing on disk and reports no completion. |
| `SourceProperties.FetchKeepsLogPaired` | crates/uv-git/src/source.rs:126-163 | If a reporter's log honours the callback contract before a fetch, it still does afterwards. Every completion refers to an earlier start with the same URL, and no start is completed twice. |

## Left out

- The Git internals behind `GitDatabase` and `GitRemote` are not modelled: the fetch protocol, the object store, short-id computation and hard-linking in `copy_to`. They are arbitrary functions of their arguments. The short-id prefix property and "a checkout returns a database holding its commit" are stated as the `Sound` predicate, not proved.
- A failed `GitRemote::checkout` or `copy_to` is modelled as leaving the cache unchanged. What the real Git layer leaves behind on failure is not part of this model.
- `RepositoryUrl::new`, `cache_digest`, the process-wide `GIT_STORE` and `Credentials::apply` are uninterpreted. The canonicalisation rules and the hash are not visible in this source. The credential store is an injected map.
- `GitOid`'s parser lives in `uv_git_types`, which is not part of this model. It is modelled as accepting exactly 40 hexadecimal digits. Lengths are counted in characters, not UTF-8 bytes as Rust's `str::len` does. So on non-ASCII input the model may report `WrongLength` where the real parser reports `NotHex`, or the reverse. The strings that parse successfully are the same, and the fetch looks only at success.
- `GitReference` is reduced to four variants. Only `BranchOrTagOrCommit` is inspected by the fetch, and `as_rev` is replaced by the reference itself in the start callback.
- The HTTP client, the effect of the SSL flag and the network are opaque values passed to the remote.
- `tracing` instrumentation, `debug!` logging, `Arc`/`Send + Sync` sharing and `DisplaySafeUrl` redaction are not modelled.
- Integer widths are not modelled: the reporter index is a `nat`, not a `usize`.
- The fetch does not check the offline flag itself. It passes the flag to `GitRemote::checkout` (lines 120-138), which must refuse network access. So an offline miss still calls `on_checkout_start`, and a failed checkout leaves a start without a completion. When offline, it does not fail before the start callback. `OfflineWithoutDatabaseFails` and `OfflineLockedMissFails` show the consequence.

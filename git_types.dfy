/** The value types `GitSource::fetch` works with: commit ids, references,
    Git URLs and filesystem paths (from the `uv_git_types` crate and `std::path`). */
module GitTypes {
  import opened Wrappers

  /** A repository URL (`DisplaySafeUrl`), compared as text. */
  type Url = string

  /** A filesystem path as its sequence of components; `Path::join` appends one. */
  type Path = seq<string>

  function Join(p: Path, component: string): Path
  {
    p + [component]
  }

  /** Number of hexadecimal digits in a full (SHA-1) commit id. */
  const OidLength: nat := 40

  /** `GitOid`: a full commit id; `hex` is what `as_str` returns. */
  datatype GitOid = GitOid(hex: string)

  /** Why a string is not a full commit id. */
  datatype OidParseError = Empty | WrongLength | NotHex

  predicate IsHexDigit(c: char)
  {
    ('0' <= c <= '9') || ('a' <= c <= 'f') || ('A' <= c <= 'F')
  }

  /** Scans `s` front to back, as `chars().all(..)` does. */
  function AllHex(s: string): (b: bool)
    ensures b <==> forall i | 0 <= i < |s| :: IsHexDigit(s[i])
  {
    if s == [] then true else IsHexDigit(s[0]) && AllHex(s[1..])
  }

  /** `str::parse::<GitOid>`: succeeds exactly on strings of 40 hexadecimal digits. */
  function ParseOid(s: string): (r: Result<GitOid, OidParseError>)
    ensures r.Ok? <==> |s| == OidLength && forall i | 0 <= i < |s| :: IsHexDigit(s[i])
    ensures r.Ok? ==> r.value.hex == s
    ensures r == Err(Empty) <==> s == []
  {
    if |s| == 0 then Err(Empty)
    else if |s| != OidLength then Err(WrongLength)
    else if !AllHex(s) then Err(NotHex)
    else Ok(GitOid(s))
  }

  /** A well-formed commit id prints to a string that parses back to it. */
  lemma ParseOidRoundTrip(oid: GitOid)
    requires |oid.hex| == OidLength && AllHex(oid.hex)
    ensures ParseOid(oid.hex) == Ok(oid)
  {
  }

  /** `GitReference`: what the manifest names; only `BranchOrTagOrCommit` may
      turn out to be a full commit id. */
  datatype GitReference =
    | Branch(name: string)
    | Tag(name: string)
    | BranchOrTagOrCommit(name: string)
    | DefaultBranch

  /** `GitUrl`: repository, reference and the commit it is locked to, if any. */
  datatype GitUrl = GitUrl(repository: Url, reference: GitReference, precise: Option<GitOid>)
  {
    /** `GitUrl::with_precise`: a new value locked to `rev`, nothing else changed. */
    function WithPrecise(rev: GitOid): (u: GitUrl)
      ensures u.precise == Some(rev)
      ensures u.repository == repository && u.reference == reference
    {
      this.(precise := Some(rev))
    }
  }
}

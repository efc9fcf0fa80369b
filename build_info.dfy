/** The build-provenance line shown at the foot of the side navigation:
    which commit the deployment was built from, a link to that commit and
    the build date. */
module BuildInfo {
  import opened Wrappers

  /** What the build-info endpoint reports; every field may be missing. */
  datatype BuildInfoResponse = BuildInfoResponse(
    apiServerCommitHash: Option<string>,
    frontendCommitHash: Option<string>,
    buildDate: Option<string>)

  /** What the navigation panel displays. */
  datatype DisplayBuildInfo = DisplayBuildInfo(commitHash: string, commitUrl: string, date: string)

  const REPOSITORY_URL: string := "https://www.github.com/kubeflow/pipelines"
  const COMMIT_PATH: string := "/commit/"
  const UNKNOWN: string := "unknown"
  const SHORT_HASH_LENGTH: nat := 7

  /** JavaScript truthiness of an optional string: neither undefined nor empty. */
  predicate Truthy(s: Option<string>) {
    s.Some? && s.value != ""
  }

  /** The value of `a || b || ''` for two optional strings: one of the two
      hashes, and empty only when both are missing or empty. */
  function CommitHash(info: BuildInfoResponse): (r: string)
    ensures r == "" <==> !Truthy(info.apiServerCommitHash) && !Truthy(info.frontendCommitHash)
    ensures r != "" ==> r == OrEmpty(info.apiServerCommitHash) || r == OrEmpty(info.frontendCommitHash)
  {
    if Truthy(info.apiServerCommitHash) then info.apiServerCommitHash.value
    else if Truthy(info.frontendCommitHash) then info.frontendCommitHash.value
    else ""
  }

  /** Reference definition: the first non-empty string of a list of
      candidates, or the empty string when there is none. */
  function FirstNonEmpty(candidates: seq<string>): string {
    if candidates == [] then ""
    else if candidates[0] != "" then candidates[0]
    else FirstNonEmpty(candidates[1..])
  }

  /** A missing string reads as the empty one. */
  function OrEmpty(s: Option<string>): (r: string)
    ensures r == "" <==> !Truthy(s)
  {
    if s.Some? then s.value else ""
  }

  /** The hash shown as link text: its first seven characters, or
      "unknown" when there is no hash. */
  function ShortHash(hash: string): (r: string)
    ensures hash == "" ==> r == UNKNOWN
    ensures hash != "" ==> r <= hash && |r| == Min(SHORT_HASH_LENGTH, |hash|)
  {
    if hash == "" then UNKNOWN
    else if |hash| <= SHORT_HASH_LENGTH then hash
    else hash[..SHORT_HASH_LENGTH]
  }

  function Min(a: nat, b: nat): nat {
    if a <= b then a else b
  }

  /** The link target: the repository, or the commit page of the full
      hash. Reading the commit back out of the link gives the whole,
      untruncated hash, and no commit when there is no hash. */
  function CommitUrl(hash: string): (r: string)
    ensures REPOSITORY_URL <= r
    ensures LinkedCommit(r) == if hash == "" then None else Some(hash)
    ensures hash == "" ==> r == REPOSITORY_URL
  {
    var prefix := REPOSITORY_URL + COMMIT_PATH;
    var r := REPOSITORY_URL + (if hash != "" then COMMIT_PATH + hash else "");
    assert r[..|REPOSITORY_URL|] == REPOSITORY_URL;
    if hash == "" then
      assert |r| < |prefix|;
      r
    else
      assert r == prefix + hash;
      assert r[..|prefix|] == prefix;
      assert r[|prefix|..] == hash;
      r
  }

  /** Inverse of CommitUrl: which commit, if any, a link points at. */
  function LinkedCommit(url: string): (r: Option<string>)
    ensures r.Some? ==> url == REPOSITORY_URL + COMMIT_PATH + r.value
  {
    var prefix := REPOSITORY_URL + COMMIT_PATH;
    if prefix <= url && |url| > |prefix| then Some(url[|prefix|..]) else None
  }

  /** The display record built from a successful build-info response.
      The locale formatting of the build date by the browser is the
      parameter `formatDate`.
      The link text is a prefix of the commit the link points to, or
      "unknown" when the link points to the repository only; the date is
      "unknown" when no build date is reported and otherwise the formatted
      build date. */
  function Derive(info: BuildInfoResponse, formatDate: string -> string): (d: DisplayBuildInfo)
    ensures match LinkedCommit(d.commitUrl)
      case Some(hash) => hash == CommitHash(info) && d.commitHash <= hash && |d.commitHash| == Min(SHORT_HASH_LENGTH, |hash|)
      case None => CommitHash(info) == "" && d.commitHash == UNKNOWN && d.commitUrl == REPOSITORY_URL
    ensures !Truthy(info.buildDate) ==> d.date == UNKNOWN
    ensures Truthy(info.buildDate) ==> d.date == formatDate(info.buildDate.value)
  {
    var hash := CommitHash(info);
    var date := if Truthy(info.buildDate) then formatDate(info.buildDate.value) else UNKNOWN;
    DisplayBuildInfo(ShortHash(hash), CommitUrl(hash), date)
  }

  /** FirstNonEmpty picks the earliest non-empty candidate, and is empty
      exactly when every candidate is. */
  lemma {:induction false} FirstNonEmptyIsEarliest(candidates: seq<string>)
    ensures FirstNonEmpty(candidates) == "" <==> forall i :: 0 <= i < |candidates| ==> candidates[i] == ""
    ensures FirstNonEmpty(candidates) != "" ==>
      exists i :: 0 <= i < |candidates| && candidates[i] == FirstNonEmpty(candidates) &&
        forall j :: 0 <= j < i ==> candidates[j] == ""
  {
    if candidates != [] && candidates[0] == "" {
      var tail := candidates[1..];
      FirstNonEmptyIsEarliest(tail);
      if FirstNonEmpty(tail) != "" {
        var i :| 0 <= i < |tail| && tail[i] == FirstNonEmpty(tail) &&
          forall j :: 0 <= j < i ==> tail[j] == "";
        assert candidates[i + 1] == tail[i];
        assert forall j :: 0 <= j < i + 1 ==> candidates[j] == "" by {
          forall j | 0 <= j < i + 1 ensures candidates[j] == "" {
            if j > 0 { assert candidates[j] == tail[j - 1]; }
          }
        }
      } else {
        assert forall i :: 0 <= i < |candidates| ==> candidates[i] == "" by {
          forall i | 0 <= i < |candidates| ensures candidates[i] == "" {
            if i > 0 { assert candidates[i] == tail[i - 1]; }
          }
        }
      }
    }
  }

  /** The commit hash is the first non-empty of the API-server hash and the
      front-end hash, and the empty string when both are missing or empty. */
  lemma CommitHashIsFirstNonEmpty(info: BuildInfoResponse)
    ensures CommitHash(info) == FirstNonEmpty([OrEmpty(info.apiServerCommitHash), OrEmpty(info.frontendCommitHash)])
    ensures Truthy(info.apiServerCommitHash) ==> CommitHash(info) == info.apiServerCommitHash.value
  {
    var cs := [OrEmpty(info.apiServerCommitHash), OrEmpty(info.frontendCommitHash)];
    var tail := [OrEmpty(info.frontendCommitHash)];
    assert cs[1..] == tail && tail[1..] == [];
    assert FirstNonEmpty(tail) == OrEmpty(info.frontendCommitHash);
    assert cs[0] == "" ==> FirstNonEmpty(cs) == FirstNonEmpty(tail);
  }

  /** A response carrying only an API-server hash of thirteen characters. */
  lemma ApiHashOnlyExample(formatDate: string -> string)
    ensures Derive(BuildInfoResponse(Some("abcdef1234567"), None, None), formatDate)
         == DisplayBuildInfo("abcdef1", REPOSITORY_URL + "/commit/abcdef1234567", "unknown")
  {
  }
}

/**
 * The string logic of the git helpers that stamp the converted objects with the
 * code's provenance: the commit description, the remote URL with its ssh form
 * rewritten to https, and the shortening of a remote to at most 64 characters (the
 * length a DICOM LO value allows). The git library calls become a `RepoState`
 * parameter.
 */
module GitUtils {
  import opened Wrappers
  import opened Strings

  /** The longest remote `simplify_remote` returns. */
  const MaxRemoteLength := 64

  /** The prefixes stripped from a long remote, checked in this order. */
  const Schemes: seq<string> := ["http://", "https://", "git@"]

  const TooLong := ValueError("Cannot simplify URL of the remote to be 64 characters or fewer.")

  /** What the git library reports about the repository holding the code. */
  datatype RepoState =
    | NotARepository
    | Repository(headCommit: string, dirty: bool, remotes: seq<string>)

  // ---------------------------------------------------------------------------
  // get_git_commit_hash

  /** The head commit, marked when the working tree has uncommitted changes. */
  function GitCommitHash(repo: RepoState): (r: string)
    ensures repo.NotARepository? ==> r == "unknown"
    ensures repo.Repository? ==> StartsWith(r, repo.headCommit)
    ensures repo.Repository? ==> |r| == |repo.headCommit| + (if repo.dirty then |" (dirty)"| else 0)
  {
    match repo
    case NotARepository => "unknown"
    case Repository(commit, dirty, _) => if dirty then commit + " (dirty)" else commit
  }

  /**
   * The description tells the commit and the dirty state apart: a commit name
   * without spaces never ends with the marker on its own.
   */
  lemma CommitHashDirtyMarker(repo: RepoState)
    requires repo.Repository? && ' ' !in repo.headCommit
    ensures repo.dirty <==> EndsWith(GitCommitHash(repo), " (dirty)")
    ensures GitCommitHash(repo)[..|repo.headCommit|] == repo.headCommit
  {
    var c := repo.headCommit;
    if |c| >= 8 {
      assert c[|c| - 8] in c;
      assert c[|c| - 8..][0] != ' ';
    }
  }

  // ---------------------------------------------------------------------------
  // simplify_remote

  /** `s[len(p):]` when `s` starts with `p`, else `s`. */
  function StripPrefix(s: string, p: string): (r: string)
    ensures StartsWith(s, p) ==> s == p + r
    ensures !StartsWith(s, p) ==> r == s
  {
    if StartsWith(s, p) then s[|p|..] else s
  }

  /** The prefixes `ps` stripped one after the other, each checked against what the previous left. */
  function StripPrefixes(s: string, ps: seq<string>): (r: string)
    ensures |r| <= |s| && r == s[|s| - |r|..]
    decreases |ps|
  {
    if ps == [] then s
    else StripPrefix(StripPrefixes(s, ps[..|ps| - 1]), ps[|ps| - 1])
  }

  /** `remote[:-4]` when the remote ends with '.git'. */
  function StripGitSuffix(remote: string): (r: string)
    ensures EndsWith(remote, ".git") ==> remote == r + ".git"
    ensures !EndsWith(remote, ".git") ==> r == remote
  {
    if EndsWith(remote, ".git") then remote[..|remote| - 4] else remote
  }

  /** Both spellings of the GitHub host replaced by 'github:'. */
  function ShortenHost(remote: string): string {
    ReplaceAll(ReplaceAll(remote, "github.com:", "github:"), "github.com/", "github:")
  }

  /**
   * What `simplify_remote` returns or raises: a short remote as it is; a long one
   * without its '.git' suffix and scheme; if still long, with the host shortened;
   * and ValueError if even that is longer than 64 characters.
   */
  function SimplifiedRemote(remote: string): (r: Result<string>)
    ensures r.Ok? ==> |r.value| <= MaxRemoteLength
    ensures r.Err? ==> r.error == TooLong
    ensures |remote| <= MaxRemoteLength ==> r == Ok(remote)
  {
    if |remote| <= MaxRemoteLength then Ok(remote)
    else
      var stripped := StripPrefixes(StripGitSuffix(remote), Schemes);
      if |stripped| <= MaxRemoteLength then Ok(stripped)
      else
        var shortened := ShortenHost(stripped);
        if |shortened| > MaxRemoteLength then Err(TooLong) else Ok(shortened)
  }

  /**
   * `simplify_remote`: the remote is rebound step by step, the scheme prefixes in a
   * loop.
   */
  method SimplifyRemote(remote: string) returns (r: Result<string>)
    ensures r == SimplifiedRemote(remote)
  {
    if |remote| <= MaxRemoteLength {
      return Ok(remote);
    }
    var s := remote;
    if EndsWith(s, ".git") {
      s := s[..|s| - 4];
    }
    ghost var base := s;
    for i := 0 to |Schemes|
      invariant s == StripPrefixes(base, Schemes[..i])
    {
      var p := Schemes[i];
      assert Schemes[..i + 1][..i] == Schemes[..i];
      assert StripPrefixes(base, Schemes[..i + 1]) == StripPrefix(s, p);
      if StartsWith(s, p) {
        s := s[|p|..];
      }
    }
    assert Schemes[..|Schemes|] == Schemes;
    if |s| <= MaxRemoteLength {
      return Ok(s);
    }
    s := ReplaceAll(s, "github.com:", "github:");
    s := ReplaceAll(s, "github.com/", "github:");
    if |s| > MaxRemoteLength {
      return Err(TooLong);
    }
    return Ok(s);
  }

  /** A simplified remote is never longer than the remote it came from. */
  lemma SimplifiedNeverLonger(remote: string)
    requires SimplifiedRemote(remote).Ok?
    ensures |SimplifiedRemote(remote).value| <= |remote|
  {
    if |remote| > MaxRemoteLength {
      var stripped := StripPrefixes(StripGitSuffix(remote), Schemes);
      ReplaceShortens(stripped, "github.com:", "github:");
      ReplaceShortens(ReplaceAll(stripped, "github.com:", "github:"), "github.com/", "github:");
    }
  }

  /** Simplifying twice is simplifying once: the first result is already short enough. */
  lemma SimplifyIdempotent(remote: string)
    requires SimplifiedRemote(remote).Ok?
    ensures SimplifiedRemote(SimplifiedRemote(remote).value) == SimplifiedRemote(remote)
  {
  }

  /** A long remote keeps the GitHub host spelled out whenever stripping its ends suffices. */
  lemma StrippingSuffices(remote: string)
    requires |remote| > MaxRemoteLength
    requires |StripPrefixes(StripGitSuffix(remote), Schemes)| <= MaxRemoteLength
    ensures SimplifiedRemote(remote) == Ok(StripPrefixes(StripGitSuffix(remote), Schemes))
  {
  }

  /** The error is raised exactly when the remote stays too long after every rewrite. */
  lemma SimplifyFails(remote: string)
    ensures SimplifiedRemote(remote).Err? <==>
      && |remote| > MaxRemoteLength
      && |StripPrefixes(StripGitSuffix(remote), Schemes)| > MaxRemoteLength
      && |ShortenHost(StripPrefixes(StripGitSuffix(remote), Schemes))| > MaxRemoteLength
  {
  }

  // ---------------------------------------------------------------------------
  // get_git_remote_url

  /** An ssh remote 'git@host:path' rewritten to 'https://host/path'. */
  function SshToHttps(remote: string): (r: string)
    ensures StartsWith(remote, "git@") ==> StartsWith(r, "https://")
    ensures !StartsWith(remote, "git@") ==> r == remote
  {
    if StartsWith(remote, "git@") then
      var slashed := ReplaceAll(remote, ":", "/");
      SshSlashedKeepsUser(remote);
      ReplaceAtStart(slashed, "git@", "https://");
      ReplaceAll(slashed, "git@", "https://")
    else remote
  }

  /** Replacing ':' leaves the leading 'git@' of an ssh remote in place. */
  lemma SshSlashedKeepsUser(remote: string)
    requires StartsWith(remote, "git@")
    ensures StartsWith(ReplaceAll(remote, ":", "/"), "git@")
  {
    var p := "git@";
    var t := remote[4..];
    assert remote == p + t;
    assert ':' !in p;
    ReplaceCharKeepsPrefix(p, t, ':', "/");
    var r := ReplaceAll(remote, ":", "/");
    assert r == p + ReplaceAll(t, [':'], "/");
    assert r[..4] == p;
  }

  /**
   * `get_git_remote_url`: 'unknown' outside a repository or without remotes;
   * otherwise the first remote, its ssh form rewritten, simplified on request.
   */
  method GitRemoteUrl(repo: RepoState, simplify: bool) returns (r: Result<string>)
    ensures repo.NotARepository? || repo.remotes == [] ==> r == Ok("unknown")
    ensures repo.Repository? && repo.remotes != [] ==>
      r == (if simplify then SimplifiedRemote(SshToHttps(repo.remotes[0])) else Ok(SshToHttps(repo.remotes[0])))
  {
    if repo.NotARepository? || |repo.remotes| == 0 {
      return Ok("unknown");
    }
    var remote := repo.remotes[0];
    if StartsWith(remote, "git@") {
      remote := ReplaceAll(ReplaceAll(remote, ":", "/"), "git@", "https://");
    }
    if simplify {
      r := SimplifyRemote(remote);
    } else {
      r := Ok(remote);
    }
  }

  /** The URL of an ssh remote is https whenever it is not shortened. */
  lemma SshRemoteUrl(remote: string)
    requires StartsWith(remote, "git@") && |SshToHttps(remote)| <= MaxRemoteLength
    ensures SimplifiedRemote(SshToHttps(remote)) == Ok(SshToHttps(remote))
    ensures StartsWith(SshToHttps(remote), "https://")
  {
  }
}

/** Repository URL parsing, path encoding, and the request a merge request is created with. */
module GitOps {
  import opened AgentTypes

  // ----- the string functions the parsers are made of

  predicate HasPrefix(s: string, prefix: string) {
    prefix <= s
  }

  predicate HasSuffix(s: string, suffix: string) {
    |suffix| <= |s| && s[|s| - |suffix|..] == suffix
  }

  function TrimPrefix(s: string, prefix: string): string {
    if HasPrefix(s, prefix) then s[|prefix|..] else s
  }

  function TrimSuffix(s: string, suffix: string): string {
    if HasSuffix(s, suffix) then s[..|s| - |suffix|] else s
  }

  /** Position of the first `c` in `s`. */
  function Index(s: string, c: char): (i: Option<nat>)
    ensures i.None? <==> c !in s
    ensures i.Some? ==> i.value < |s| && s[i.value] == c && c !in s[..i.value]
  {
    if s == [] then None
    else if s[0] == c then Some(0)
    else
      match Index(s[1..], c)
      case None => None
      case Some(k) =>
        assert s[..k + 1] == [s[0]] + s[1..][..k];
        Some(k + 1)
  }

  /** The two pieces around the first separator, if there is one. */
  function SplitOnce(s: string, c: char): (parts: Option<(string, string)>)
    ensures parts.None? <==> c !in s
    ensures parts.Some? ==> s == parts.value.0 + [c] + parts.value.1 && c !in parts.value.0
  {
    match Index(s, c)
    case None => None
    case Some(i) => Some((s[..i], s[i + 1..]))
  }

  // ----- parsers

  const GIT_SUFFIX := ".git"
  const GITHUB_HTTPS := "https://github.com/"
  const GITHUB_SSH := "git@github.com:"
  const HTTPS := "https://"
  const SSH_USER := "git@"

  /** Owner and repository of a GitHub URL. */
  function ParseGitHubRepo(repoURL: string): Result<(string, string)> {
    var url := TrimSuffix(repoURL, GIT_SUFFIX);
    var url := TrimPrefix(url, GITHUB_HTTPS);
    var url := TrimPrefix(url, GITHUB_SSH);
    match SplitOnce(url, '/')
    case None => Failure
    case Some(parts) => Success(parts)
  }

  /** Host and project path of a GitLab URL. */
  function ParseGitLabProject(repoURL: string): Result<(string, string)> {
    var url := TrimSuffix(repoURL, GIT_SUFFIX);
    if HasPrefix(url, HTTPS) then
      var url := TrimPrefix(url, HTTPS);
      match Index(url, '/')
      case None => Failure
      case Some(i) => Success((url[..i], url[i + 1..]))
    else
      var url := TrimPrefix(url, SSH_USER);
      match SplitOnce(url, ':')
      case None => Failure
      case Some(parts) => Success(parts)
  }

  // ----- round trips

  datatype Scheme = Https | Ssh

  /** The ways a GitHub repository is written. */
  function PrintGitHub(owner: string, repo: string, scheme: Scheme, suffixed: bool): string {
    (if scheme == Https then GITHUB_HTTPS else GITHUB_SSH) + owner + "/" + repo
    + (if suffixed then GIT_SUFFIX else "")
  }

  /** The ways a GitLab project is written. */
  function PrintGitLab(host: string, path: string, scheme: Scheme, suffixed: bool): string {
    (if scheme == Https then HTTPS + host + "/" else SSH_USER + host + ":") + path
    + (if suffixed then GIT_SUFFIX else "")
  }

  lemma {:induction false} IndexAt(a: string, c: char, b: string)
    requires c !in a
    ensures Index(a + [c] + b, c) == Some(|a|)
  {
    if a == [] {
      assert a + [c] + b == [c] + b;
    } else {
      assert a + [c] + b == [a[0]] + (a[1..] + [c] + b);
      IndexAt(a[1..], c, b);
    }
  }

  lemma SplitOnceAt(a: string, c: char, b: string)
    ensures SplitOnce(a + [c] + b, c) == Some((a, b)) <==> c !in a
  {
    if c !in a {
      IndexAt(a, c, b);
      var s := a + [c] + b;
      assert s[..|a|] == a && s[|a| + 1..] == b;
    }
  }

  /** Only the tail after the last separator decides whether the `.git` suffix is there. */
  lemma SuffixInTail(front: string, c: char, tail: string)
    requires c !in GIT_SUFFIX
    ensures HasSuffix(front + [c] + tail, GIT_SUFFIX) <==> HasSuffix(tail, GIT_SUFFIX)
  {
    var s := front + [c] + tail;
    if |tail| >= 4 {
      assert s[|s| - 4..] == tail[|tail| - 4..];
    } else if |s| >= 4 {
      assert s[|s| - 4..][3 - |tail|] == c;
      assert GIT_SUFFIX[3 - |tail|] in GIT_SUFFIX;
    }
  }

  /** What the suffix step leaves of the last part of a printed URL. */
  function Kept(tail: string, suffixed: bool): (kept: string)
    ensures kept == tail <==> suffixed || !HasSuffix(tail, GIT_SUFFIX)
  {
    if suffixed then tail else TrimSuffix(tail, GIT_SUFFIX)
  }

  lemma SuffixStep(front: string, c: char, tail: string, suffixed: bool)
    requires c !in GIT_SUFFIX
    ensures TrimSuffix(front + [c] + tail + (if suffixed then GIT_SUFFIX else ""), GIT_SUFFIX)
            == front + [c] + Kept(tail, suffixed)
  {
    var s := front + [c] + tail;
    if suffixed {
      assert (s + GIT_SUFFIX)[|s|..] == GIT_SUFFIX;
    } else {
      assert s + "" == s;
      SuffixInTail(front, c, tail);
      if HasSuffix(tail, GIT_SUFFIX) {
        assert s[..|s| - 4] == front + [c] + tail[..|tail| - 4];
      }
    }
  }

  /** When a printed GitHub URL parses back to its owner and repository: the owner holds no slash, a
      bare `.git` name is not printed without the suffix, and an HTTPS owner does not look like an
      SSH address. */
  ghost predicate GitHubReadable(owner: string, repo: string, scheme: Scheme, suffixed: bool) {
    && '/' !in owner
    && (!suffixed ==> !HasSuffix(repo, GIT_SUFFIX))
    && (scheme == Https ==> !HasPrefix(owner + "/" + repo, GITHUB_SSH))
  }

  /** The text a printed GitHub URL is split in, once suffix and prefixes are gone. */
  function GitHubRemainder(owner: string, repo: string, scheme: Scheme, suffixed: bool): string {
    var url := owner + "/" + Kept(repo, suffixed);
    if scheme == Https then TrimPrefix(url, GITHUB_SSH) else url
  }

  lemma GitHubStripped(owner: string, repo: string, scheme: Scheme, suffixed: bool)
    ensures TrimPrefix(TrimPrefix(TrimSuffix(PrintGitHub(owner, repo, scheme, suffixed), GIT_SUFFIX),
                                  GITHUB_HTTPS), GITHUB_SSH)
            == GitHubRemainder(owner, repo, scheme, suffixed)
  {
    if scheme == Https {
      Stripped(GITHUB_HTTPS, owner, '/', repo, suffixed);
    } else {
      Stripped(GITHUB_SSH, owner, '/', repo, suffixed);
      OtherPrefix(GITHUB_SSH + (owner + "/" + Kept(repo, suffixed)), GITHUB_HTTPS);
    }
  }

  /** Suffix and prefix of a printed URL come off and leave its two parts. */
  lemma Stripped(prefix: string, front: string, c: char, tail: string, suffixed: bool)
    requires c !in GIT_SUFFIX
    ensures var url := front + [c] + Kept(tail, suffixed);
            && TrimSuffix(prefix + front + [c] + tail + (if suffixed then GIT_SUFFIX else ""), GIT_SUFFIX)
               == prefix + url
            && TrimPrefix(prefix + url, prefix) == url
  {
    SuffixStep(prefix + front, c, tail, suffixed);
    var url := front + [c] + Kept(tail, suffixed);
    assert prefix + front + [c] + Kept(tail, suffixed) == prefix + url;
    OwnPrefix(prefix, url);
  }

  lemma OwnPrefix(prefix: string, s: string)
    ensures TrimPrefix(prefix + s, prefix) == s
  {
  }

  lemma OtherPrefix(s: string, prefix: string)
    requires s != [] && prefix != [] && s[0] != prefix[0]
    ensures TrimPrefix(s, prefix) == s
  {
  }

  lemma GitHubRoundTrip(owner: string, repo: string, scheme: Scheme, suffixed: bool)
    ensures ParseGitHubRepo(PrintGitHub(owner, repo, scheme, suffixed)) == Success((owner, repo))
            <==> GitHubReadable(owner, repo, scheme, suffixed)
  {
    GitHubStripped(owner, repo, scheme, suffixed);
    var url := GitHubRemainder(owner, repo, scheme, suffixed);
    if GitHubReadable(owner, repo, scheme, suffixed) || url == owner + "/" + repo {
      SplitOnceAt(owner, '/', repo);
    } else {
      ShorterDiffers(url, '/', owner, repo);
    }
  }

  /** A text shorter than the pair it should split into does not split into it. */
  lemma ShorterDiffers(s: string, c: char, a: string, b: string)
    requires |s| < |a| + 1 + |b|
    ensures SplitOnce(s, c) != Some((a, b))
  {
  }

  ghost predicate GitLabReadable(host: string, path: string, scheme: Scheme, suffixed: bool) {
    && (if scheme == Https then '/' else ':') !in host
    && (!suffixed ==> !HasSuffix(path, GIT_SUFFIX))
  }

  /** How a GitLab URL reads once its suffix is gone. */
  lemma GitLabStripped(host: string, path: string, scheme: Scheme, suffixed: bool)
    ensures var url := host + (if scheme == Https then "/" else ":") + Kept(path, suffixed);
            var prefix := if scheme == Https then HTTPS else SSH_USER;
            var trimmed := TrimSuffix(PrintGitLab(host, path, scheme, suffixed), GIT_SUFFIX);
            trimmed == prefix + url && TrimPrefix(trimmed, prefix) == url
            && (HasPrefix(trimmed, HTTPS) <==> scheme == Https)
  {
    if scheme == Https {
      Stripped(HTTPS, host, '/', path, suffixed);
    } else {
      Stripped(SSH_USER, host, ':', path, suffixed);
      assert (SSH_USER + (host + ":" + Kept(path, suffixed)))[0] == 'g';
    }
  }

  lemma GitLabRoundTrip(host: string, path: string, scheme: Scheme, suffixed: bool)
    ensures ParseGitLabProject(PrintGitLab(host, path, scheme, suffixed)) == Success((host, path))
            <==> GitLabReadable(host, path, scheme, suffixed)
  {
    GitLabStripped(host, path, scheme, suffixed);
    var c := if scheme == Https then '/' else ':';
    var url := host + [c] + Kept(path, suffixed);
    if Kept(path, suffixed) == path {
      SplitOnceAt(host, c, path);
    } else {
      ShorterDiffers(url, c, host, path);
    }
  }

  lemma PlainOwner(owner: string, repo: string)
    requires '/' !in owner && ':' !in owner
    ensures !HasPrefix(owner + "/" + repo, GITHUB_SSH)
  {
    var s := owner + "/" + repo;
    if |owner| <= 14 {
      assert s[|owner|] == '/' && (|owner| < |GITHUB_SSH| ==> GITHUB_SSH[|owner|] != '/');
    } else {
      assert s[14] == owner[14] && GITHUB_SSH[14] == ':';
    }
  }

  /** Every way of writing an ordinary repository names the same repository. */
  lemma PrintedFormsAgree(owner: string, repo: string, scheme: Scheme, suffixed: bool)
    requires '/' !in owner && ':' !in owner && !HasSuffix(repo, GIT_SUFFIX)
    ensures ParseGitHubRepo(PrintGitHub(owner, repo, scheme, suffixed)) == Success((owner, repo))
    ensures ParseGitLabProject(PrintGitLab(owner, repo, scheme, suffixed)) == Success((owner, repo))
  {
    PlainOwner(owner, repo);
    GitHubRoundTrip(owner, repo, scheme, suffixed);
    GitLabRoundTrip(owner, repo, scheme, suffixed);
  }

  // ----- path encoding

  /** Every `/` replaced by `%2F`. */
  function EncodePath(path: string): (encoded: string)
    ensures '/' !in encoded
    ensures |encoded| == |path| + 2 * Slashes(path)
  {
    if path == [] then []
    else (if path[0] == '/' then "%2F" else [path[0]]) + EncodePath(path[1..])
  }

  function Slashes(s: string): nat {
    if s == [] then 0 else (if s[0] == '/' then 1 else 0) + Slashes(s[1..])
  }

  function HexValue(c: char): Option<nat> {
    if '0' <= c <= '9' then Some(c as int - '0' as int)
    else if 'A' <= c <= 'F' then Some(c as int - 'A' as int + 10)
    else if 'a' <= c <= 'f' then Some(c as int - 'a' as int + 10)
    else None
  }

  /** A percent-encoded octet starts here (section 2.1 of RFC 3986). */
  predicate TripletAt(s: string, i: nat) {
    i + 2 < |s| && s[i] == '%' && HexValue(s[i + 1]).Some? && HexValue(s[i + 2]).Some?
  }

  /** What the receiving server makes of a path segment: every triplet becomes its octet. */
  function PercentDecode(s: string): (decoded: string)
    ensures |decoded| <= |s|
  {
    if s == [] then []
    else if TripletAt(s, 0) then
      [(16 * HexValue(s[1]).value + HexValue(s[2]).value) as char] + PercentDecode(s[3..])
    else [s[0]] + PercentDecode(s[1..])
  }

  predicate HasTriplet(s: string) {
    exists i: nat :: i < |s| && TripletAt(s, i)
  }

  /** The server decodes the encoded path to the project path exactly when the path itself holds no
      percent triplet, because the encoder leaves `%` alone. */
  lemma {:induction false} EncodingRoundTrip(path: string)
    ensures PercentDecode(EncodePath(path)) == path <==> !HasTriplet(path)
  {
    if path != [] {
      var rest := path[1..];
      EncodingRoundTrip(rest);
      TripletSplit(path);
      if path[0] == '/' {
        assert EncodePath(path)[3..] == EncodePath(rest);
        assert TripletAt(EncodePath(path), 0);
      } else {
        assert EncodePath(path)[1..] == EncodePath(rest);
        TripletSurvives(path);
        if TripletAt(path, 0) {
          EncodedTriplet(path);
        }
      }
    }
  }

  lemma TripletSplit(s: string)
    requires s != []
    ensures HasTriplet(s) <==> TripletAt(s, 0) || HasTriplet(s[1..])
  {
    if HasTriplet(s) && !TripletAt(s, 0) {
      var i: nat :| i < |s| && TripletAt(s, i);
      assert TripletAt(s[1..], i - 1);
    }
    if HasTriplet(s[1..]) {
      var i: nat :| i < |s[1..]| && TripletAt(s[1..], i);
      assert TripletAt(s, i + 1);
    }
  }

  /** The encoder neither makes nor breaks a triplet at a character it keeps. */
  lemma TripletSurvives(path: string)
    requires path != [] && path[0] != '/'
    ensures TripletAt(EncodePath(path), 0) <==> TripletAt(path, 0)
  {
    KeptHead(path);
    EncodedHead(path[1..]);
    if |path| > 1 && path[1] != '/' {
      KeptHead(path[1..]);
      assert path[1..][1..] == path[2..];
      EncodedHead(path[2..]);
    }
  }

  lemma EncodedHead(path: string)
    ensures path == [] ==> EncodePath(path) == []
    ensures path != [] ==> EncodePath(path) != []
                           && EncodePath(path)[0] == if path[0] == '/' then '%' else path[0]
  {
  }

  /** Decoding a kept triplet gives fewer characters than the path has, whatever follows. */
  lemma EncodedTriplet(path: string)
    requires TripletAt(path, 0)
    ensures PercentDecode(EncodePath(path)) != path
  {
    TripletKept(path);
    DecodeShrinks(path[3..]);
  }

  lemma KeptHead(path: string)
    requires path != [] && path[0] != '/'
    ensures EncodePath(path) == [path[0]] + EncodePath(path[1..])
  {
  }

  /** The encoder passes a triplet through as it stands. */
  lemma TripletKept(path: string)
    requires TripletAt(path, 0)
    ensures EncodePath(path) == path[..3] + EncodePath(path[3..])
    ensures TripletAt(EncodePath(path), 0) && EncodePath(path)[3..] == EncodePath(path[3..])
  {
    KeptHead(path);
    KeptHead(path[1..]);
    assert path[1..][1..] == path[2..];
    KeptHead(path[2..]);
    assert path[2..][1..] == path[3..];
    assert path[..3] == [path[0]] + [path[1]] + [path[2]];
  }

  lemma {:induction false} DecodeShrinks(path: string)
    ensures |PercentDecode(EncodePath(path))| <= |path|
  {
    if path != [] {
      var e := EncodePath(path);
      if path[0] == '/' {
        assert TripletAt(e, 0) && e[3..] == EncodePath(path[1..]);
        DecodeShrinks(path[1..]);
      } else {
        assert e[1..] == EncodePath(path[1..]);
        TripletSurvives(path);
        if TripletAt(path, 0) {
          TripletKept(path);
          DecodeShrinks(path[3..]);
        } else {
          DecodeShrinks(path[1..]);
        }
      }
    }
  }

  /** Two project paths without triplets never share an encoding. */
  lemma EncodingInjective(p: string, q: string)
    requires !HasTriplet(p) && !HasTriplet(q)
    requires EncodePath(p) == EncodePath(q)
    ensures p == q
  {
    EncodingRoundTrip(p);
    EncodingRoundTrip(q);
  }

  // ----- what the parsers take

  /** A GitHub URL is read by taking off known ends; what is left is cut at its first slash. */
  ghost predicate TakenApart(url: string, front: string, rest: string, back: string) {
    && url == front + rest + back
    && front in {"", GITHUB_HTTPS, GITHUB_SSH, GITHUB_HTTPS + GITHUB_SSH} && back in {"", GIT_SUFFIX}
  }

  lemma TrimmedOff(s: string, prefix: string) returns (front: string)
    ensures front in {"", prefix} && s == front + TrimPrefix(s, prefix)
  {
    front := if HasPrefix(s, prefix) then prefix else "";
  }

  /** The parser invents nothing: the pair it gives, put together again, is in the URL between known ends,
      and it fails only if no slash is left there. */
  lemma GitHubParsed(url: string) returns (front: string, rest: string, back: string)
    ensures TakenApart(url, front, rest, back)
    ensures ParseGitHubRepo(url).Failure? <==> '/' !in rest
    ensures ParseGitHubRepo(url).Success? ==>
              var (owner, repo) := ParseGitHubRepo(url).value;
              '/' !in owner && rest == owner + "/" + repo
  {
    var bare := TrimSuffix(url, GIT_SUFFIX);
    back := if HasSuffix(url, GIT_SUFFIX) then GIT_SUFFIX else "";
    assert url == bare + back;
    var f := TrimmedOff(bare, GITHUB_HTTPS);
    var g := TrimmedOff(TrimPrefix(bare, GITHUB_HTTPS), GITHUB_SSH);
    rest := TrimPrefix(TrimPrefix(bare, GITHUB_HTTPS), GITHUB_SSH);
    front := f + g;
    assert "" + g == g && f + "" == f;
    assert bare == f + (g + rest) == front + rest;
  }

  /** Likewise for GitLab: HTTPS is cut at the first slash, everything else at the first colon. */
  lemma GitLabParsed(url: string) returns (front: string, rest: string, back: string)
    ensures url == front + rest + back && back in {"", GIT_SUFFIX}
    ensures front in {"", HTTPS, SSH_USER} && (front == HTTPS <==> HasPrefix(front + rest, HTTPS))
    ensures ParseGitLabProject(url).Failure? <==> (if front == HTTPS then '/' else ':') !in rest
    ensures ParseGitLabProject(url).Success? ==>
              var (host, path) := ParseGitLabProject(url).value;
              var c := if front == HTTPS then '/' else ':';
              c !in host && rest == host + [c] + path
  {
    var bare := TrimSuffix(url, GIT_SUFFIX);
    back := if HasSuffix(url, GIT_SUFFIX) then GIT_SUFFIX else "";
    assert url == bare + back;
    if HasPrefix(bare, HTTPS) {
      front, rest := HTTPS, TrimPrefix(bare, HTTPS);
      assert bare == HTTPS + rest;
      assert HasPrefix(HTTPS + rest, HTTPS);
      if '/' in rest {
        var i := Index(rest, '/').value;
        assert rest == rest[..i] + ['/'] + rest[i + 1..];
      }
    } else {
      front := TrimmedOff(bare, SSH_USER);
      rest := TrimPrefix(bare, SSH_USER);
      assert front + rest == bare;
    }
  }

  // ----- the request

  datatype PROptions = PROptions(platform: string, repoURL: string, sourceBranch: string,
                                 targetBranch: string, token: string)

  /** A request as it goes out. */
  datatype Request = Request(address: string, opts: PROptions)

  /** The address a merge request is posted to; none for an unsupported platform or unreadable URL. */
  function RequestURL(opts: PROptions): Result<string> {
    if opts.platform == "github" then
      match ParseGitHubRepo(opts.repoURL)
      case Failure => Failure
      case Success((owner, repo)) =>
        Success(GitHubAddress(owner, repo))
    else if opts.platform == "gitlab" then
      match ParseGitLabProject(opts.repoURL)
      case Failure => Failure
      case Success((host, path)) =>
        Success("https://" + host + "/api/v4/projects/" + EncodePath(path) + "/merge_requests")
    else Failure
  }

  function GitHubAddress(owner: string, repo: string): string {
    "https://api.github.com/repos/" + owner + "/" + repo + "/pulls"
  }

  /** Every way of writing an ordinary GitHub repository is posted to that repository. */
  lemma GitHubAddressed(opts: PROptions, owner: string, repo: string, scheme: Scheme, suffixed: bool)
    requires opts.platform == "github" && opts.repoURL == PrintGitHub(owner, repo, scheme, suffixed)
    requires GitHubReadable(owner, repo, scheme, suffixed)
    ensures RequestURL(opts) == Success("https://api.github.com/repos/" + owner + "/" + repo + "/pulls")
  {
    GitHubRoundTrip(owner, repo, scheme, suffixed);
  }

  /** Every way of writing a GitLab project is posted to its host, under one path segment that the host
      decodes to the project path. */
  lemma GitLabAddressed(opts: PROptions, host: string, path: string, scheme: Scheme, suffixed: bool)
    returns (segment: string)
    requires opts.platform == "gitlab" && opts.repoURL == PrintGitLab(host, path, scheme, suffixed)
    requires GitLabReadable(host, path, scheme, suffixed) && !HasTriplet(path)
    ensures RequestURL(opts)
            == Success("https://" + host + "/api/v4/projects/" + segment + "/merge_requests")
    ensures '/' !in segment && PercentDecode(segment) == path
  {
    GitLabRoundTrip(host, path, scheme, suffixed);
    EncodingRoundTrip(path);
    segment := EncodePath(path);
  }

  /** A request has an address exactly if its platform is one of the two and its URL can be read for it. */
  lemma KnownPlatforms(opts: PROptions)
    ensures RequestURL(opts).Success? <==>
              || (opts.platform == "github" && ParseGitHubRepo(opts.repoURL).Success?)
              || (opts.platform == "gitlab" && ParseGitLabProject(opts.repoURL).Success?)
  {
  }

  /** Two repositories never share an address. */
  lemma GitHubAddressesApart(owner: string, repo: string, owner': string, repo': string)
    requires '/' !in owner && '/' !in owner'
    requires GitHubAddress(owner, repo) == GitHubAddress(owner', repo')
    ensures owner == owner' && repo == repo'
  {
    var base, tail := "https://api.github.com/repos/", "/pulls";
    var s, s' := owner + "/" + repo, owner' + "/" + repo';
    assert GitHubAddress(owner, repo) == base + s + tail && GitHubAddress(owner', repo') == base + s' + tail;
    Between(base, s, s', tail);
    SplitOnceAt(owner, '/', repo);
    SplitOnceAt(owner', '/', repo');
  }

  lemma Between(base: string, s: string, s': string, tail: string)
    requires base + s + tail == base + s' + tail
    ensures s == s'
  {
    assert |s| == |s'|;
    assert (base + s + tail)[|base|..|base| + |s|] == s;
    assert (base + s' + tail)[|base|..|base| + |s'|] == s';
  }
}

/**
 * `parseGitUrl`: the owner and repository names read out of a git reference
 * with the JavaScript pattern  /github.com:(.*)\/(.*).git/ .
 *
 * The pattern is unanchored, its two groups are greedy and both of its dots
 * are wildcards. This module does not implement regular expressions in
 * general: it searches for this one pattern directly and proves that the
 * search returns exactly the match JavaScript's backtracking engine picks
 * (the leftmost start, then the longest first group, then the longest second
 * group).
 *
 * Positions in a match of `s`:
 *   i       the match starts: s[i..i+6] == "github", s[i+6] is any character,
 *           s[i+7..i+11] == "com:"
 *   p       the escaped slash; the first group is s[i+11..p]
 *   q       the wildcard before "git"; the second group is s[p+1..q]
 */
module GitUrl {
  import opened Wrappers

  /** The characters JavaScript's `.` does not match. */
  predicate IsLineTerminator(c: char) {
    c == '\n' || c == '\r' || c == '\U{2028}' || c == '\U{2029}'
  }

  /** "github", any character, "com:" start at position i. */
  predicate HeaderAt(s: string, i: int) {
    0 <= i && i + 11 <= |s| && s[i..i + 6] == "github" && !IsLineTerminator(s[i + 6])
    && s[i + 7..i + 11] == "com:"
  }

  /** "git" follows position q. */
  predicate GitAfter(s: string, q: int) {
    0 <= q && q + 4 <= |s| && s[q + 1..q + 4] == "git"
  }

  /** The pattern matches s starting at i, with the slash at p and the wildcard before "git" at q. */
  predicate MatchAt(s: string, i: int, p: int, q: int) {
    HeaderAt(s, i) && i + 11 <= p < q && GitAfter(s, q) && s[p] == '/'
    && forall k :: i + 11 <= k <= q ==> !IsLineTerminator(s[k])
  }

  /** The match JavaScript returns: leftmost start, then greedy first group, then greedy second group. */
  ghost predicate SelectedMatch(s: string, i: int, p: int, q: int) {
    MatchAt(s, i, p, q)
    && forall i', p', q' :: MatchAt(s, i', p', q') ==>
         i <= i' && (i' == i ==> p' <= p && (p' == p ==> q' <= q))
  }

  /** The first line terminator at or after k, or |s|. */
  function LineEnd(s: string, k: nat): (e: nat)
    requires k <= |s|
    ensures k <= e <= |s|
    ensures forall j :: k <= j < e ==> !IsLineTerminator(s[j])
    ensures e < |s| ==> IsLineTerminator(s[e])
    decreases |s| - k
  {
    if k == |s| || IsLineTerminator(s[k]) then k else LineEnd(s, k + 1)
  }

  /** The largest q in [lo, hi) that "git" follows. */
  function LastGit(s: string, lo: nat, hi: nat): (r: Option<nat>)
    ensures r.Some? ==> lo <= r.value < hi && GitAfter(s, r.value)
    ensures forall q :: lo <= q < hi && (r.None? || r.value < q) ==> !GitAfter(s, q)
    decreases hi
  {
    if hi <= lo then None
    else if GitAfter(s, hi - 1) then Some(hi - 1)
    else LastGit(s, lo, hi - 1)
  }

  /** The largest p in [lo, hi) holding a slash. */
  function LastSlash(s: string, lo: nat, hi: nat): (r: Option<nat>)
    requires hi <= |s|
    ensures r.Some? ==> lo <= r.value < hi && s[r.value] == '/'
    ensures forall p :: lo <= p < hi && (r.None? || r.value < p) ==> s[p] != '/'
    decreases hi
  {
    if hi <= lo then None
    else if s[hi - 1] == '/' then Some(hi - 1)
    else LastSlash(s, lo, hi - 1)
  }

  /** The greedy choice of (p, q) for a match starting at i, if the pattern matches there. */
  function MatchFrom(s: string, i: nat): (r: Option<(nat, nat)>)
    ensures r.Some? ==> MatchAt(s, i, r.value.0, r.value.1)
    ensures r.Some? ==> forall p, q :: MatchAt(s, i, p, q) ==>
              p <= r.value.0 && (p == r.value.0 ==> q <= r.value.1)
    ensures r.None? ==> forall p, q :: !MatchAt(s, i, p, q)
  {
    if !HeaderAt(s, i) then None
    else
      var e := LineEnd(s, i + 11);
      match LastGit(s, i + 12, e)
      case None => None
      case Some(q) =>
        match LastSlash(s, i + 11, q)
        case None => None
        case Some(p) => Some((p, q))
  }

  /** The leftmost match starting at or after i. */
  function FirstMatch(s: string, i: nat): (r: Option<(nat, nat, nat)>)
    ensures r.Some? ==> i <= r.value.0 && SelectedFrom(s, i, r.value.0, r.value.1, r.value.2)
    ensures r.None? ==> forall j, p, q :: i <= j ==> !MatchAt(s, j, p, q)
    decreases |s| - i
  {
    if i + 11 > |s| then None
    else
      match MatchFrom(s, i)
      case Some((p, q)) => Some((i, p, q))
      case None => FirstMatch(s, i + 1)
  }

  /** SelectedMatch, restricted to matches starting at or after i. */
  ghost predicate SelectedFrom(s: string, i: int, j: int, p: int, q: int) {
    MatchAt(s, j, p, q)
    && forall j', p', q' :: i <= j' && MatchAt(s, j', p', q') ==>
         j <= j' && (j' == j ==> p' <= p && (p' == p ==> q' <= q))
  }

  /**
   * parseGitUrl(git): the two capture groups of the selected match, or a pair
   * of `undefined`s when the pattern does not match (nothing is thrown).
   */
  function ParseGitUrl(git: string): (r: (Option<string>, Option<string>))
    ensures r.0.Some? <==> r.1.Some?
    ensures r.0.None? <==> forall i, p, q :: !MatchAt(git, i, p, q)
    ensures r.0.Some? ==>
      exists i, p, q :: SelectedMatch(git, i, p, q) && r.0.value == git[i + 11..p] && r.1.value == git[p + 1..q]
  {
    match FirstMatch(git, 0)
    case None => (None, None)
    case Some((i, p, q)) =>
      assert SelectedMatch(git, i, p, q) by {
        forall i', p', q' | MatchAt(git, i', p', q')
          ensures i <= i' && (i' == i ==> p' <= p && (p' == p ==> q' <= q))
        {
          assert 0 <= i';
        }
      }
      (Some(git[i + 11..p]), Some(git[p + 1..q]))
  }

  /** A reference of the usual shape: prefix, "github.com:", owner, "/", repo, ".git", suffix. */
  function CanonicalRef(prefix: string, owner: string, repo: string, suffix: string): string {
    prefix + "github.com:" + owner + "/" + repo + ".git" + suffix
  }

  /** Where each part of a reference of the usual shape lies. */
  lemma CanonicalLayout(prefix: string, owner: string, repo: string, suffix: string)
    ensures var s := CanonicalRef(prefix, owner, repo, suffix);
      var i0 := |prefix|;
      var p0 := i0 + 11 + |owner|;
      var q0 := p0 + 1 + |repo|;
      && |s| == q0 + 4 + |suffix|
      && s[i0..i0 + 11] == "github.com:"
      && (forall k :: 0 <= k < |owner| ==> s[i0 + 11 + k] == owner[k])
      && s[p0] == '/'
      && (forall k :: 0 <= k < |repo| ==> s[p0 + 1 + k] == repo[k])
      && s[q0..q0 + 4] == ".git"
      && (forall k :: 0 <= k < |suffix| ==> s[q0 + 4 + k] == suffix[k])
      && s[i0 + 11..p0] == owner && s[p0 + 1..q0] == repo
  {
    var a := prefix + "github.com:";
    var b := a + owner + "/";
    var c := b + repo + ".git";
    var s := c + suffix;
    assert s == CanonicalRef(prefix, owner, repo, suffix);
    assert s[..|c|] == c;
    assert c[..|b|] == b;
    assert b[..|a|] == a;
    assert s[|prefix|..|a|] == a[|prefix|..];
  }

  /** A reference of the usual shape has the header at the end of its prefix. */
  lemma CanonicalHeader(prefix: string, owner: string, repo: string, suffix: string)
    ensures HeaderAt(CanonicalRef(prefix, owner, repo, suffix), |prefix|)
  {
    var s := CanonicalRef(prefix, owner, repo, suffix);
    var i0 := |prefix|;
    CanonicalLayout(prefix, owner, repo, suffix);
    assert s[i0..i0 + 6] == s[i0..i0 + 11][..6];
    assert s[i0 + 7..i0 + 11] == s[i0..i0 + 11][7..];
  }

  /** ... "git" after the dot of ".git" ... */
  lemma CanonicalGit(prefix: string, owner: string, repo: string, suffix: string)
    ensures GitAfter(CanonicalRef(prefix, owner, repo, suffix), |prefix| + 12 + |owner| + |repo|)
  {
    var s := CanonicalRef(prefix, owner, repo, suffix);
    var q0 := |prefix| + 12 + |owner| + |repo|;
    CanonicalLayout(prefix, owner, repo, suffix);
    assert s[q0 + 1..q0 + 4] == s[q0..q0 + 4][1..];
  }

  /** ... and no line terminator between the header and that dot when owner and repo have none. */
  lemma CanonicalOneLine(prefix: string, owner: string, repo: string, suffix: string)
    requires forall k :: 0 <= k < |owner| ==> !IsLineTerminator(owner[k])
    requires forall k :: 0 <= k < |repo| ==> !IsLineTerminator(repo[k])
    ensures var s := CanonicalRef(prefix, owner, repo, suffix);
      forall k :: |prefix| + 11 <= k <= |prefix| + 12 + |owner| + |repo| ==> !IsLineTerminator(s[k])
  {
    var s := CanonicalRef(prefix, owner, repo, suffix);
    var head := prefix + "github.com:";
    var middle := owner + "/" + repo + ".";
    assert s == head + middle + ("git" + suffix);
    forall k | |head| <= k < |head| + |middle| ensures !IsLineTerminator(s[k]) {
      var m := k - |head|;
      assert s[k] == middle[m];
      if m < |owner| {
        assert middle[m] == owner[m];
      } else if |owner| < m < |owner| + 1 + |repo| {
        assert middle[m] == repo[m - |owner| - 1];
      }
    }
  }

  /** A reference of the usual shape matches at the start of "github.com:". */
  lemma CanonicalMatches(prefix: string, owner: string, repo: string, suffix: string)
    requires forall k :: 0 <= k < |owner| ==> !IsLineTerminator(owner[k])
    requires forall k :: 0 <= k < |repo| ==> !IsLineTerminator(repo[k])
    ensures var i0 := |prefix|;
      var p0 := i0 + 11 + |owner|;
      MatchAt(CanonicalRef(prefix, owner, repo, suffix), i0, p0, p0 + 1 + |repo|)
  {
    var s := CanonicalRef(prefix, owner, repo, suffix);
    var p0 := |prefix| + 11 + |owner|;
    CanonicalHeader(prefix, owner, repo, suffix);
    CanonicalGit(prefix, owner, repo, suffix);
    CanonicalOneLine(prefix, owner, repo, suffix);
    assert s[p0] == '/' by {
      CanonicalLayout(prefix, owner, repo, suffix);
    }
  }

  /** In a reference of the usual shape, "git" follows no position after the dot of ".git". */
  lemma CanonicalLastGit(prefix: string, owner: string, repo: string, suffix: string, q: int)
    requires forall k :: 0 <= k < |suffix| ==> suffix[k] != 'g'
    requires q > |prefix| + 12 + |owner| + |repo|
    ensures !GitAfter(CanonicalRef(prefix, owner, repo, suffix), q)
  {
    var s := CanonicalRef(prefix, owner, repo, suffix);
    var q0 := |prefix| + 12 + |owner| + |repo|;
    CanonicalLayout(prefix, owner, repo, suffix);
    if q + 4 <= |s| {
      assert s[q + 1..q + 4][0] == s[q + 1];
      if q + 1 == q0 + 2 {
        assert s[q0..q0 + 4][2] == s[q + 1];
      } else if q + 1 == q0 + 3 {
        assert s[q0..q0 + 4][3] == s[q + 1];
      } else {
        assert suffix[q + 1 - (q0 + 4)] == s[q + 1];
      }
    }
  }

  /**
   * A match that starts where every other match starts or later, whose slash
   * is the last one before its "git", and after whose "git" no other "git"
   * follows, is the selected one.
   */
  lemma SelectedIsDetermined(s: string, i: int, p: int, q: int, i0: int, p0: int, q0: int)
    requires SelectedMatch(s, i, p, q) && MatchAt(s, i0, p0, q0)
    requires forall j :: 0 <= j < i0 ==> !HeaderAt(s, j)
    requires forall k :: p0 < k < q0 ==> s[k] != '/'
    requires forall k :: q0 < k ==> !GitAfter(s, k)
    ensures i == i0 && p == p0 && q == q0
  {
    assert i <= i0;
    assert HeaderAt(s, i);
    assert i == i0;
    assert p0 <= p;
    assert q <= q0;
    assert p == p0;
  }

  /**
   * On a reference of the usual shape, the owner is everything between
   * "github.com:" and the last slash, the repository everything after that up
   * to ".git". The owner may itself contain slashes; the repository may not,
   * nothing after ".git" may be a 'g' (a later "git" would lengthen the
   * greedy second group), and no match may start inside the prefix.
   */
  lemma {:induction false} ParseCanonical(prefix: string, owner: string, repo: string, suffix: string)
    requires forall j :: 0 <= j < |prefix| ==> !HeaderAt(CanonicalRef(prefix, owner, repo, suffix), j)
    requires forall k :: 0 <= k < |owner| ==> !IsLineTerminator(owner[k])
    requires forall k :: 0 <= k < |repo| ==> !IsLineTerminator(repo[k]) && repo[k] != '/'
    requires forall k :: 0 <= k < |suffix| ==> suffix[k] != 'g'
    ensures ParseGitUrl(CanonicalRef(prefix, owner, repo, suffix)) == (Some(owner), Some(repo))
  {
    var s := CanonicalRef(prefix, owner, repo, suffix);
    var i0 := |prefix|;
    var p0 := i0 + 11 + |owner|;
    var q0 := p0 + 1 + |repo|;
    CanonicalMatches(prefix, owner, repo, suffix);
    CanonicalSeparators(prefix, owner, repo, suffix);
    ParseDetermined(s, i0, p0, q0, owner, repo);
  }

  /** When a match is provably the selected one, parseGitUrl returns its groups. */
  lemma ParseDetermined(s: string, i0: int, p0: int, q0: int, owner: string, repo: string)
    requires MatchAt(s, i0, p0, q0)
    requires forall j :: 0 <= j < i0 ==> !HeaderAt(s, j)
    requires forall k :: p0 < k < q0 ==> s[k] != '/'
    requires forall k :: q0 < k ==> !GitAfter(s, k)
    requires s[i0 + 11..p0] == owner && s[p0 + 1..q0] == repo
    ensures ParseGitUrl(s) == (Some(owner), Some(repo))
  {
    var r := ParseGitUrl(s);
    var i, p, q :| SelectedMatch(s, i, p, q) && r.0.value == s[i + 11..p] && r.1.value == s[p + 1..q];
    SelectedIsDetermined(s, i, p, q, i0, p0, q0);
  }

  /** The separators of a reference of the usual shape, and the groups between them. */
  lemma CanonicalSeparators(prefix: string, owner: string, repo: string, suffix: string)
    requires forall k :: 0 <= k < |repo| ==> repo[k] != '/'
    requires forall k :: 0 <= k < |suffix| ==> suffix[k] != 'g'
    ensures var s := CanonicalRef(prefix, owner, repo, suffix);
      var p0 := |prefix| + 11 + |owner|;
      var q0 := p0 + 1 + |repo|;
      && (forall k :: p0 < k < q0 ==> s[k] != '/')
      && (forall k :: q0 < k ==> !GitAfter(s, k))
      && s[|prefix| + 11..p0] == owner && s[p0 + 1..q0] == repo
  {
    var s := CanonicalRef(prefix, owner, repo, suffix);
    var p0 := |prefix| + 11 + |owner|;
    var q0 := p0 + 1 + |repo|;
    CanonicalLayout(prefix, owner, repo, suffix);
    forall k | p0 < k < q0 ensures s[k] != '/' {
      assert s[k] == repo[k - p0 - 1];
    }
    forall k | q0 < k ensures !GitAfter(s, k) {
      CanonicalLastGit(prefix, owner, repo, suffix, k);
    }
  }

  /** A typical SSH reference: `git@github.com:alice/app.git`. */
  lemma ParseAliceApp()
    ensures ParseGitUrl("git@github.com:alice/app.git") == (Some("alice"), Some("app"))
  {
    var s := CanonicalRef("git@", "alice", "app", "");
    assert s == "git@github.com:alice/app.git";
    forall j | 0 <= j < 4 ensures !HeaderAt(s, j) {
      assert s[j + 7] != 'c';
    }
    ParseCanonical("git@", "alice", "app", "");
  }

  lemma HeaderHasColon(s: string, i: int)
    ensures HeaderAt(s, i) ==> s[i + 10] == ':'
  {
    if HeaderAt(s, i) {
      assert s[i + 10] == s[i + 7..i + 11][3];
    }
  }

  /** `https://github.com/alice/app.git`, an HTTPS reference without a port, has no "github.com:" and yields two `undefined`s. */
  lemma ParseHttpsFails()
    ensures ParseGitUrl("https://github.com/alice/app.git") == (None, None)
  {
    var t := "//github.com/alice/app.git";
    var s := "https:" + t;
    assert s == "https://github.com/alice/app.git";
    assert forall k :: 0 <= k < |t| ==> t[k] != ':';
    forall i | 0 <= i ensures !HeaderAt(s, i) {
      HeaderHasColon(s, i);
      if i + 11 <= |s| {
        assert s[i + 10] == t[i + 4];
      }
    }
  }
}

/** The keys of the topology cache, and when two of them can be the same. */
module CacheKeys {

  const MARK := "-rev-sha-"

  predicate Occurs(t: string, s: string, i: nat) {
    i + |t| <= |s| && s[i..i + |t|] == t
  }

  ghost predicate Contains(s: string, t: string) {
    exists i: nat :: Occurs(t, s, i)
  }

  function Body(url: string, rev: string): string {
    url + MARK + rev
  }

  function Key(url: string, rev: string): string {
    "definition-" + Body(url, rev) + "-topology"
  }

  /** The rev cannot be taken for part of a key's middle. */
  ghost predicate Clean(rev: string) {
    !Contains("-" + rev, MARK)
  }

  lemma NoDashIsClean(rev: string)
    requires '-' !in rev
    ensures Clean(rev)
  {
    var s := "-" + rev;
    forall i: nat
      ensures !Occurs(MARK, s, i)
    {
      if i + 9 <= |s| {
        assert s[i..i + 9][4] == rev[i + 3];
      }
    }
  }

  lemma SameBody(url: string, rev: string, url': string, rev': string)
    requires Key(url, rev) == Key(url', rev')
    ensures Body(url, rev) == Body(url', rev')
  {
    var k, k' := Key(url, rev), Key(url', rev');
    assert k[11..|k| - 9] == Body(url, rev) && k'[11..|k'| - 9] == Body(url', rev');
  }

  /** Two occurrences of the mark overlap in at most one dash. */
  lemma MarksDoNotOverlap(s: string, i: nat, d: nat)
    requires Occurs(MARK, s, i) && 0 < d < 8
    ensures !Occurs(MARK, s, i + d)
  {
    if i + d + 9 <= |s| {
      assert s[i + d] == s[i..i + 9][d] == MARK[d];
      assert s[i + d + 1] == s[i..i + 9][d + 1] == MARK[d + 1];
      var t := s[i + d..i + d + 9];
      assert t[0] == s[i + d] && t[1] == s[i + d + 1];
      assert MARK[d] != MARK[0] || MARK[d + 1] != MARK[1];
    }
  }

  lemma OccursShifted(s: string, k: nat, i: nat)
    requires k <= |s| && k <= i
    ensures Occurs(MARK, s, i) <==> Occurs(MARK, s[k..], i - k)
  {
    if i + 9 <= |s| {
      assert s[k..][i - k..i - k + 9] == s[i..i + 9];
    }
  }

  /** The mark does not occur again behind a url, when the rev is clean. */
  lemma NoLaterMark(url: string, rev: string, i: nat)
    requires Clean(rev) && |url| < i
    ensures !Occurs(MARK, Body(url, rev), i)
  {
    var s := Body(url, rev);
    var d := i - |url|;
    assert s[|url|..|url| + 9] == MARK;
    if d < 8 {
      MarksDoNotOverlap(s, |url|, d);
    } else {
      assert s[|url| + 8..] == "-" + rev;
      OccursShifted(s, |url| + 8, i);
      assert !Occurs(MARK, "-" + rev, d - 8);
    }
  }

  /** A key with a clean rev has no other reading with an url that is longer. */
  lemma NoLongerUrl(url: string, rev: string, url': string, rev': string)
    requires Clean(rev) && Key(url, rev) == Key(url', rev')
    ensures |url'| <= |url| && url' == url[..|url'|]
  {
    SameBody(url, rev, url', rev');
    var s := Body(url, rev);
    assert s[|url'|..|url'| + 9] == MARK;
    assert Occurs(MARK, s, |url'|);
    if |url'| > |url| {
      NoLaterMark(url, rev, |url'|);
    }
    assert s[..|url|] == url && s[..|url'|] == url';
  }

  /** Keys are different for different repositories or different revs, as long as the revs are clean. */
  lemma {:induction false} KeyIsInjective(url: string, rev: string, url': string, rev': string)
    requires Clean(rev) && Clean(rev') && Key(url, rev) == Key(url', rev')
    ensures url == url' && rev == rev'
  {
    NoLongerUrl(url, rev, url', rev');
    NoLongerUrl(url', rev', url, rev);
    SameBody(url, rev, url', rev');
    assert Body(url, rev)[|url| + 9..] == rev && Body(url', rev')[|url'| + 9..] == rev';
  }

  /** Another repository, with a longer address, has this key under some rev of its own. */
  ghost predicate ReadOtherwise(url: string, rev: string) {
    exists url': string, rev': string :: |url'| > |url| && Key(url', rev') == Key(url, rev)
  }

  /** A key can be read as that of a repository with a longer address exactly when its rev is not clean. */
  lemma {:induction false} ReadOtherwiseIff(url: string, rev: string)
    ensures ReadOtherwise(url, rev) <==> !Clean(rev)
  {
    if ReadOtherwise(url, rev) {
      var url', rev' :| |url'| > |url| && Key(url', rev') == Key(url, rev);
      if Clean(rev) {
        NoLongerUrl(url, rev, url', rev');
      }
    }
    if !Clean(rev) {
      var i: nat :| Occurs(MARK, "-" + rev, i);
      LaterMark(url, rev, i);
    }
  }

  /** An occurrence of the mark inside a rev is where the other reading splits. */
  lemma LaterMark(url: string, rev: string, i: nat)
    requires Occurs(MARK, "-" + rev, i)
    ensures ReadOtherwise(url, rev)
  {
    var s := Body(url, rev);
    var k := |url| + 8 + i;
    assert s[|url| + 8..] == "-" + rev;
    assert s[k..k + 9] == ("-" + rev)[i..i + 9] == MARK;
    var url', rev' := s[..k], s[k + 9..];
    assert Body(url', rev') == s;
    assert |url'| > |url| && Key(url', rev') == Key(url, rev);
  }

  lemma DashedRevsCanCollide(url: string, branch: string, sha: string)
    ensures Key(url, branch + MARK + sha) == Key(url + MARK + branch, sha)
  {
    assert Body(url, branch + MARK + sha) == Body(url + MARK + branch, sha);
  }

  /** The address of a repository as the service accepts it, by what is between its ends. */
  function Address(path: string): string {
    "https://" + path + ".git"
  }

  /** Every accepted address shares a key with another accepted one, under suitable revs. */
  lemma {:induction false} AcceptedAddressesCollide(path: string, name: string, rev: string)
    ensures var other := path + ".git" + MARK + name;
            && Address(other) != Address(path)
            && Key(Address(path), name + ".git" + MARK + rev) == Key(Address(other), rev)
  {
    var other := path + ".git" + MARK + name;
    assert Address(other) == Address(path) + MARK + (name + ".git");
    DashedRevsCanCollide(Address(path), name + ".git", rev);
  }

  datatype GitType = GitHub | GitLab

  ghost function TypeOf(url: string): GitType {
    if Contains(url, "github.") then GitHub else GitLab
  }

  /** A GitLab key with a clean rev is never the key of a GitHub repository, whatever the rev there. */
  lemma {:induction false} TypesNeverCollide(url: string, sha: string, url': string, rev': string)
    requires TypeOf(url).GitLab? && Clean(sha) && TypeOf(url').GitHub?
    ensures Key(url, sha) != Key(url', rev')
  {
    if Key(url, sha) == Key(url', rev') {
      NoLongerUrl(url, sha, url', rev');
      var i: nat :| Occurs("github.", url', i);
      assert url[i..i + 7] == url'[i..i + 7];
      assert Occurs("github.", url, i);
    }
  }
}

/**
 The cache of topology definitions, shared by all repositories.  Commits never change; branches move.
 With commit-keyed entries the cache is transparent however calls interleave.
 */
module TopologyCache {
  import opened Common
  import opened CacheKeys

  datatype Mode = Aggressive | Fresh | FreshImport

  datatype Definition = Definition(source: string)

  /** What the git servers hold: where refs point (all revs that resolve), and the files of commits. */
  type Refs = map<(string, string), string>
  type Files = (string, string) -> Option<string>

  /** Parsing and transforming a definition file; `None` when it cannot be loaded. */
  type Loader = string -> Option<Definition>

  /** Validation of a loaded definition. */
  type Check = Definition -> bool

  /** One installation of the service, with the files on its servers. */
  datatype Site = Site(mode: Mode, files: Files, load: Loader, valid: Check)

  /** The definition of a commit, without any cache. */
  function Uncached(site: Site, url: string, sha: string): Option<Definition> {
    match site.files(url, sha)
    case None => None
    case Some(text) => site.load(text)
  }

  /** Whether revs of this repository are resolved to commits before they become cache keys. */
  ghost predicate ByCommit(site: Site, url: string) {
    TypeOf(url).GitLab? || site.mode.Fresh?
  }

  /** `get_rev_sha`: the commit, or the rev itself in the branch-keyed modes of GitHub. */
  ghost function RevSha(site: Site, refs: Refs, url: string, rev: string): Option<string> {
    if !ByCommit(site, url) then Some(rev)
    else if (url, rev) in refs then Some(refs[(url, rev)]) else None
  }

  /** The commit the server reads for `get_file(path, sha)`: a commit names itself. */
  ghost function FetchedCommit(site: Site, refs: Refs, url: string, sha: string): Option<string> {
    if ByCommit(site, url) then Some(sha)
    else if (url, sha) in refs then Some(refs[(url, sha)]) else None
  }

  /**
   What a rev is resolved to and which commit is then read: for GitLab and in FRESH mode the commit that the rev
   names, both times; in the other modes of GitHub the rev itself, and what it names at the time of reading.
   */
  lemma {:induction false} RevsByMode(site: Site, refs: Refs, url: string, rev: string)
    ensures Contains(url, "github.") && (site.mode.Aggressive? || site.mode.FreshImport?) ==>
              && RevSha(site, refs, url, rev) == Some(rev)
              && ((url, rev) in refs ==> FetchedCommit(site, refs, url, rev) == Some(refs[(url, rev)]))
              && ((url, rev) !in refs ==> FetchedCommit(site, refs, url, rev) == None)
    ensures !Contains(url, "github.") || site.mode.Fresh? ==>
              && ((url, rev) in refs ==> RevSha(site, refs, url, rev) == Some(refs[(url, rev)]))
              && ((url, rev) !in refs ==> RevSha(site, refs, url, rev) == None)
              && forall sha :: FetchedCommit(site, refs, url, sha) == Some(sha)
  {
  }

  /** A branch or a tag, as the server lists it. */
  datatype Ref = Ref(name: string, commit: string)

  /**
   `get_rev_sha` of a GitLab repository: the first ref of that name, branches before tags, and only
   without one the commit itself.  `commits` is what the commit lookup answers.
   */
  method GitlabRevSha(branches: seq<Ref>, tags: seq<Ref>, rev: string, commits: string -> Option<string>)
    returns (sha: Option<string>)
    ensures forall b | 0 <= b < |branches| ::
              branches[b].name == rev && (forall j | 0 <= j < b :: branches[j].name != rev) ==>
              sha == Some(branches[b].commit)
    ensures (forall j | 0 <= j < |branches| :: branches[j].name != rev) ==>
            forall t | 0 <= t < |tags| ::
              tags[t].name == rev && (forall j | 0 <= j < t :: tags[j].name != rev) ==>
              sha == Some(tags[t].commit)
    ensures (forall r <- branches + tags :: r.name != rev) ==> sha == commits(rev)
  {
    var refs := branches + tags;
    assert forall j | 0 <= j < |branches| :: refs[j] == branches[j];
    assert forall j | 0 <= j < |tags| :: refs[|branches| + j] == tags[j];
    for i := 0 to |refs|
      invariant forall j | 0 <= j < i :: refs[j].name != rev
    {
      if refs[i].name == rev {
        if i >= |branches| {
          assert refs[i] == tags[i - |branches|];
        }
        return Some(refs[i].commit);
      }
    }
    return commits(rev);
  }

  // ---- Interleaved calls ----

  datatype Call =
    | Resolved(url: string, sha: string, forced: bool)
    | Missed(url: string, sha: string)
    | Fetched(url: string, sha: string, def: Definition)
    | Returned(url: string, sha: string, def: Definition)
    | Failed

  datatype State = State(refs: Refs, cache: map<string, Definition>, calls: seq<Call>)

  datatype Event =
    | Push(url: string, rev: string, sha: string)
    | Drop(url: string, rev: string)
    | Begin(url: string, rev: string, forced: bool)
    | Lookup(call: nat)
    | Fetch(call: nat)
    | Store(call: nat)
    | Evict(key: string)

  function SetCall(s: State, i: nat, call: Call): State
    requires i < |s.calls|
  {
    s.(calls := s.calls[i := call])
  }

  /** One step of one call, or of the world around it. */
  ghost function Step(site: Site, s: State, e: Event): State {
    match e
    case Push(url, rev, sha) => s.(refs := s.refs[(url, rev) := sha])
    case Drop(url, rev) => s.(refs := s.refs - {(url, rev)})
    case Begin(url, rev, forced) =>
      (match RevSha(site, s.refs, url, rev)
       case None => s.(calls := s.calls + [Failed])
       case Some(sha) => s.(calls := s.calls + [Resolved(url, sha, forced)]))
    case Lookup(i) =>
      if i < |s.calls| && s.calls[i].Resolved? then
        var (url, sha) := (s.calls[i].url, s.calls[i].sha);
        if !s.calls[i].forced && Key(url, sha) in s.cache
        then SetCall(s, i, Returned(url, sha, s.cache[Key(url, sha)]))
        else SetCall(s, i, Missed(url, sha))
      else s
    case Fetch(i) =>
      if i < |s.calls| && s.calls[i].Missed? then
        var (url, sha) := (s.calls[i].url, s.calls[i].sha);
        match FetchedCommit(site, s.refs, url, sha)
        case None => SetCall(s, i, Failed)
        case Some(commit) =>
          var def := Uncached(site, url, commit);
          SetCall(s, i, if def.Some? && site.valid(def.value) then Fetched(url, sha, def.value) else Failed)
      else s
    case Store(i) =>
      if i < |s.calls| && s.calls[i].Fetched? then
        var (url, sha, def) := (s.calls[i].url, s.calls[i].sha, s.calls[i].def);
        SetCall(s, i, Returned(url, sha, def)).(cache := s.cache[Key(url, sha) := def])
      else s
    case Evict(key) => s.(cache := s.cache - {key})
  }

  ghost function Run(site: Site, events: seq<Event>): State {
    if events == [] then State(map[], map[], [])
    else Step(site, Run(site, events[..|events| - 1]), events[|events| - 1])
  }

  /** Commit ids are hexadecimal; what matters is that they have no dash. */
  predicate CommitIds(events: seq<Event>) {
    forall e <- events :: e.Push? ==> '-' !in e.sha
  }

  // ---- Transparency ----

  /** A call that has a definition in hand has the definition of its commit. */
  ghost predicate CallOk(site: Site, call: Call) {
    match call
    case Resolved(url, sha, _) => ByCommit(site, url) ==> '-' !in sha
    case Missed(url, sha) => ByCommit(site, url) ==> '-' !in sha
    case Fetched(url, sha, def) => ByCommit(site, url) ==> '-' !in sha && Uncached(site, url, sha) == Some(def)
    case Returned(url, sha, def) => ByCommit(site, url) ==> Uncached(site, url, sha) == Some(def)
    case Failed => true
  }

  /** Every entry under the key of a commit is the definition of that commit. */
  ghost predicate EntryOk(site: Site, cache: map<string, Definition>, url: string, sha: string) {
    ByCommit(site, url) && '-' !in sha && Key(url, sha) in cache ==>
      Uncached(site, url, sha) == Some(cache[Key(url, sha)])
  }

  ghost predicate Inv(site: Site, s: State) {
    && (forall r <- s.refs :: '-' !in s.refs[r])
    && (forall i | 0 <= i < |s.calls| :: CallOk(site, s.calls[i]))
    && (forall url, sha :: EntryOk(site, s.cache, url, sha))
  }

  lemma StoreKeepsEntries(site: Site, s: State, i: nat, url: string, sha: string)
    requires Inv(site, s) && i < |s.calls| && s.calls[i].Fetched?
    ensures EntryOk(site, Step(site, s, Store(i)).cache, url, sha)
  {
    var call := s.calls[i];
    assert CallOk(site, call);
    assert EntryOk(site, s.cache, url, sha);
    if ByCommit(site, url) && '-' !in sha && Key(url, sha) == Key(call.url, call.sha) {
      NoDashIsClean(sha);
      if ByCommit(site, call.url) {
        NoDashIsClean(call.sha);
        KeyIsInjective(url, sha, call.url, call.sha);
      } else {
        TypesNeverCollide(url, sha, call.url, call.sha);
      }
    }
  }

  lemma EntryStaysOk(site: Site, s: State, e: Event, url: string, sha: string)
    requires Inv(site, s)
    ensures EntryOk(site, Step(site, s, e).cache, url, sha)
  {
    assert EntryOk(site, s.cache, url, sha);
    if e.Store? && e.call < |s.calls| && s.calls[e.call].Fetched? {
      StoreKeepsEntries(site, s, e.call, url, sha);
    }
    hide EntryOk;
  }

  lemma CallStaysOk(site: Site, s: State, e: Event, i: nat)
    requires Inv(site, s) && i < |s.calls|
    ensures CallOk(site, Step(site, s, e).calls[i])
  {
    assert CallOk(site, s.calls[i]);
    if e.Lookup? && e.call == i && s.calls[i].Resolved? {
      assert EntryOk(site, s.cache, s.calls[i].url, s.calls[i].sha);
    }
  }

  lemma StepInv(site: Site, s: State, e: Event)
    requires Inv(site, s) && (e.Push? ==> '-' !in e.sha)
    ensures Inv(site, Step(site, s, e))
  {
    var s' := Step(site, s, e);
    forall url, sha
      ensures EntryOk(site, s'.cache, url, sha)
    {
      EntryStaysOk(site, s, e, url, sha);
    }
    hide EntryOk;
    forall i | 0 <= i < |s'.calls|
      ensures CallOk(site, s'.calls[i])
    {
      if i < |s.calls| {
        assert CallOk(site, s.calls[i]);
        CallStaysOk(site, s, e, i);
      }
    }
  }

  lemma {:induction false} RunInv(site: Site, events: seq<Event>)
    requires CommitIds(events)
    ensures Inv(site, Run(site, events))
  {
    if events != [] {
      RunInv(site, events[..|events| - 1]);
      StepInv(site, Run(site, events[..|events| - 1]), events[|events| - 1]);
    }
  }

  function UrlAndSha(call: Call): Option<(string, string)> {
    if call.Failed? then None else Some((call.url, call.sha))
  }

  lemma {:induction false} CallsKeepTheirCommit(site: Site, s: State, e: Event, i: nat)
    requires i < |s.calls|
    ensures var s' := Step(site, s, e);
            i < |s'.calls| && (s'.calls[i].Failed? || UrlAndSha(s'.calls[i]) == UrlAndSha(s.calls[i]))
  {
  }

  ghost function RunFrom(site: Site, s: State, events: seq<Event>): State {
    if events == [] then s
    else Step(site, RunFrom(site, s, events[..|events| - 1]), events[|events| - 1])
  }

  lemma {:induction false} RunSplits(site: Site, before: seq<Event>, after: seq<Event>)
    ensures Run(site, before + after) == RunFrom(site, Run(site, before), after)
  {
    if after == [] {
      assert before + after == before;
    } else {
      var n := |after| - 1;
      RunSplits(site, before, after[..n]);
      assert (before + after)[..|before + after| - 1] == before + after[..n];
    }
  }

  lemma {:induction false} CallsOnlyMoveOn(site: Site, s: State, events: seq<Event>, i: nat)
    requires i < |s.calls|
    ensures var s' := RunFrom(site, s, events);
            i < |s'.calls| && (s'.calls[i].Failed? || UrlAndSha(s'.calls[i]) == UrlAndSha(s.calls[i]))
  {
    if events != [] {
      var n := |events| - 1;
      CallsOnlyMoveOn(site, s, events[..n], i);
      CallsKeepTheirCommit(site, RunFrom(site, s, events[..n]), events[n], i);
    }
  }

  /**
   Over every interleaving of pushes, dropped branches, gets, forced refreshes and evictions: what a call returns, for
   a repository keyed by commits, is the definition of the commit its rev named when the call
   resolved it, as an uncached fetch of that commit gives it.
   */
  lemma {:induction false} CacheTransparency(site: Site, before: seq<Event>, url: string, rev: string, forced: bool,
                                             after: seq<Event>)
    requires CommitIds(before) && CommitIds(after) && ByCommit(site, url)
    ensures var events := before + [Begin(url, rev, forced)] + after;
            var (was, end) := (Run(site, before), Run(site, events));
            |was.calls| < |end.calls|
            && (end.calls[|was.calls|].Returned? ==>
                  (url, rev) in was.refs
                  && Uncached(site, url, was.refs[(url, rev)]) == Some(end.calls[|was.calls|].def))
  {
    var begin := [Begin(url, rev, forced)];
    var s := Run(site, before);
    var s1 := Run(site, before + begin);
    assert (before + begin)[..|before|] == before;
    RunSplits(site, before + begin, after);
    CallsOnlyMoveOn(site, s1, after, |s.calls|);
    RunInv(site, before + begin + after);
    var end := Run(site, before + begin + after);
    assert CallOk(site, end.calls[|s.calls|]);
    if s1.calls[|s.calls|].Failed? {
      FailedStaysFailed(site, s1, after, |s.calls|);
    }
  }

  lemma {:induction false} FailedStaysFailed(site: Site, s: State, events: seq<Event>, i: nat)
    requires i < |s.calls| && s.calls[i].Failed?
    ensures i < |RunFrom(site, s, events).calls| && RunFrom(site, s, events).calls[i].Failed?
  {
    if events != [] {
      FailedStaysFailed(site, s, events[..|events| - 1], i);
    }
  }

  // ---- What is in the cache is valid ----

  ghost predicate CheckedCall(site: Site, call: Call) {
    (call.Fetched? || call.Returned?) ==> site.valid(call.def)
  }

  ghost predicate Checked(site: Site, s: State) {
    && (forall key <- s.cache :: site.valid(s.cache[key]))
    && (forall i | 0 <= i < |s.calls| :: CheckedCall(site, s.calls[i]))
  }

  lemma StepChecked(site: Site, s: State, e: Event)
    requires Checked(site, s)
    ensures Checked(site, Step(site, s, e))
  {
    var s' := Step(site, s, e);
    forall i | 0 <= i < |s'.calls|
      ensures CheckedCall(site, s'.calls[i])
    {
      if i < |s.calls| {
        assert CheckedCall(site, s.calls[i]);
      }
    }
    if e.Store? && e.call < |s.calls| {
      assert CheckedCall(site, s.calls[e.call]);
    }
  }

  /** Over every interleaving, in every mode: what is cached, and what is returned, passed validation. */
  lemma {:induction false} CacheIsChecked(site: Site, events: seq<Event>)
    ensures Checked(site, Run(site, events))
  {
    if events != [] {
      CacheIsChecked(site, events[..|events| - 1]);
      StepChecked(site, Run(site, events[..|events| - 1]), events[|events| - 1]);
    }
  }

  // ---- The call as a whole ----

  /** `get_definition` when nothing else happens meanwhile; `None` is an error. */
  ghost function DefinitionFor(site: Site, refs: Refs, cache: map<string, Definition>,
                               url: string, rev: string, forced: bool)
    : (map<string, Definition>, Option<Definition>)
  {
    match RevSha(site, refs, url, rev)
    case None => (cache, None)
    case Some(sha) =>
      if !forced && Key(url, sha) in cache then (cache, Some(cache[Key(url, sha)]))
      else
        var commit := FetchedCommit(site, refs, url, sha);
        var def := if commit.Some? then Uncached(site, url, commit.value) else None;
        if def.Some? && site.valid(def.value) then (cache[Key(url, sha) := def.value], def) else (cache, None)
  }

  /** A whole call is the four steps of one call, with nothing in between. */
  lemma {:induction false} DefinitionForIsTheCall(site: Site, refs: Refs, cache: map<string, Definition>, url: string,
                                                  rev: string, forced: bool)
    ensures var s := State(refs, cache, []);
            var s2 := Step(site, Step(site, s, Begin(url, rev, forced)), Lookup(0));
            var s4 := Step(site, Step(site, s2, Fetch(0)), Store(0));
            && |s4.calls| == 1 && (s4.calls[0].Returned? || s4.calls[0].Failed?) && s4.refs == refs
            && DefinitionFor(site, refs, cache, url, rev, forced)
               == (s4.cache, if s4.calls[0].Returned? then Some(s4.calls[0].def) else None)
  {
  }

  /**
   A forced call never answers from the cache; its answer is the definition of the commit it reads, and is what
   is stored.  An error leaves the cache alone, a hit too, and whatever was fetched is valid.
   */
  lemma {:induction false} AnswersAreStored(site: Site, refs: Refs, cache: map<string, Definition>, url: string,
                                            rev: string, forced: bool)
    ensures var (cache', def) := DefinitionFor(site, refs, cache, url, rev, forced);
            var sha := RevSha(site, refs, url, rev);
            && (def.None? ==> cache' == cache)
            && (sha.None? ==> def.None?)
            && (sha.Some? ==>
                  var key := Key(url, sha.value); var commit := FetchedCommit(site, refs, url, sha.value);
                  && (!forced && key in cache ==> def == Some(cache[key]) && cache' == cache)
                  && (forced || key !in cache ==>
                        && (def.Some? <==> commit.Some? && Uncached(site, url, commit.value).Some?
                                           && site.valid(Uncached(site, url, commit.value).value))
                        && (def.Some? ==> def == Uncached(site, url, commit.value)
                                          && cache' == cache[key := def.value])))
  {
  }

  class DefinitionCache {
    var entries: map<string, Definition>

    constructor ()
      ensures entries == map[]
    {
      entries := map[];
    }

    /**
     `get_definition`.  `resolved` is what the provider's `get_rev_sha` answers, `file` what its
     `get_file` answers.
     */
    method GetDefinition(url: string, resolved: Option<string>, file: Option<string>, load: Loader, valid: Check,
                         forced: bool)
      returns (def: Option<Definition>)
      modifies this
      ensures forall site: Site, refs, rev ::
                site.load == load && site.valid == valid && resolved == RevSha(site, refs, url, rev)
                && (resolved.Some? ==>
                      file == (var commit := FetchedCommit(site, refs, url, resolved.value);
                               if commit.Some? then site.files(url, commit.value) else None)) ==>
                (entries, def) == DefinitionFor(site, refs, old(entries), url, rev, forced)
      ensures resolved.None? ==> def.None?
      ensures resolved.Some? && !forced && Key(url, resolved.value) in old(entries) ==>
                def == Some(old(entries)[Key(url, resolved.value)]) && entries == old(entries)
      ensures resolved.Some? && (forced || Key(url, resolved.value) !in old(entries)) && def.Some? ==>
                && file.Some? && def == load(file.value) && valid(def.value)
                && entries == old(entries)[Key(url, resolved.value) := def.value]
      ensures def.None? ==> entries == old(entries)
    {
      if resolved.None? {
        return None;
      }
      var key := Key(url, resolved.value);
      if !forced {
        if key in entries {
          return Some(entries[key]);
        }
      }
      if file.None? {
        return None;
      }
      def := load(file.value);
      if def.None? || !valid(def.value) {
        return None;
      }
      entries := entries[key := def.value];
    }
  }
}

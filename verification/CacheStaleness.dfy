/**
 How stale a branch-keyed entry of the topology cache can be, over every interleaving of calls for all
 repositories, and exactly when a forced refresh bounds it.
 */
module CacheStaleness {
  import opened Common
  import opened CacheKeys
  import opened TopologyCache

  // ---- What a branch held ----

  lemma RunSnoc(site: Site, events: seq<Event>, e: Event)
    ensures Run(site, events + [e]) == Step(site, Run(site, events), e)
  {
    assert (events + [e])[..|events|] == events;
  }

  /** What the rev of that repository led to after the first `m` events of a run. */
  ghost predicate HeldAt(site: Site, events: seq<Event>, url: string, rev: string, def: Definition, m: nat) {
    && m <= |events|
    && var refs := Run(site, events[..m]).refs;
       (url, rev) in refs && Uncached(site, url, refs[(url, rev)]) == Some(def)
  }

  /** It did so at some moment from `since` on. */
  ghost predicate HeldSince(site: Site, events: seq<Event>, url: string, rev: string, def: Definition, since: nat) {
    exists m: nat :: since <= m && HeldAt(site, events, url, rev, def, m)
  }

  lemma HeldLonger(site: Site, events: seq<Event>, more: seq<Event>, url: string, rev: string, def: Definition,
                   since: nat)
    requires HeldSince(site, events, url, rev, def, since)
    ensures HeldSince(site, events + more, url, rev, def, since)
  {
    var m: nat :| since <= m && HeldAt(site, events, url, rev, def, m);
    assert (events + more)[..m] == events[..m];
    assert HeldAt(site, events + more, url, rev, def, m);
  }

  predicate Quiet(e: Event) {
    !e.Push? && !e.Drop?
  }

  lemma {:induction false} RefsStay(site: Site, events: seq<Event>, more: seq<Event>)
    requires forall e <- more :: Quiet(e)
    ensures Run(site, events + more).refs == Run(site, events).refs
  {
    if more == [] {
      assert events + more == events;
    } else {
      var n := |more| - 1;
      RefsStay(site, events, more[..n]);
      RunSnoc(site, events + more[..n], more[n]);
      assert events + more == events + more[..n] + [more[n]];
      assert Quiet(more[n]);
    }
  }

  /** While no branch moves, nothing new is held. */
  lemma HeldInQuiet(site: Site, events: seq<Event>, more: seq<Event>, url: string, rev: string, def: Definition,
                    since: nat)
    requires since <= |events| && forall e <- more :: Quiet(e)
    requires HeldSince(site, events + more, url, rev, def, since)
    ensures HeldSince(site, events, url, rev, def, since)
  {
    var all := events + more;
    var m: nat :| since <= m && HeldAt(site, all, url, rev, def, m);
    if m <= |events| {
      assert all[..m] == events[..m];
      assert HeldAt(site, events, url, rev, def, m);
    } else {
      assert all[..m] == events + more[..m - |events|];
      RefsStay(site, events, more[..m - |events|]);
      assert events[..|events|] == events;
      assert HeldAt(site, events, url, rev, def, |events|);
    }
  }

  // ---- Whose key it is ----

  /**
   Commit ids have no dash, and no other branch-keyed call of the run has the key of this repository and rev.
   Nothing is asked of calls for repositories that are keyed by commits.
   */
  ghost predicate OwnKey(site: Site, events: seq<Event>, url: string, rev: string) {
    && CommitIds(events)
    && forall e <- events :: e.Begin? && !ByCommit(site, e.url) && Key(e.url, e.rev) == Key(url, rev) ==>
         e.url == url && e.rev == rev
  }

  /** With clean revs every repository owns its keys. */
  lemma {:induction false} CleanRevsOwnTheirKeys(site: Site, events: seq<Event>, url: string, rev: string)
    requires CommitIds(events) && Clean(rev)
    requires forall e <- events :: e.Begin? && !ByCommit(site, e.url) ==> Clean(e.rev)
    ensures OwnKey(site, events, url, rev)
  {
    forall e <- events | e.Begin? && !ByCommit(site, e.url) && Key(e.url, e.rev) == Key(url, rev)
      ensures e.url == url && e.rev == rev
    {
      KeyIsInjective(e.url, e.rev, url, rev);
    }
  }

  ghost predicate Owned(call: Call, url: string, rev: string) {
    !call.Failed? && Key(call.url, call.sha) == Key(url, rev) ==> call.url == url && call.sha == rev
  }

  lemma OwnKeyBefore(site: Site, events: seq<Event>, url: string, rev: string)
    requires events != [] && OwnKey(site, events, url, rev)
    ensures OwnKey(site, events[..|events| - 1], url, rev)
  {
  }

  /** A call that begins has another key, or is for this repository and rev. */
  lemma BegunIsOwned(site: Site, events: seq<Event>, url: string, rev: string)
    requires !ByCommit(site, url) && OwnKey(site, events, url, rev) && events != [] && events[|events| - 1].Begin?
    ensures var e := events[|events| - 1]; var refs := Run(site, events[..|events| - 1]).refs;
            var sha := RevSha(site, refs, e.url, e.rev);
            sha.Some? && Key(e.url, sha.value) == Key(url, rev) ==> e.url == url && sha.value == rev
  {
    var e := events[|events| - 1];
    var s := Run(site, events[..|events| - 1]);
    assert e in events;
    RunInv(site, events[..|events| - 1]);
    if ByCommit(site, e.url) && (e.url, e.rev) in s.refs {
      NoDashIsClean(s.refs[(e.url, e.rev)]);
      TypesNeverCollide(e.url, s.refs[(e.url, e.rev)], url, rev);
    }
  }

  lemma {:induction false} CallsAreOwned(site: Site, events: seq<Event>, url: string, rev: string)
    requires !ByCommit(site, url) && OwnKey(site, events, url, rev)
    ensures forall i | 0 <= i < |Run(site, events).calls| :: Owned(Run(site, events).calls[i], url, rev)
  {
    if events != [] {
      var n := |events| - 1;
      var s, s' := Run(site, events[..n]), Run(site, events);
      OwnKeyBefore(site, events, url, rev);
      CallsAreOwned(site, events[..n], url, rev);
      if events[n].Begin? {
        BegunIsOwned(site, events, url, rev);
      }
      forall i | 0 <= i < |s'.calls|
        ensures Owned(s'.calls[i], url, rev)
      {
        if i < |s.calls| {
          assert Owned(s.calls[i], url, rev);
          CallsKeepTheirCommit(site, s, events[n], i);
        }
      }
    }
  }

  // ---- Sources that are fresh keep everything fresh ----

  predicate IsFor(call: Call, url: string, rev: string) {
    !call.Failed? && call.url == url && call.sha == rev
  }

  /** The cached entry was held since `since`. */
  ghost predicate EntryFresh(site: Site, events: seq<Event>, url: string, rev: string, since: nat) {
    var cache := Run(site, events).cache;
    Key(url, rev) in cache ==> HeldSince(site, events, url, rev, cache[Key(url, rev)], since)
  }

  /** So was what the calls have in hand that are still to store it. */
  ghost predicate InHandFresh(site: Site, events: seq<Event>, url: string, rev: string, since: nat) {
    var calls := Run(site, events).calls;
    forall i | 0 <= i < |calls| && IsFor(calls[i], url, rev) && calls[i].Fetched? ::
      HeldSince(site, events, url, rev, calls[i].def, since)
  }

  /** So was what the calls from number `n` on have returned. */
  ghost predicate AnswersFresh(site: Site, events: seq<Event>, url: string, rev: string, since: nat, n: nat) {
    var calls := Run(site, events).calls;
    forall i | n <= i < |calls| && IsFor(calls[i], url, rev) && calls[i].Returned? ::
      HeldSince(site, events, url, rev, calls[i].def, since)
  }

  ghost predicate AllFresh(site: Site, events: seq<Event>, url: string, rev: string, since: nat, n: nat) {
    && EntryFresh(site, events, url, rev, since)
    && InHandFresh(site, events, url, rev, since)
    && AnswersFresh(site, events, url, rev, since, n)
  }

  lemma FetchedIsHeld(site: Site, events: seq<Event>, i: nat, url: string, rev: string)
    requires !ByCommit(site, url) && i < |Run(site, events).calls|
    requires IsFor(Run(site, events).calls[i], url, rev) && Run(site, events).calls[i].Missed?
    ensures var call := Step(site, Run(site, events), Fetch(i)).calls[i];
            call.Fetched? ==> HeldAt(site, events + [Fetch(i)], url, rev, call.def, |events|)
  {
    assert (events + [Fetch(i)])[..|events|] == events;
  }

  /** What the call has after one more event, and where it comes from. */
  lemma FreshCall(site: Site, events: seq<Event>, e: Event, url: string, rev: string, since: nat, n: nat, i: nat)
    requires !ByCommit(site, url) && since <= |events| && AllFresh(site, events, url, rev, since, n)
    requires i < |Step(site, Run(site, events), e).calls|
    ensures var call := Step(site, Run(site, events), e).calls[i];
            IsFor(call, url, rev) && (call.Fetched? || (call.Returned? && n <= i)) ==>
              HeldSince(site, events + [e], url, rev, call.def, since)
  {
    var s := Run(site, events);
    var call := Step(site, s, e).calls[i];
    if IsFor(call, url, rev) && i < |s.calls| {
      if call == s.calls[i] {
        if call.Fetched? || (call.Returned? && n <= i) {
          HeldLonger(site, events, [e], url, rev, call.def, since);
        }
      } else if e == Fetch(i) {
        FetchedIsHeld(site, events, i, url, rev);
      } else if e == Lookup(i) {
        if call.Returned? {
          HeldLonger(site, events, [e], url, rev, call.def, since);
        }
      } else if e == Store(i) {
        HeldLonger(site, events, [e], url, rev, call.def, since);
      }
    }
  }

  lemma FreshEntry(site: Site, events: seq<Event>, e: Event, url: string, rev: string, since: nat, n: nat)
    requires AllFresh(site, events, url, rev, since, n)
    requires forall i | 0 <= i < |Run(site, events).calls| :: Owned(Run(site, events).calls[i], url, rev)
    ensures var cache := Step(site, Run(site, events), e).cache;
            Key(url, rev) in cache ==> HeldSince(site, events + [e], url, rev, cache[Key(url, rev)], since)
  {
    var s := Run(site, events);
    var cache := Step(site, s, e).cache;
    if Key(url, rev) in cache {
      if Key(url, rev) in s.cache && cache[Key(url, rev)] == s.cache[Key(url, rev)] {
        HeldLonger(site, events, [e], url, rev, cache[Key(url, rev)], since);
      } else {
        assert Owned(s.calls[e.call], url, rev);
        HeldLonger(site, events, [e], url, rev, s.calls[e.call].def, since);
      }
    }
  }

  lemma FreshStep(site: Site, events: seq<Event>, e: Event, url: string, rev: string, since: nat, n: nat)
    requires !ByCommit(site, url) && OwnKey(site, events, url, rev)
    requires since <= |events| && AllFresh(site, events, url, rev, since, n)
    ensures AllFresh(site, events + [e], url, rev, since, n)
  {
    var more := events + [e];
    assert more[..|more| - 1] == events;
    CallsAreOwned(site, events, url, rev);
    FreshEntry(site, events, e, url, rev, since, n);
    forall i: nat | i < |Run(site, more).calls| {
      FreshCall(site, events, e, url, rev, since, n, i);
    }
  }

  lemma {:induction false} FreshRun(site: Site, events: seq<Event>, after: seq<Event>, url: string, rev: string,
                                    since: nat, n: nat)
    requires !ByCommit(site, url) && OwnKey(site, events + after, url, rev)
    requires since <= |events| && AllFresh(site, events, url, rev, since, n)
    ensures AllFresh(site, events + after, url, rev, since, n)
  {
    if after == [] {
      assert events + after == events;
    } else {
      var k := |after| - 1;
      assert (events + after)[..|events + after| - 1] == events + after[..k];
      assert events + after == events + after[..k] + [after[k]];
      OwnKeyBefore(site, events + after, url, rev);
      FreshRun(site, events, after[..k], url, rev, since, n);
      FreshStep(site, events + after[..k], after[k], url, rev, since, n);
    }
  }

  /** Whatever happens, an answer is something that the branch held at some moment. */
  lemma {:induction false} EveryAnswerWasHeld(site: Site, events: seq<Event>, url: string, rev: string, i: nat)
    requires !ByCommit(site, url) && OwnKey(site, events, url, rev)
    ensures var calls := Run(site, events).calls;
            i < |calls| && IsFor(calls[i], url, rev) && calls[i].Returned? ==>
              HeldSince(site, events, url, rev, calls[i].def, 0)
  {
    assert AllFresh(site, [], url, rev, 0, 0);
    assert [] + events == events;
    FreshRun(site, [], events, url, rev, 0, 0);
  }

  // ---- Exactly when the bound holds for good ----

  /** Whatever happens later, calls that have not begun yet return what the branch held since `since`. */
  ghost predicate StaysFresh(site: Site, events: seq<Event>, url: string, rev: string, since: nat) {
    forall after: seq<Event> :: OwnKey(site, events + after, url, rev) ==>
      AnswersFresh(site, events + after, url, rev, since, |Run(site, events).calls|)
  }

  lemma RunTwo(site: Site, events: seq<Event>, e1: Event, e2: Event)
    ensures Run(site, events + [e1, e2]) == Step(site, Step(site, Run(site, events), e1), e2)
  {
    hide Step;
    RunSnoc(site, events, e1);
    RunSnoc(site, events + [e1], e2);
    assert events + [e1] + [e2] == events + [e1, e2];
  }

  function Reading(url: string, rev: string, n: nat): seq<Event> {
    [Begin(url, rev, false), Lookup(n)]
  }

  /** The next reader is given the entry. */
  lemma ReaderGetsEntry(site: Site, events: seq<Event>, url: string, rev: string)
    requires !ByCommit(site, url) && Key(url, rev) in Run(site, events).cache
    ensures var s := Run(site, events); var n := |s.calls|;
            var calls := Run(site, events + Reading(url, rev, n)).calls;
            |calls| == n + 1 && calls[n] == Returned(url, rev, s.cache[Key(url, rev)])
  {
    var n := |Run(site, events).calls|;
    RunTwo(site, events, Begin(url, rev, false), Lookup(n));
  }

  lemma StaleEntryIsRead(site: Site, events: seq<Event>, url: string, rev: string, since: nat)
    requires !ByCommit(site, url) && OwnKey(site, events, url, rev) && since <= |events|
    requires !EntryFresh(site, events, url, rev, since)
    ensures !StaysFresh(site, events, url, rev, since)
  {
    var s := Run(site, events);
    var n := |s.calls|;
    var after := Reading(url, rev, n);
    ReaderGetsEntry(site, events, url, rev);
    assert OwnKey(site, events + after, url, rev);
    if HeldSince(site, events + after, url, rev, s.cache[Key(url, rev)], since) {
      HeldInQuiet(site, events, after, url, rev, s.cache[Key(url, rev)], since);
    }
  }

  /** A call with stale content in hand puts it into the cache, where the next reader finds it. */
  lemma StaleContentIsStored(site: Site, events: seq<Event>, url: string, rev: string, since: nat, i: nat)
    requires !ByCommit(site, url) && OwnKey(site, events, url, rev) && since <= |events|
    requires var calls := Run(site, events).calls;
             && i < |calls| && IsFor(calls[i], url, rev) && calls[i].Fetched?
             && !HeldSince(site, events, url, rev, calls[i].def, since)
    ensures !StaysFresh(site, events, url, rev, since)
  {
    hide HeldSince, Key;
    var def := Run(site, events).calls[i].def;
    var stored := events + [Store(i)];
    RunSnoc(site, events, Store(i));
    var n := |Run(site, stored).calls|;
    ReaderGetsEntry(site, stored, url, rev);
    var after := [Store(i)] + Reading(url, rev, n);
    assert events + after == stored + Reading(url, rev, n);
    assert OwnKey(site, events + after, url, rev);
    if HeldSince(site, events + after, url, rev, def, since) {
      HeldInQuiet(site, events, after, url, rev, def, since);
    }
  }

  /**
   At every moment of every run: later calls return only what the branch held since then, for good, exactly
   when that is true of the cached entry and of everything that calls have in hand and will still store.
   */
  lemma {:induction false} StaysFreshIff(site: Site, events: seq<Event>, url: string, rev: string, since: nat)
    requires !ByCommit(site, url) && OwnKey(site, events, url, rev) && since <= |events|
    ensures StaysFresh(site, events, url, rev, since)
            <==> EntryFresh(site, events, url, rev, since) && InHandFresh(site, events, url, rev, since)
  {
    if !EntryFresh(site, events, url, rev, since) {
      StaleEntryIsRead(site, events, url, rev, since);
    } else if !InHandFresh(site, events, url, rev, since) {
      var i: nat :| && i < |Run(site, events).calls| && IsFor(Run(site, events).calls[i], url, rev)
                    && Run(site, events).calls[i].Fetched?
                    && !HeldSince(site, events, url, rev, Run(site, events).calls[i].def, since);
      StaleContentIsStored(site, events, url, rev, since, i);
    } else {
      var n := |Run(site, events).calls|;
      forall after: seq<Event> | OwnKey(site, events + after, url, rev)
        ensures AnswersFresh(site, events + after, url, rev, since, n)
      {
        FreshRun(site, events, after, url, rev, since, n);
      }
    }
  }

  // ---- What a forced refresh is worth ----

  /** A forced call never takes what is cached. */
  ghost predicate New(site: Site, events: seq<Event>, url: string, rev: string, call: Call, since: nat) {
    match call
    case Resolved(u, sha, forced) => u == url && sha == rev && forced
    case Missed(u, sha) => u == url && sha == rev
    case Fetched(u, sha, def) => u == url && sha == rev && HeldSince(site, events, url, rev, def, since)
    case Returned(u, sha, def) => u == url && sha == rev && HeldSince(site, events, url, rev, def, since)
    case Failed => true
  }

  lemma StaysNew(site: Site, events: seq<Event>, e: Event, url: string, rev: string, i: nat, since: nat)
    requires !ByCommit(site, url) && since <= |events| && i < |Run(site, events).calls|
    requires New(site, events, url, rev, Run(site, events).calls[i], since)
    ensures i < |Run(site, events + [e]).calls|
    ensures New(site, events + [e], url, rev, Run(site, events + [e]).calls[i], since)
  {
    RunSnoc(site, events, e);
    var call, call' := Run(site, events).calls[i], Run(site, events + [e]).calls[i];
    if call.Fetched? || call.Returned? {
      HeldLonger(site, events, [e], url, rev, call.def, since);
    }
    if call.Missed? && e == Fetch(i) {
      FetchedIsHeld(site, events, i, url, rev);
    }
  }

  /** What a forced call returns was held after it began. */
  lemma {:induction false} ForcedIsNew(site: Site, before: seq<Event>, url: string, rev: string, during: seq<Event>)
    requires !ByCommit(site, url)
    ensures var events := before + [Begin(url, rev, true)] + during; var n := |Run(site, before).calls|;
            && n < |Run(site, events).calls|
            && New(site, events, url, rev, Run(site, events).calls[n], |before|)
  {
    var begun := before + [Begin(url, rev, true)];
    if during == [] {
      RunSnoc(site, before, Begin(url, rev, true));
      assert begun + during == begun;
    } else {
      var k := |during| - 1;
      ForcedIsNew(site, before, url, rev, during[..k]);
      StaysNew(site, begun + during[..k], during[k], url, rev, |Run(site, before).calls|, |before|);
      assert begun + during == begun + during[..k] + [during[k]];
    }
  }

  /** The run of a forced refresh up to the moment it stores what it fetched. */
  function Refresh(before: seq<Event>, url: string, rev: string, during: seq<Event>, n: nat): seq<Event> {
    before + [Begin(url, rev, true)] + during + [Store(n)]
  }

  lemma RefreshedEntry(site: Site, before: seq<Event>, url: string, rev: string, during: seq<Event>)
    requires !ByCommit(site, url)
    requires var n := |Run(site, before).calls|; var s := Run(site, before + [Begin(url, rev, true)] + during);
             n < |s.calls| && s.calls[n].Fetched?
    ensures EntryFresh(site, Refresh(before, url, rev, during, |Run(site, before).calls|), url, rev, |before|)
  {
    var n := |Run(site, before).calls|;
    var events := before + [Begin(url, rev, true)] + during;
    ForcedIsNew(site, before, url, rev, during);
    RunSnoc(site, events, Store(n));
    HeldLonger(site, events, [Store(n)], url, rev, Run(site, events).calls[n].def, |before|);
  }

  /**
   When a forced refresh returns, later calls return only what the branch held since it began, for good,
   exactly when nothing older is in the hand of another call for that repository and rev.
   */
  lemma {:induction false} RefreshBoundsIff(site: Site, before: seq<Event>, url: string, rev: string,
                                            during: seq<Event>)
    requires !ByCommit(site, url)
    requires var n := |Run(site, before).calls|; var s := Run(site, before + [Begin(url, rev, true)] + during);
             n < |s.calls| && s.calls[n].Fetched?
    requires OwnKey(site, Refresh(before, url, rev, during, |Run(site, before).calls|), url, rev)
    ensures var events := Refresh(before, url, rev, during, |Run(site, before).calls|);
            StaysFresh(site, events, url, rev, |before|) <==> InHandFresh(site, events, url, rev, |before|)
  {
    RefreshedEntry(site, before, url, rev, during);
    StaysFreshIff(site, Refresh(before, url, rev, during, |Run(site, before).calls|), url, rev, |before|);
  }

  /** No call has something in hand for that repository and rev. */
  ghost predicate NoneInHand(site: Site, events: seq<Event>, url: string, rev: string) {
    var calls := Run(site, events).calls;
    forall i | 0 <= i < |calls| :: IsFor(calls[i], url, rev) ==> !calls[i].Fetched?
  }

  /**
   In runs that mix calls for all kinds of repositories: when no other call for this one has something in hand
   as a forced refresh returns, every answer to a later call is what the branch held at some moment between
   the begin of that refresh and the answer.
   */
  lemma {:induction false} StalenessBound(site: Site, before: seq<Event>, url: string, rev: string,
                                          during: seq<Event>, after: seq<Event>)
    requires !ByCommit(site, url)
    requires var n := |Run(site, before).calls|; var s := Run(site, before + [Begin(url, rev, true)] + during);
             n < |s.calls| && s.calls[n].Fetched?
    requires var events := Refresh(before, url, rev, during, |Run(site, before).calls|);
             NoneInHand(site, events, url, rev) && OwnKey(site, events + after, url, rev)
    ensures var events := Refresh(before, url, rev, during, |Run(site, before).calls|);
            AnswersFresh(site, events + after, url, rev, |before|, |Run(site, events).calls|)
  {
    var events := Refresh(before, url, rev, during, |Run(site, before).calls|);
    assert OwnKey(site, events, url, rev);
    RefreshBoundsIff(site, before, url, rev, during);
  }

  // ---- Calls that nothing interrupts ----

  /** One call from its begin to its end, or one event of the world around the calls. */
  datatype Deed = Whole(url: string, rev: string, forced: bool) | Around(event: Event)

  predicate Apart(deeds: seq<Deed>) {
    forall d <- deeds :: d.Around? ==> d.event.Push? || d.event.Drop? || d.event.Evict?
  }

  function WholeCall(url: string, rev: string, forced: bool, n: nat): seq<Event> {
    [Begin(url, rev, forced)] + [Lookup(n), Fetch(n)] + [Store(n)]
  }

  ghost function EventsOf(site: Site, deeds: seq<Deed>): seq<Event> {
    if deeds == [] then []
    else
      var before := EventsOf(site, deeds[..|deeds| - 1]);
      before + match deeds[|deeds| - 1]
               case Whole(url, rev, forced) => WholeCall(url, rev, forced, |Run(site, before).calls|)
               case Around(event) => [event]
  }

  predicate AllOver(s: State) {
    forall c <- s.calls :: c.Returned? || c.Failed?
  }

  /** All calls but the last are over. */
  predicate OneOpen(s: State) {
    s.calls != [] && forall i | 0 <= i < |s.calls| - 1 :: s.calls[i].Returned? || s.calls[i].Failed?
  }

  lemma OneOpenStep(site: Site, s: State, e: Event)
    requires OneOpen(s) && (e == Lookup(|s.calls| - 1) || e == Fetch(|s.calls| - 1) || e == Store(|s.calls| - 1))
    ensures OneOpen(Step(site, s, e)) && |Step(site, s, e).calls| == |s.calls|
    ensures var (call, call') := (s.calls[|s.calls| - 1], Step(site, s, e).calls[|s.calls| - 1]);
            && (e.Lookup? ==> !call'.Resolved?) && (e.Fetch? && !call.Resolved? ==> !call'.Resolved? && !call'.Missed?)
            && (e.Store? && !call.Resolved? && !call.Missed? ==> call'.Returned? || call'.Failed?)
  {
  }

  lemma WholeCallIsOver(site: Site, s: State, url: string, rev: string, forced: bool)
    requires AllOver(s)
    ensures var n := |s.calls|;
            var s1 := Step(site, s, Begin(url, rev, forced));
            AllOver(Step(site, Step(site, Step(site, s1, Lookup(n)), Fetch(n)), Store(n)))
  {
    var n, s1 := |s.calls|, Step(site, s, Begin(url, rev, forced));
    var s2 := Step(site, s1, Lookup(n));
    assert OneOpen(s1) && |s1.calls| == n + 1;
    hide Step;
    OneOpenStep(site, s1, Lookup(n));
    OneOpenStep(site, s2, Fetch(n));
    OneOpenStep(site, Step(site, s2, Fetch(n)), Store(n));
  }

  lemma RunWhole(site: Site, before: seq<Event>, url: string, rev: string, forced: bool, n: nat)
    ensures var s1 := Step(site, Run(site, before), Begin(url, rev, forced));
            Run(site, before + WholeCall(url, rev, forced, n))
            == Step(site, Step(site, Step(site, s1, Lookup(n)), Fetch(n)), Store(n))
  {
    var begun := before + [Begin(url, rev, forced)];
    RunSnoc(site, before, Begin(url, rev, forced));
    RunTwo(site, begun, Lookup(n), Fetch(n));
    RunSnoc(site, begun + [Lookup(n), Fetch(n)], Store(n));
    assert begun + [Lookup(n), Fetch(n)] + [Store(n)] == before + WholeCall(url, rev, forced, n);
  }

  lemma {:induction false} WholeRunsAreOver(site: Site, deeds: seq<Deed>)
    requires Apart(deeds)
    ensures AllOver(Run(site, EventsOf(site, deeds)))
  {
    if deeds != [] {
      var k := |deeds| - 1;
      var before := EventsOf(site, deeds[..k]);
      WholeRunsAreOver(site, deeds[..k]);
      match deeds[k]
      case Whole(url, rev, forced) =>
        RunWhole(site, before, url, rev, forced, |Run(site, before).calls|);
        WholeCallIsOver(site, Run(site, before), url, rev, forced);
      case Around(event) =>
        assert deeds[k] in deeds;
        RunSnoc(site, before, event);
    }
  }

  /**
   When nothing interrupts a call, every forced refresh that succeeds bounds every later answer, whatever other
   repositories are asked for.
   */
  lemma {:induction false} WholeCallsAreBounded(site: Site, first: seq<Deed>, url: string, rev: string,
                                                after: seq<Event>)
    requires !ByCommit(site, url) && Apart(first)
    requires var before := EventsOf(site, first); var n := |Run(site, before).calls|;
             var events := before + WholeCall(url, rev, true, n);
             && OwnKey(site, events + after, url, rev)
             && n < |Run(site, events).calls| && Run(site, events).calls[n].Returned?
    ensures var before := EventsOf(site, first); var n := |Run(site, before).calls|;
            var events := before + WholeCall(url, rev, true, n);
            AnswersFresh(site, events + after, url, rev, |before|, |Run(site, events).calls|)
  {
    var before := EventsOf(site, first);
    var n := |Run(site, before).calls|;
    var fetched := before + [Begin(url, rev, true)] + [Lookup(n), Fetch(n)];
    WholeRunsAreOver(site, first);
    RunSnoc(site, before, Begin(url, rev, true));
    RunTwo(site, before + [Begin(url, rev, true)], Lookup(n), Fetch(n));
    RunSnoc(site, fetched, Store(n));
    assert before + WholeCall(url, rev, true, n) == fetched + [Store(n)];
    WholeCallIsOver(site, Run(site, before), url, rev, true);
    ForcedFetches(site, Run(site, before), url, rev);
    assert Refresh(before, url, rev, [Lookup(n), Fetch(n)], n) == fetched + [Store(n)];
    hide Step, OwnKey, Run;
    StalenessBound(site, before, url, rev, [Lookup(n), Fetch(n)], after);
  }

  lemma ForcedFetches(site: Site, s: State, url: string, rev: string)
    requires !ByCommit(site, url)
    ensures var n := |s.calls|;
            var s1 := Step(site, s, Begin(url, rev, true));
            var s3 := Step(site, Step(site, s1, Lookup(n)), Fetch(n));
            |s3.calls| == n + 1 && (s3.calls[n].Fetched? || s3.calls[n].Failed?)
            && (Step(site, s3, Store(n)).calls[n].Returned? ==> s3.calls[n].Fetched?)
  {
  }

  // ---- A run that breaks the bound ----

  /** A slow get has read the old commit when the branch moves to the new one. */
  function SlowGet(url: string, rev: string, first: string, second: string): seq<Event> {
    [Push(url, rev, first), Begin(url, rev, false), Lookup(0), Fetch(0), Push(url, rev, second)]
  }

  const QUICK_REFRESH := [Lookup(1), Fetch(1)]

  lemma SlowSteps(site: Site, url: string, rev: string, first: string, second: string)
    requires !ByCommit(site, url)
    requires var def := Uncached(site, url, first); def.Some? && site.valid(def.value)
    ensures var s1 := State(map[(url, rev) := first], map[], []);
            var s3 := s1.(calls := [Missed(url, rev)]);
            && Step(site, State(map[], map[], []), Push(url, rev, first)) == s1
            && Step(site, Step(site, s1, Begin(url, rev, false)), Lookup(0)) == s3
            && Step(site, Step(site, s3, Fetch(0)), Push(url, rev, second))
               == State(map[(url, rev) := second], map[], [Fetched(url, rev, Uncached(site, url, first).value)])
  {
    assert map[(url, rev) := first][(url, rev) := second] == map[(url, rev) := second];
  }

  lemma SlowGetHasOld(site: Site, url: string, rev: string, first: string, second: string)
    requires !ByCommit(site, url)
    requires var def := Uncached(site, url, first); def.Some? && site.valid(def.value)
    ensures Run(site, SlowGet(url, rev, first, second))
            == State(map[(url, rev) := second], map[], [Fetched(url, rev, Uncached(site, url, first).value)])
  {
    var e1, e2, e3 := Push(url, rev, first), Begin(url, rev, false), Lookup(0);
    SlowSteps(site, url, rev, first, second);
    RunSnoc(site, [], e1);
    hide Step, Uncached;
    RunTwo(site, [e1], e2, e3);
    RunTwo(site, [e1, e2, e3], Fetch(0), Push(url, rev, second));
    assert [] + [e1] == [e1] && [e1] + [e2, e3] == [e1, e2, e3];
    assert [e1, e2, e3] + [Fetch(0), Push(url, rev, second)] == SlowGet(url, rev, first, second);
  }

  lemma RefreshPasses(site: Site, url: string, rev: string, first: string, second: string)
    requires !ByCommit(site, url)
    requires var def := Uncached(site, url, first); def.Some? && site.valid(def.value)
    requires var def := Uncached(site, url, second); def.Some? && site.valid(def.value)
    ensures var before := SlowGet(url, rev, first, second);
            Run(site, before + [Begin(url, rev, true)] + QUICK_REFRESH)
            == State(map[(url, rev) := second], map[],
                     [Fetched(url, rev, Uncached(site, url, first).value),
                      Fetched(url, rev, Uncached(site, url, second).value)])
  {
    var before := SlowGet(url, rev, first, second);
    SlowGetHasOld(site, url, rev, first, second);
    RunSnoc(site, before, Begin(url, rev, true));
    RunTwo(site, before + [Begin(url, rev, true)], Lookup(1), Fetch(1));
  }

  lemma RefreshReturns(site: Site, url: string, rev: string, first: string, second: string)
    requires !ByCommit(site, url)
    requires var def := Uncached(site, url, first); def.Some? && site.valid(def.value)
    requires var def := Uncached(site, url, second); def.Some? && site.valid(def.value)
    ensures var d2 := Uncached(site, url, second).value;
            Run(site, Refresh(SlowGet(url, rev, first, second), url, rev, QUICK_REFRESH, 1))
            == State(map[(url, rev) := second], map[Key(url, rev) := d2],
                     [Fetched(url, rev, Uncached(site, url, first).value), Returned(url, rev, d2)])
  {
    var before := SlowGet(url, rev, first, second);
    RefreshPasses(site, url, rev, first, second);
    RunSnoc(site, before + [Begin(url, rev, true)] + QUICK_REFRESH, Store(1));
  }

  lemma HeldNow(site: Site, before: seq<Event>, tail: seq<Event>, url: string, rev: string, def: Definition)
    requires forall e <- tail :: Quiet(e)
    ensures var refs := Run(site, before).refs;
            HeldSince(site, before + tail, url, rev, def, |before|) ==>
              (url, rev) in refs && Uncached(site, url, refs[(url, rev)]) == Some(def)
  {
    if HeldSince(site, before + tail, url, rev, def, |before|) {
      HeldInQuiet(site, before, tail, url, rev, def, |before|);
      assert before[..|before|] == before;
    }
  }

  /**
   A get that read the old content stores it behind a forced refresh that has returned the new one: from then
   on readers are given the old content again.
   */
  lemma {:induction false} LateStoreBreaksBound(site: Site, url: string, rev: string, first: string, second: string)
    requires !ByCommit(site, url) && '-' !in first && '-' !in second
    requires var def := Uncached(site, url, first); def.Some? && site.valid(def.value)
    requires var def := Uncached(site, url, second); def.Some? && site.valid(def.value)
    requires Uncached(site, url, first) != Uncached(site, url, second)
    ensures var before := SlowGet(url, rev, first, second);
            var events := Refresh(before, url, rev, QUICK_REFRESH, 1);
            && OwnKey(site, events, url, rev)
            && Run(site, events).calls == [Fetched(url, rev, Uncached(site, url, first).value),
                                           Returned(url, rev, Uncached(site, url, second).value)]
            && !StaysFresh(site, events, url, rev, |before|)
  {
    var before := SlowGet(url, rev, first, second);
    var tail := [Begin(url, rev, true)] + QUICK_REFRESH + [Store(1)];
    var events := Refresh(before, url, rev, QUICK_REFRESH, 1);
    var def := Uncached(site, url, first).value;
    SlowGetHasOld(site, url, rev, first, second);
    RefreshReturns(site, url, rev, first, second);
    assert events == before + tail;
    hide Run, Step, Uncached, HeldSince, StaysFresh, ByCommit;
    HeldNow(site, before, tail, url, rev, def);
    StaleContentIsStored(site, events, url, rev, |before|, 0);
  }

  // ---- Importing a definition ----

  /** Whether `create_definition` forces a refresh. */
  ghost predicate ImportForces(site: Site, url: string) {
    TypeOf(url).GitHub? && site.mode.FreshImport?
  }

  /** Imported, whatever else happens, a definition is what the rev led to at some moment since the import began. */
  ghost predicate ImportIsCurrent(site: Site, before: seq<Event>, url: string, rev: string, after: seq<Event>) {
    var events := before + [Begin(url, rev, ImportForces(site, url))] + after;
    var n := |Run(site, before).calls|;
    CommitIds(events) ==>
      n < |Run(site, events).calls|
      && (Run(site, events).calls[n].Returned? ==>
            HeldSince(site, events, url, rev, Run(site, events).calls[n].def, |before|))
  }

  lemma CommitKeyedIsCurrent(site: Site, before: seq<Event>, url: string, rev: string, forced: bool, after: seq<Event>)
    requires ByCommit(site, url) && CommitIds(before) && CommitIds(after)
    ensures var events := before + [Begin(url, rev, forced)] + after;
            var n := |Run(site, before).calls|;
            n < |Run(site, events).calls|
            && (Run(site, events).calls[n].Returned? ==>
                  HeldSince(site, events, url, rev, Run(site, events).calls[n].def, |before|))
  {
    var events := before + [Begin(url, rev, forced)] + after;
    var n := |Run(site, before).calls|;
    CacheTransparency(site, before, url, rev, forced, after);
    hide Run, Uncached, ByCommit;
    if Run(site, events).calls[n].Returned? {
      assert events[..|before|] == before;
      assert HeldAt(site, events, url, rev, Run(site, events).calls[n].def, |before|);
    }
  }

  lemma ImportsAreCurrent(site: Site, before: seq<Event>, url: string, rev: string, after: seq<Event>)
    requires !(TypeOf(url).GitHub? && site.mode.Aggressive?)
    ensures ImportIsCurrent(site, before, url, rev, after)
  {
    var events := before + [Begin(url, rev, ImportForces(site, url))] + after;
    if CommitIds(events) {
      assert forall e <- before :: e in events;
      assert forall e <- after :: e in events;
      if ByCommit(site, url) {
        CommitKeyedIsCurrent(site, before, url, rev, ImportForces(site, url), after);
      } else {
        ForcedIsNew(site, before, url, rev, after);
      }
    }
  }

  /** In AGGRESSIVE mode an import is answered with what the branch held before it began. */
  lemma AggressiveImportIsStale(site: Site, url: string, rev: string, first: string, second: string)
    requires TypeOf(url).GitHub? && site.mode.Aggressive? && '-' !in first && '-' !in second
    requires var def := Uncached(site, url, first); def.Some? && site.valid(def.value)
    requires Uncached(site, url, first) != Uncached(site, url, second)
    ensures !ImportIsCurrent(site, SlowGet(url, rev, first, second) + [Store(0)], url, rev, [Lookup(1)])
  {
    var slow := SlowGet(url, rev, first, second);
    var before := slow + [Store(0)];
    var def := Uncached(site, url, first).value;
    SlowGetHasOld(site, url, rev, first, second);
    RunSnoc(site, slow, Store(0));
    ReaderGetsEntry(site, before, url, rev);
    assert before + [Begin(url, rev, false)] + [Lookup(1)] == before + Reading(url, rev, 1);
    assert Run(site, before).cache[Key(url, rev)] == def;
    HeldNow(site, before, Reading(url, rev, 1), url, rev, def);
    hide Run, HeldSince, Uncached;
  }

  /**
   Importing yields current definitions, in all runs, exactly when the repository is not a GitHub one in
   AGGRESSIVE mode; `first` and `second` are two commits of which the first is valid, with different contents.
   */
  lemma {:induction false} ImportsAreCurrentIff(site: Site, url: string, rev: string, first: string, second: string)
    requires '-' !in first && '-' !in second
    requires var def := Uncached(site, url, first); def.Some? && site.valid(def.value)
    requires Uncached(site, url, first) != Uncached(site, url, second)
    ensures (forall before: seq<Event>, after: seq<Event> :: ImportIsCurrent(site, before, url, rev, after))
            <==> !(Contains(url, "github.") && site.mode.Aggressive?)
  {
    if TypeOf(url).GitHub? && site.mode.Aggressive? {
      AggressiveImportIsStale(site, url, rev, first, second);
    } else {
      forall before: seq<Event>, after: seq<Event>
        ensures ImportIsCurrent(site, before, url, rev, after)
      {
        ImportsAreCurrent(site, before, url, rev, after);
      }
    }
  }
}

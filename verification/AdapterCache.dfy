/**
 The few adapters a gateway keeps, in order of insertion, under a text made from the
 configuration each was built from. An adapter is known by that configuration.
 */
module AdapterCache {
  import opened Wrappers

  const MAX_CACHED_GATEWAYS: nat := 6

  datatype Entry<C> = Entry(fingerprint: string, adapter: C)

  /** Oldest first. */
  type Cache<C> = seq<Entry<C>>

  /** The text a configuration is told by. */
  type Marker<!C> = C -> string

  function Lookup<C>(cache: Cache<C>, f: string): (r: Option<C>)
    ensures r.Some? ==> Entry(f, r.value) in cache
    ensures r.None? <==> forall i :: 0 <= i < |cache| ==> cache[i].fingerprint != f
  {
    if cache == [] then None
    else if cache[0].fingerprint == f then Some(cache[0].adapter)
    else
      assert cache == [cache[0]] + cache[1..];
      Lookup(cache[1..], f)
  }

  /** The adapter for a configuration: the one kept under its fingerprint, or one built now. */
  function GatewayFor<C>(mark: Marker<C>, cache: Cache<C>, c: C): (Cache<C>, C) {
    match Lookup(cache, mark(c))
    case Some(adapter) => (cache, adapter)
    case None =>
      ((if |cache| >= MAX_CACHED_GATEWAYS then cache[1..] else cache) + [Entry(mark(c), c)], c)
  }

  ghost predicate CacheOk<C>(mark: Marker<C>, cache: Cache<C>) {
    && |cache| <= MAX_CACHED_GATEWAYS
    && (forall i :: 0 <= i < |cache| ==> cache[i].fingerprint == mark(cache[i].adapter))
    && (forall i, j :: 0 <= i < j < |cache| ==> cache[i].fingerprint != cache[j].fingerprint)
  }

  /** At most six adapters are kept, each under its own fingerprint; what is handed out has the one asked for. */
  lemma GatewayForKeepsCache<C>(mark: Marker<C>, cache: Cache<C>, c: C)
    requires CacheOk(mark, cache)
    ensures var (cache', adapter) := GatewayFor(mark, cache, c);
            && CacheOk(mark, cache') && |cache'| <= 6 && mark(adapter) == mark(c) && Entry(mark(c), adapter) in cache'
            && forall e :: e in cache' ==> e in cache || e == Entry(mark(c), c)
  {
    var (cache', adapter) := GatewayFor(mark, cache, c);
    if Lookup(cache, mark(c)).None? {
      assert cache'[|cache'| - 1] == Entry(mark(c), c);
    }
  }

  /** Calls one after the other, and the fingerprints built for on the way. */
  function Serve<C>(mark: Marker<C>, cache: Cache<C>, cs: seq<C>): (Cache<C>, seq<string>)
    decreases |cs|
  {
    if cs == [] then (cache, [])
    else
      var c := cs[|cs| - 1];
      var (before, built) := Serve(mark, cache, cs[..|cs| - 1]);
      (GatewayFor(mark, before, c).0, if Lookup(before, mark(c)).None? then built + [mark(c)] else built)
  }

  /** The adapters handed out on the way. */
  function Adapters<C>(mark: Marker<C>, cache: Cache<C>, cs: seq<C>): seq<C>
    decreases |cs|
  {
    if cs == [] then []
    else
      var front, c := cs[..|cs| - 1], cs[|cs| - 1];
      Adapters(mark, cache, front) + [GatewayFor(mark, Serve(mark, cache, front).0, c).1]
  }

  /** After the first `n` of these, the cache is this, and these are the adapters handed out. */
  ghost predicate ServedSoFar<C>(mark: Marker<C>, cache: Cache<C>, cs: seq<C>, n: nat, cache': Cache<C>, adapters: seq<C>) {
    n <= |cs| && cache' == Serve(mark, cache, cs[..n]).0 && adapters == Adapters(mark, cache, cs[..n])
  }

  lemma ServeOneMore<C>(mark: Marker<C>, cache: Cache<C>, cs: seq<C>, n: nat, cache': Cache<C>, adapters: seq<C>)
    requires ServedSoFar(mark, cache, cs, n, cache', adapters) && n < |cs|
    ensures var (cache'', adapter) := GatewayFor(mark, cache', cs[n]);
            ServedSoFar(mark, cache, cs, n + 1, cache'', adapters + [adapter])
  {
    assert cs[..n + 1][..n] == cs[..n];
  }

  lemma {:induction false} ServingKeepsCache<C>(mark: Marker<C>, cache: Cache<C>, cs: seq<C>)
    requires CacheOk(mark, cache)
    ensures CacheOk(mark, Serve(mark, cache, cs).0)
    decreases |cs|
  {
    if cs != [] {
      ServingKeepsCache(mark, cache, cs[..|cs| - 1]);
      GatewayForKeepsCache(mark, Serve(mark, cache, cs[..|cs| - 1]).0, cs[|cs| - 1]);
    }
  }

  lemma HandedOutMatches<C>(mark: Marker<C>, cache: Cache<C>, cs: seq<C>, c: C)
    requires CacheOk(mark, cache)
    ensures mark(GatewayFor(mark, Serve(mark, cache, cs).0, c).1) == mark(c)
  {
    ServingKeepsCache(mark, cache, cs);
    GatewayForKeepsCache(mark, Serve(mark, cache, cs).0, c);
  }

  /** Each has the fingerprint asked for. */
  lemma {:induction false} AdaptersMatch<C>(mark: Marker<C>, cache: Cache<C>, cs: seq<C>)
    requires CacheOk(mark, cache)
    ensures |Adapters(mark, cache, cs)| == |cs|
    ensures forall i :: 0 <= i < |cs| ==> mark(Adapters(mark, cache, cs)[i]) == mark(cs[i])
    decreases |cs|
  {
    if cs != [] {
      var front := cs[..|cs| - 1];
      AdaptersMatch(mark, cache, front);
      HandedOutMatches(mark, cache, front, cs[|cs| - 1]);
      forall i | 0 <= i < |cs|
        ensures mark(Adapters(mark, cache, cs)[i]) == mark(cs[i])
      {
        assert i < |front| ==> Adapters(mark, cache, cs)[i] == Adapters(mark, cache, front)[i] && cs[i] == front[i];
      }
    }
  }

  ghost function Fingerprints<C>(mark: Marker<C>, cs: seq<C>): set<string> {
    set i | 0 <= i < |cs| :: mark(cs[i])
  }

  function Kept<C>(cache: Cache<C>): set<string> {
    set i | 0 <= i < |cache| :: cache[i].fingerprint
  }

  ghost predicate EachOnce(s: seq<string>) {
    forall i, j :: 0 <= i < j < |s| ==> s[i] != s[j]
  }

  lemma {:induction false} CacheCounts<C>(cache: Cache<C>)
    requires forall i, j :: 0 <= i < j < |cache| ==> cache[i].fingerprint != cache[j].fingerprint
    ensures |Kept(cache)| == |cache|
    decreases |cache|
  {
    if cache != [] {
      var rest := cache[..|cache| - 1];
      CacheCounts(rest);
      assert Kept(cache) == Kept(rest) + {cache[|cache| - 1].fingerprint};
    }
  }

  lemma FewerThanAll(some: set<string>, all: set<string>, x: string)
    requires some <= all && x in all && x !in some
    ensures |some| < |all|
  {
    var others := all - {x};
    assert others == some + (others - some);
  }

  lemma OneMoreFingerprint<C>(mark: Marker<C>, cs: seq<C>, c: C)
    ensures Fingerprints(mark, cs + [c]) == Fingerprints(mark, cs) + {mark(c)}
  {
    var all := cs + [c];
    assert all[|cs|] == c;
    forall i | 0 <= i < |cs|
      ensures mark(all[i]) in Fingerprints(mark, all)
    {
    }
    forall i | 0 <= i < |all|
      ensures mark(all[i]) in Fingerprints(mark, cs) + {mark(c)}
    {
      assert i < |cs| ==> all[i] == cs[i];
    }
    assert forall i :: 0 <= i < |cs| ==> all[i] == cs[i];
  }

  lemma OneMoreKept<C>(cache: Cache<C>, e: Entry<C>)
    ensures Kept(cache + [e]) == Kept(cache) + {e.fingerprint}
  {
    var all := cache + [e];
    assert all[|cache|] == e;
    assert forall i :: 0 <= i < |cache| ==> all[i] == cache[i];
  }

  /** The cache holds exactly what was asked for, and was built once for each. */
  ghost predicate ServedAll<C>(mark: Marker<C>, cs: seq<C>, cache: Cache<C>, built: seq<string>) {
    && CacheOk(mark, cache) && Kept(cache) == Fingerprints(mark, cs)
    && EachOnce(built) && (forall f :: f in built <==> f in Fingerprints(mark, cs))
  }

  lemma BuildingServesOneMore<C>(mark: Marker<C>, before: Cache<C>, built: seq<string>, cs: seq<C>, c: C, all: set<string>)
    requires ServedAll(mark, cs, before, built) && Lookup(before, mark(c)).None?
    requires Fingerprints(mark, cs + [c]) <= all && |all| <= MAX_CACHED_GATEWAYS
    ensures ServedAll(mark, cs + [c], GatewayFor(mark, before, c).0, built + [mark(c)])
  {
    var f := mark(c);
    GatewayForKeepsCache(mark, before, c);
    OneMoreFingerprint(mark, cs, c);
    CacheCounts(before);
    assert f !in Kept(before);
    FewerThanAll(Kept(before), all, f);
    assert GatewayFor(mark, before, c).0 == before + [Entry(f, c)];
    OneMoreKept(before, Entry(f, c));
  }

  lemma FindingServesOneMore<C>(mark: Marker<C>, before: Cache<C>, built: seq<string>, cs: seq<C>, c: C)
    requires ServedAll(mark, cs, before, built) && Lookup(before, mark(c)).Some?
    ensures ServedAll(mark, cs + [c], GatewayFor(mark, before, c).0, built)
  {
    OneMoreFingerprint(mark, cs, c);
    assert mark(c) in Kept(before);
    assert Fingerprints(mark, cs) + {mark(c)} == Fingerprints(mark, cs);
  }

  /** As long as no more than six fingerprints are in use, an adapter is built exactly once for each. */
  lemma {:induction false} BuiltOnceEach<C>(mark: Marker<C>, cs: seq<C>, all: set<string>)
    requires Fingerprints(mark, cs) <= all && |all| <= 6
    ensures ServedAll(mark, cs, Serve(mark, [], cs).0, Serve(mark, [], cs).1)
    decreases |cs|
  {
    if cs != [] {
      var front, c := cs[..|cs| - 1], cs[|cs| - 1];
      assert cs == front + [c];
      OneMoreFingerprint(mark, front, c);
      BuiltOnceEach(mark, front, all);
      var (before, built) := Serve(mark, [], front);
      if Lookup(before, mark(c)).None? {
        BuildingServesOneMore(mark, before, built, front, c, all);
      } else {
        FindingServesOneMore(mark, before, built, front, c);
      }
    }
  }

  function EntriesOf<C>(mark: Marker<C>, cs: seq<C>): Cache<C> {
    seq(|cs|, i requires 0 <= i < |cs| => Entry(mark(cs[i]), cs[i]))
  }

  lemma {:induction false} FirstSixAreKept<C>(mark: Marker<C>, cs: seq<C>)
    requires |cs| <= MAX_CACHED_GATEWAYS && forall i, j :: 0 <= i < j < |cs| ==> mark(cs[i]) != mark(cs[j])
    ensures Serve(mark, [], cs).0 == EntriesOf(mark, cs)
    decreases |cs|
  {
    if cs != [] {
      var front, c := cs[..|cs| - 1], cs[|cs| - 1];
      FirstSixAreKept(mark, front);
      assert Lookup(EntriesOf(mark, front), mark(c)).None?;
      assert EntriesOf(mark, cs) == EntriesOf(mark, front) + [Entry(mark(c), c)];
    }
  }

  lemma SeventhIsBuilt<C>(mark: Marker<C>, cs: seq<C>)
    requires |cs| == MAX_CACHED_GATEWAYS + 1 && forall i, j :: 0 <= i < j < |cs| ==> mark(cs[i]) != mark(cs[j])
    ensures Serve(mark, [], cs).0 == EntriesOf(mark, cs)[1..]
  {
    var n := MAX_CACHED_GATEWAYS;
    var front, c := cs[..n], cs[n];
    FirstSixAreKept(mark, front);
    var before, all := EntriesOf(mark, front), EntriesOf(mark, cs);
    assert Lookup(before, mark(c)).None?;
    assert GatewayFor(mark, before, c).0 == before[1..] + [Entry(mark(c), c)];
    assert all == before + [Entry(mark(c), c)];
    assert all[1..] == before[1..] + [Entry(mark(c), c)];
  }

  /** Six is as many as there may be: a seventh pushes out the one that came first. */
  lemma SeventhPushesOutTheFirst<C>(mark: Marker<C>, cs: seq<C>)
    requires |cs| == 7 && forall i, j :: 0 <= i < j < |cs| ==> mark(cs[i]) != mark(cs[j])
    ensures Lookup(Serve(mark, [], cs).0, mark(cs[0])).None?
    ensures forall i :: 0 < i < |cs| ==> Lookup(Serve(mark, [], cs).0, mark(cs[i])).Some?
  {
    SeventhIsBuilt(mark, cs);
    var cache := EntriesOf(mark, cs)[1..];
    forall i | 0 < i < |cs|
      ensures Lookup(cache, mark(cs[i])).Some?
    {
      assert cache[i - 1].fingerprint == mark(cs[i]);
    }
  }

  // --- agreeing with building afresh ----------------------------------------------------

  /** What is handed out is what building afresh would give exactly when no kept look-alike is in the way. */
  lemma FreshExactlyWhenNoLookAlike<C>(mark: Marker<C>, cache: Cache<C>, c: C)
    requires CacheOk(mark, cache)
    ensures GatewayFor(mark, cache, c).1 == c
            <==> forall i :: 0 <= i < |cache| && mark(cache[i].adapter) == mark(c) ==> cache[i].adapter == c
  {
    var found := Lookup(cache, mark(c));
    if found.Some? {
      var i :| 0 <= i < |cache| && cache[i] == Entry(mark(c), found.value);
      forall j | 0 <= j < |cache| && mark(cache[j].adapter) == mark(c)
        ensures j == i
      {
        assert cache[j].fingerprint == cache[i].fingerprint;
      }
    }
  }

  ghost predicate Separates<C>(mark: Marker<C>, cs: set<C>) {
    forall c, d | c in cs && d in cs :: mark(c) == mark(d) ==> c == d
  }

  ghost predicate BuiltFrom<C>(cache: Cache<C>, cs: set<C>) {
    forall i :: 0 <= i < |cache| ==> cache[i].adapter in cs
  }

  /** Among configurations the fingerprint separates, keeping adapters is never noticed, however many there are. */
  lemma {:induction false} KeepingIsUnobservable<C>(mark: Marker<C>, cs: seq<C>, all: set<C>, c: C)
    requires Separates(mark, all) && c in all && forall i :: 0 <= i < |cs| ==> cs[i] in all
    ensures CacheOk(mark, Serve(mark, [], cs).0) && BuiltFrom(Serve(mark, [], cs).0, all)
    ensures GatewayFor(mark, Serve(mark, [], cs).0, c).1 == c
    decreases |cs|
  {
    if cs != [] {
      var front, last := cs[..|cs| - 1], cs[|cs| - 1];
      KeepingIsUnobservable(mark, front, all, last);
      GatewayForKeepsCache(mark, Serve(mark, [], front).0, last);
    }
    FreshExactlyWhenNoLookAlike(mark, Serve(mark, [], cs).0, c);
  }
}

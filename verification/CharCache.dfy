/** The read-through cache of FFLogs character ids: a Redis map consulted before, and filled
    after, the remote lookup. Redis may be down for any single operation. */
module CharCache {
  import opened Basics
  import opened CnWorlds
  import opened Decimal
  import Pipeline
  import PipelineResults

  const REGION := "cn"

  function CacheKey(name: string, server: string, region: string): string {
    "fflogs:char:" + region + ":" + name + "@" + server
  }

  /** What a Redis GET does to the lookup: the value, or nothing usable (absent or down). */
  function CachedId(store: map<string, string>, key: string, up: bool): Option<int> {
    if !up || key !in store then None
    else
      var id := Atoi(store[key]);
      if id.Some? && id.value > 0 then id else None
  }

  /** What a lookup returns: a usable cached id, or what FFLogs answers (None for a failed query, 0
      for an unknown character). */
  function Returned(store: map<string, string>, key: string, getUp: bool, remote: Option<int>): Option<int> {
    var hit := CachedId(store, key, getUp);
    if hit.Some? then hit else remote
  }

  /** And the cache it leaves: a known character that was asked for is stored if Redis takes it. */
  function Stored(store: map<string, string>, key: string, getUp: bool, remote: Option<int>, setUp: bool)
    : map<string, string>
  {
    if CachedId(store, key, getUp).None? && setUp && remote.Some? && remote.value != 0
    then store[key := Itoa(remote.value)]
    else store
  }

  class Cache {
    var store: map<string, string>

    constructor ()
      ensures store == map[]
    {
      store := map[];
    }

    /** `remote` is what FFLogs answers if it is asked; `asked` tells whether it was. */
    method ResolveCharacterID(name: string, server: string, region: string,
                              getUp: bool, remote: Option<int>, setUp: bool)
      returns (id: Option<int>, asked: bool)
      modifies this
      ensures var key := CacheKey(name, server, region);
              && asked == CachedId(old(store), key, getUp).None?
              && id == Returned(old(store), key, getUp, remote)
              && store == Stored(old(store), key, getUp, remote, setUp)
      ensures var key := CacheKey(name, server, region);
              if getUp && key in old(store) && Atoi(old(store)[key]).Some? && Atoi(old(store)[key]).value > 0 then
                !asked && id == Atoi(old(store)[key]) && store == old(store)
              else
                && asked && id == remote
                && store == if setUp && remote.Some? && remote.value != 0
                            then old(store)[key := Itoa(remote.value)] else old(store)
    {
      var key := CacheKey(name, server, region);
      if getUp && key in store {
        var parsed := Atoi(store[key]);
        if parsed.Some? && parsed.value > 0 {
          return parsed, false;
        }
      }
      asked := true;
      if remote.None? {
        return None, asked;
      }
      if remote.value == 0 {
        return Some(0), asked;
      }
      if setUp {
        store := store[key := Itoa(remote.value)];
      }
      id := remote;
    }
  }

  // ----- the cache key tells characters apart

  /** Joined by '@', a second part without one starts after the last '@'. */
  lemma LastAt(a: string, s: string)
    requires '@' !in s
    ensures (a + "@" + s)[|a|] == '@'
    ensures forall i :: |a| < i < |a| + 1 + |s| ==> (a + "@" + s)[i] != '@'
    ensures (a + "@" + s)[..|a|] == a && (a + "@" + s)[|a| + 1..] == s
  {
  }

  lemma SplitAtLastAt(a: string, b: string, s: string, t: string)
    requires a + "@" + s == b + "@" + t && '@' !in s && '@' !in t
    ensures a == b && s == t
  {
    LastAt(a, s);
    LastAt(b, t);
    assert |a| == |b|;
  }

  /** Two characters of one region share a key exactly when their names and servers joined by '@'
      read the same. */
  lemma KeysMeetExactlyWhen(name: string, server: string, name': string, server': string, region: string)
    ensures CacheKey(name, server, region) == CacheKey(name', server', region) <==>
            name + "@" + server == name' + "@" + server'
  {
    var prefix := "fflogs:char:" + region + ":";
    var x := name + "@" + server;
    var y := name' + "@" + server';
    assert CacheKey(name, server, region) == prefix + x;
    assert CacheKey(name', server', region) == prefix + y;
    assert x == (prefix + x)[|prefix|..] && y == (prefix + y)[|prefix|..];
  }

  /** So within one region, characters on servers without an '@' have different keys. */
  lemma CacheKeyIsInjective(name: string, server: string, name': string, server': string, region: string)
    requires '@' !in server && '@' !in server'
    requires CacheKey(name, server, region) == CacheKey(name', server', region)
    ensures name == name' && server == server'
  {
    KeysMeetExactlyWhen(name, server, name', server', region);
    SplitAtLastAt(name, name', server, server');
  }

  lemma SplitAt(s: string, i: nat)
    requires i < |s| && s[i] == '@'
    ensures s == s[..i] + "@" + s[i + 1..]
  {
  }

  /** The name and server that join at another '@' of the same text. */
  lemma OtherSplit(name: string, server: string, i: nat)
    requires i < |name + "@" + server| && i != |name| && (name + "@" + server)[i] == '@'
    ensures var x := name + "@" + server;
            x[..i] + "@" + x[i + 1..] == x && x[..i] != name
  {
    SplitAt(name + "@" + server, i);
  }

  /** A character shares its key with another one exactly when its name or its server contains
      an '@'. */
  lemma SharedExactlyWithAt(name: string, server: string, region: string)
    ensures (exists name', server' :: (name', server') != (name, server) &&
                                      CacheKey(name', server', region) == CacheKey(name, server, region)) <==>
            '@' in name || '@' in server
  {
    var x := name + "@" + server;
    if '@' in name || '@' in server {
      var i :| 0 <= i < |x| && i != |name| && x[i] == '@' by {
        if '@' in name {
          var j :| 0 <= j < |name| && name[j] == '@';
          assert x[j] == '@';
        } else {
          var j :| 0 <= j < |server| && server[j] == '@';
          assert x[|name| + 1 + j] == '@';
        }
      }
      OtherSplit(name, server, i);
      KeysMeetExactlyWhen(x[..i], x[i + 1..], name, server, region);
      assert (x[..i], x[i + 1..]) != (name, server);
    } else {
      forall name', server' | CacheKey(name', server', region) == CacheKey(name, server, region)
        ensures name' == name && server' == server
      {
        KeysMeetExactlyWhen(name', server', name, server, region);
        OnlySplit(name, server, name', server');
      }
    }
  }

  lemma OnlySplit(name: string, server: string, name': string, server': string)
    requires '@' !in name && '@' !in server && name' + "@" + server' == name + "@" + server
    ensures name' == name && server' == server
  {
    var x := name + "@" + server;
    assert (name' + "@" + server')[|name'|] == '@';
    LastAt(name, server);
    assert forall i :: 0 <= i < |name| ==> x[i] == name[i];
    assert |name'| == |name|;
    assert name' == x[..|name|] && server' == x[|name| + 1..];
  }

  // ----- histories of the cache

  /** FFLogs as a fixed function of name and server. */
  type Remote = (string, string) -> int

  datatype Event =
    | Lookup(name: string, server: string, getUp: bool, answered: bool, setUp: bool)
    | Expire(key: string)

  function Answer(remote: Remote, e: Event): Option<int>
    requires e.Lookup?
  {
    if e.answered then Some(remote(e.name, e.server)) else None
  }

  function IdOf(store: map<string, string>, remote: Remote, e: Event): Option<int>
    requires e.Lookup?
  {
    Returned(store, CacheKey(e.name, e.server, REGION), e.getUp, Answer(remote, e))
  }

  function Next(store: map<string, string>, remote: Remote, e: Event): map<string, string> {
    match e
    case Expire(key) => store - {key}
    case Lookup(name, server, getUp, _, setUp) =>
      Stored(store, CacheKey(name, server, REGION), getUp, Answer(remote, e), setUp)
  }

  /** Every entry of a synced character reads back as its remote id, and no entry says 0. */
  ghost predicate Faithful(store: map<string, string>, remote: Remote) {
    && (forall name: string, server: string ::
          IsCNServer(server) && CacheKey(name, server, REGION) in store ==>
            Atoi(store[CacheKey(name, server, REGION)]) == Some(remote(name, server)))
    && (forall key <- store :: Atoi(store[key]) != Some(0))
  }

  ghost predicate RemoteOk(remote: Remote) {
    forall name: string, server: string :: IsInt64(remote(name, server))
  }

  predicate Queued(e: Event) {
    e.Lookup? ==> IsCNServer(e.server)
  }

  /** Members that workers are handed are looked up on such servers. */
  lemma HandedOutAreQueued(s: Pipeline.Scan, m: Pipeline.Member, getUp: bool, answered: bool, setUp: bool)
    requires PipelineResults.Reachable(s) && m in s.handed
    ensures Queued(Lookup(m.name, m.server, getUp, answered, setUp))
  {
    PipelineResults.QueuedExactly(s);
    assert m in s.kept + s.handed + s.channel;
  }

  lemma NextFaithful(store: map<string, string>, remote: Remote, e: Event)
    requires RemoteOk(remote) && Queued(e) && Faithful(store, remote)
    ensures Faithful(Next(store, remote, e), remote)
  {
    if e.Lookup? {
      var key := CacheKey(e.name, e.server, REGION);
      var store' := Next(store, remote, e);
      AtoiOfItoa(remote(e.name, e.server));
      CnServersHaveNoAt(e.server);
      forall name: string, server: string | IsCNServer(server) && CacheKey(name, server, REGION) in store'
        ensures Atoi(store'[CacheKey(name, server, REGION)]) == Some(remote(name, server))
      {
        if CacheKey(name, server, REGION) == key {
          CnServersHaveNoAt(server);
          CacheKeyIsInjective(name, server, e.name, e.server, REGION);
        }
      }
    }
  }

  /** Every lookup of the history that returns an id returns the remote one. */
  ghost predicate AllLookupsAgree(store: map<string, string>, remote: Remote, es: seq<Event>)
    decreases |es|
  {
    es != [] ==>
      (es[0].Lookup? ==>
        var id := IdOf(store, remote, es[0]);
        && (id.Some? ==> id.value == remote(es[0].name, es[0].server))
        && (es[0].answered ==> id.Some?)) &&
      AllLookupsAgree(Next(store, remote, es[0]), remote, es[1..])
  }

  ghost function After(store: map<string, string>, remote: Remote, es: seq<Event>): map<string, string>
    decreases |es|
  {
    if es == [] then store else After(Next(store, remote, es[0]), remote, es[1..])
  }

  lemma {:induction false} LookupsAgree(store: map<string, string>, remote: Remote, es: seq<Event>)
    requires RemoteOk(remote) && Faithful(store, remote)
    requires forall e <- es :: Queued(e)
    ensures AllLookupsAgree(store, remote, es)
    ensures Faithful(After(store, remote, es), remote)
    decreases |es|
  {
    if es != [] {
      assert es[0] in es && forall e <- es[1..] :: e in es;
      NextFaithful(store, remote, es[0]);
      LookupsAgree(Next(store, remote, es[0]), remote, es[1..]);
    }
  }

  /** For a fixed remote function and any history of hits, misses, expiries and Redis outages on a
      cache that starts empty, a lookup of a queued member returns the remote id whenever it returns
      one, it returns one whenever FFLogs can be reached, and no entry ever says 0. */
  lemma CacheAgreesWithRemote(remote: Remote, es: seq<Event>)
    requires RemoteOk(remote) && forall e <- es :: Queued(e)
    ensures AllLookupsAgree(map[], remote, es)
    ensures forall key <- After(map[], remote, es) :: Atoi(After(map[], remote, es)[key]) != Some(0)
  {
    LookupsAgree(map[], remote, es);
  }

  lemma {:induction false} AfterSplit(store: map<string, string>, remote: Remote, es: seq<Event>, more: seq<Event>)
    ensures After(store, remote, es + more) == After(After(store, remote, es), remote, more)
    decreases |es|
  {
    if es == [] {
      assert es + more == more;
    } else {
      AfterSplit(Next(store, remote, es[0]), remote, es[1..], more);
      assert (es + more)[1..] == es[1..] + more;
    }
  }

  lemma {:induction false} EntryStays(store: map<string, string>, remote: Remote, es: seq<Event>, key: string)
    requires key in store && Expire(key) !in es
    ensures key in After(store, remote, es)
    decreases |es|
  {
    if es != [] {
      EntryStays(Next(store, remote, es[0]), remote, es[1..], key);
    }
  }

  /** The cache spares the query it is for: once a lookup of a known character was answered and Redis took
      the id (or had it), and until the entry expires, every lookup of the character while Redis can
      be read returns its id, whether FFLogs answers or not. */
  lemma HitsNeedNoAnswer(remote: Remote, before: seq<Event>, found: Event, between: seq<Event>, e: Event)
    requires RemoteOk(remote) && forall x <- before + [found] + between :: Queued(x)
    requires found.Lookup? && found.answered && found.setUp && remote(found.name, found.server) > 0
    requires Expire(CacheKey(found.name, found.server, REGION)) !in between
    requires e.Lookup? && e.name == found.name && e.server == found.server && e.getUp
    ensures IdOf(After(map[], remote, before + [found] + between), remote, e) == Some(remote(e.name, e.server))
  {
    var key := CacheKey(found.name, found.server, REGION);
    var s0 := After(map[], remote, before);
    var s1 := Next(s0, remote, found);
    AfterSplit(map[], remote, before + [found], between);
    AfterSplit(map[], remote, before, [found]);
    assert [found][1..] == [] && After(s0, remote, [found]) == s1;
    EntryStays(s1, remote, between, key);
    LookupsAgree(map[], remote, before + [found] + between);
    assert found in before + [found] + between;
  }
}

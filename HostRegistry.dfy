/**
 * The guild-to-host map of the bot as a value: its persisted form, the
 * rebuild from the persisted descriptors and the effect of one broadcast on it.
 */
module HostRegistry {
  import opened Entities
  import opened Effects

  type HostMap = map<Snowflake, Host>

  /** Every host is filed under its own guild, hence at most one host per guild. */
  ghost predicate KeyedByGuild(m: HostMap)
  {
    forall g :: g in m ==> m[g].guild == g
  }

  /** The descriptors that persist the map: one per host. */
  function HostIds(m: HostMap): set<HostId>
  {
    set h | h in m.Values :: ToHostId(h)
  }

  /** Filing a host under a guild that had none adds exactly its descriptor to the persisted set. */
  lemma HostIdsAfterAdd(m: HostMap, host: Host)
    requires host.guild !in m
    ensures HostIds(m[host.guild := host]) == HostIds(m) + {ToHostId(host)}
  {
    var m' := m[host.guild := host];
    assert m'.Values == m.Values + {host} by {
      forall h | h in m'.Values ensures h in m.Values + {host} {
        var g :| g in m' && m'[g] == h;
      }
      forall h | h in m.Values + {host} ensures h in m'.Values {
        if h != host {
          var g :| g in m && m[g] == h;
          assert m'[g] == h;
        } else {
          assert m'[host.guild] == host;
        }
      }
    }
  }

  /** Removing a guild's host removes exactly its descriptor from the persisted set. */
  lemma HostIdsAfterRemove(m: HostMap, guild: Snowflake)
    requires KeyedByGuild(m)
    ensures guild !in m ==> HostIds(m - {guild}) == HostIds(m)
    ensures guild in m ==> HostIds(m - {guild}) == HostIds(m) - {ToHostId(m[guild])}
  {
    var m' := m - {guild};
    if guild !in m {
      assert m' == m;
    } else {
      var gone := m[guild];
      assert m'.Values == m.Values - {gone} by {
        forall h | h in m'.Values ensures h in m.Values - {gone} {
          var g :| g in m' && m'[g] == h;
          assert m[g] == h && h.guild == g;
        }
        forall h | h in m.Values - {gone} ensures h in m'.Values {
          var g :| g in m && m[g] == h;
          assert g != guild;
          assert m'[g] == h;
        }
      }
      forall id | id in HostIds(m) - {ToHostId(gone)} ensures id in HostIds(m') {
        var h :| h in m.Values && ToHostId(h) == id;
        assert h != gone;
      }
    }
  }

  // ---------------------------------------------------------------------------
  // Rebuilding the map from the persisted descriptors.

  /**
   * `m` is a map the rebuild may produce from `ids`: it holds, under its own
   * guild, a host that some descriptor resolved to, and it has a host for every
   * guild that some descriptor resolved into. Which of several hosts of one
   * guild survives depends on the order of the persisted set.
   */
  ghost predicate LoadedFrom(m: HostMap, ids: set<HostId>, resolve: HostId -> Option<Host>)
  {
    && KeyedByGuild(m)
    && (forall g :: g in m ==> exists id :: id in ids && resolve(id) == Some(m[g]))
    && (forall id :: id in ids && resolve(id).Some? ==> resolve(id).value.guild in m)
  }

  /** The resolver gives each persisted host back, as long as its messages still exist. */
  ghost predicate ResolvesAll(m: HostMap, resolve: HostId -> Option<Host>)
  {
    forall h :: h in m.Values ==> resolve(ToHostId(h)) == Some(h)
  }

  /** A resolver that returns a host returns the one the descriptor describes. */
  ghost predicate Faithful(resolve: HostId -> Option<Host>)
  {
    forall id :: resolve(id).Some? ==> ToHostId(resolve(id).value) == id
  }

  /** Saving and then rebuilding gives back exactly the map that was saved, when every host still resolves. */
  lemma ReloadAfterSaveRestores(m: HostMap, loaded: HostMap, resolve: HostId -> Option<Host>)
    requires KeyedByGuild(m)
    requires ResolvesAll(m, resolve)
    requires LoadedFrom(loaded, HostIds(m), resolve)
    ensures loaded == m
  {
    forall g | g in loaded ensures g in m && m[g] == loaded[g] {
      var id :| id in HostIds(m) && resolve(id) == Some(loaded[g]);
      var h :| h in m.Values && ToHostId(h) == id;
      assert loaded[g] == h;
      var k :| k in m && m[k] == h;
    }
    forall g | g in m ensures g in loaded {
      var h := m[g];
      assert h in m.Values;
      assert ToHostId(h) in HostIds(m);
      assert resolve(ToHostId(h)) == Some(h);
    }
  }

  /** With a faithful resolver the rebuild only drops descriptors, it never invents one. */
  lemma ReloadOnlyDrops(loaded: HostMap, ids: set<HostId>, resolve: HostId -> Option<Host>)
    requires Faithful(resolve)
    requires LoadedFrom(loaded, ids, resolve)
    ensures HostIds(loaded) <= ids
  {
    forall id' | id' in HostIds(loaded) ensures id' in ids {
      var h :| h in loaded.Values && ToHostId(h) == id';
      var g :| g in loaded && loaded[g] == h;
      var id :| id in ids && resolve(id) == Some(loaded[g]);
    }
  }

  // ---------------------------------------------------------------------------
  // One broadcast over a snapshot of the map.

  /** How the edit of one host's message ends. */
  datatype DeliveryOutcome =
    | Ok
    /** Discord reports the message as deleted ("UnknownMessage"). */
    | UnknownMessage
    /** Any other failure of the request. */
    | OtherFailure

  /** The hosts whose message is gone are the ones a broadcast removes. */
  function Survivors(m: HostMap, outcome: Host -> DeliveryOutcome): (r: HostMap)
    ensures r.Keys <= m.Keys
    ensures forall g :: g in r ==> r[g] == m[g] && outcome(m[g]) != UnknownMessage
    ensures forall g :: g in m && outcome(m[g]) != UnknownMessage ==> g in r
  {
    map g | g in m && outcome(m[g]) != UnknownMessage :: m[g]
  }

  /** The guilds whose host's message is gone. */
  function StaleGuilds(m: HostMap, outcome: Host -> DeliveryOutcome): set<Snowflake>
  {
    set g | g in m && outcome(m[g]) == UnknownMessage
  }

  /** A broadcast over `m` removes `k` hosts iff `k` of their messages are gone. */
  lemma SurvivorCount(m: HostMap, outcome: Host -> DeliveryOutcome)
    ensures |Survivors(m, outcome)| == |m| - |StaleGuilds(m, outcome)|
  {
    var r := Survivors(m, outcome);
    assert r.Keys == m.Keys - StaleGuilds(m, outcome);
    assert StaleGuilds(m, outcome) <= m.Keys;
    assert |r.Keys| == |r|;
    assert |m.Keys| == |m|;
  }

  /** The successful edits of a broadcast that attempted `attempted` in that order. */
  function Deliveries(attempted: seq<Host>, payload: Payload, outcome: Host -> DeliveryOutcome): seq<Effect>
  {
    if attempted == [] then []
    else
      var rest := Deliveries(attempted[..|attempted| - 1], payload, outcome);
      var h := attempted[|attempted| - 1];
      rest + DeliveryOf(h, payload, outcome)
  }

  /** The edit one host contributes to a broadcast: one on success, none on failure. */
  function DeliveryOf(h: Host, payload: Payload, outcome: Host -> DeliveryOutcome): seq<Effect>
  {
    if outcome(h) == Ok then [Delivered(h, payload)] else []
  }

  /** A broadcast reaches a host iff it attempted that host and the edit succeeded; it produces nothing else. */
  lemma {:induction false} DeliveriesReachExactlyTheHealthy(
    attempted: seq<Host>, payload: Payload, outcome: Host -> DeliveryOutcome, h: Host)
    ensures Delivered(h, payload) in Deliveries(attempted, payload, outcome) <==> h in attempted && outcome(h) == Ok
    ensures forall e :: e in Deliveries(attempted, payload, outcome) ==> e.Delivered? && e.payload == payload
  {
    if attempted != [] {
      var init := attempted[..|attempted| - 1];
      DeliveriesReachExactlyTheHealthy(init, payload, outcome, h);
      assert attempted == init + [attempted[|attempted| - 1]];
    }
  }

  /** Without repeated hosts, no host is reached twice. */
  lemma {:induction false} DeliveriesOnceEach(
    attempted: seq<Host>, payload: Payload, outcome: Host -> DeliveryOutcome, i: int, j: int)
    requires forall a, b :: 0 <= a < b < |attempted| ==> attempted[a] != attempted[b]
    requires 0 <= i < j < |Deliveries(attempted, payload, outcome)|
    ensures Deliveries(attempted, payload, outcome)[i] != Deliveries(attempted, payload, outcome)[j]
  {
    var init := attempted[..|attempted| - 1];
    var h := attempted[|attempted| - 1];
    var rest := Deliveries(init, payload, outcome);
    if j < |rest| {
      DeliveriesOnceEach(init, payload, outcome, i, j);
    } else {
      assert outcome(h) == Ok && Deliveries(attempted, payload, outcome)[j] == Delivered(h, payload);
      forall k | 0 <= k < |init| ensures init[k] != h {
        assert init[k] == attempted[k];
      }
      DeliveriesReachExactlyTheHealthy(init, payload, outcome, h);
      assert rest[i] in rest;
    }
  }
}

/**
 * The session controller: admission of button presses, the registry of hosts
 * (one per guild, persisted in the configuration), the broadcast of stream
 * images and statistics to every host, and the start/stop of the game.
 */
module Bot {
  import opened Entities
  import opened Configuration
  import opened CommandExtensions
  import opened Effects
  import opened InputGate
  import opened HostRegistry

  /** The requirement failures the bot reports to its callers. */
  datatype BotError =
    /** "Only one host per guild allowed, first delete the existing host" */
    | HostAlreadyInGuild
    /** "Cannot send an empty global message." */
    | EmptyGlobalMessage
    /** "Cannot send an empty community message." */
    | EmptyCommunityMessage
    /** "Could not find any stream hosted in this server." */
    | NoHostInGuild

  datatype Outcome = Pass | Fail(error: BotError)

  /** File name of the animation the stream renderer hands over. */
  const GifFileName: string := "image.gif"
  /** File name under which the offline cover is sent when the game stops. */
  const OfflineCoverFileName: string := "stream.png"

  /** The embeds a community message leaves on a host's stream message. */
  function CommunityEmbeds(message: Option<string>): seq<Embed>
  {
    match message
    case None => []
    case Some(text) => [Embed(None, text)]
  }

  /** `s` lists no host twice. */
  ghost predicate Distinct(s: seq<Host>)
  {
    forall a, b :: 0 <= a < b < |s| ==> s[a] != s[b]
  }

  /** `m` without the hosts of `done` whose message turned out to be gone. */
  ghost function Pruned(m: HostMap, outcome: Host -> DeliveryOutcome, done: seq<Host>): HostMap
  {
    map g | g in m && !(m[g] in done && outcome(m[g]) == UnknownMessage) :: m[g]
  }

  /**
   * `m`, `c`, `e` are the host map, configuration and collaborator calls
   * after a broadcast of `payload` over the map `m0` that started from `c0`
   * and `e0`, attempting the hosts in the order `attempted`.
   */
  ghost predicate Broadcasted(
    m0: HostMap, c0: Config, e0: seq<Effect>, payload: Payload, outcome: Host -> DeliveryOutcome,
    attempted: seq<Host>, fault: bool, m: HostMap, c: Config, e: seq<Effect>)
  {
    // every host of the snapshot is attempted, once
    && Distinct(attempted)
    && (forall h :: h in attempted <==> h in m0.Values)
    // exactly the hosts whose message is gone are removed, and then the map is persisted again
    && m == Survivors(m0, outcome)
    && c == (if StaleGuilds(m0, outcome) != {} then c0.(hosts := HostIds(m)) else c0)
    // the successful edits, in the order of the attempts
    && e == e0 + Deliveries(attempted, payload, outcome)
    // any other failure is passed on to the caller
    && (fault <==> exists h :: h in m0.Values && outcome(h) == OtherFailure)
  }

  /** The broadcast loop after attempting `attempted`, with `remaining` still to go. */
  ghost predicate FanOutProgress(
    m0: HostMap, c0: Config, e0: seq<Effect>, payload: Payload, outcome: Host -> DeliveryOutcome,
    remaining: set<Host>, attempted: seq<Host>, anyStale: bool, fault: bool, m: HostMap, c: Config, e: seq<Effect>)
  {
    && remaining <= m0.Values
    && (forall h :: h in attempted <==> h in m0.Values && h !in remaining)
    && Distinct(attempted)
    && m == Pruned(m0, outcome, attempted)
    && (anyStale <==> exists h :: h in attempted && outcome(h) == UnknownMessage)
    && c == (if anyStale then c0.(hosts := HostIds(m)) else c0)
    && e == e0 + Deliveries(attempted, payload, outcome)
    && (fault <==> exists h :: h in attempted && outcome(h) == OtherFailure)
  }

  /** Attempting one more host keeps the loop's account of the broadcast. */
  lemma FanOutStep(
    m0: HostMap, c0: Config, e0: seq<Effect>, payload: Payload, outcome: Host -> DeliveryOutcome,
    remaining: set<Host>, attempted: seq<Host>, anyStale: bool, fault: bool, m: HostMap, c: Config, e: seq<Effect>,
    host: Host, m': HostMap, c': Config, e': seq<Effect>)
    requires KeyedByGuild(m0)
    requires FanOutProgress(m0, c0, e0, payload, outcome, remaining, attempted, anyStale, fault, m, c, e)
    requires host in remaining
    requires e' == e + DeliveryOf(host, payload, outcome)
    requires m' == if outcome(host) == UnknownMessage then m - {host.guild} else m
    requires c' == if outcome(host) == UnknownMessage then c.(hosts := HostIds(m')) else c
    ensures FanOutProgress(m0, c0, e0, payload, outcome, remaining - {host}, attempted + [host],
                           anyStale || outcome(host) == UnknownMessage, fault || outcome(host) == OtherFailure, m', c', e')
  {
    AttemptedOneMore(m0, outcome, payload, attempted, host);
    assert e' == e0 + Deliveries(attempted + [host], payload, outcome);
  }

  /** When no host remains, the loop's account is the broadcast's result. */
  lemma FanOutDone(
    m0: HostMap, c0: Config, e0: seq<Effect>, payload: Payload, outcome: Host -> DeliveryOutcome,
    attempted: seq<Host>, anyStale: bool, fault: bool, m: HostMap, c: Config, e: seq<Effect>)
    requires FanOutProgress(m0, c0, e0, payload, outcome, {}, attempted, anyStale, fault, m, c, e)
    ensures Broadcasted(m0, c0, e0, payload, outcome, attempted, fault, m, c, e)
  {
    PrunedAll(m0, outcome, attempted);
  }

  /** What attempting one more host of the snapshot adds to the loop's summaries. */
  lemma AttemptedOneMore(
    m0: HostMap, outcome: Host -> DeliveryOutcome, payload: Payload, done: seq<Host>, host: Host)
    requires KeyedByGuild(m0) && host in m0.Values
    ensures Deliveries(done + [host], payload, outcome) == Deliveries(done, payload, outcome) + DeliveryOf(host, payload, outcome)
    ensures outcome(host) != UnknownMessage ==> Pruned(m0, outcome, done + [host]) == Pruned(m0, outcome, done)
    ensures outcome(host) == UnknownMessage ==>
      Pruned(m0, outcome, done + [host]) == Pruned(m0, outcome, done) - {host.guild}
    ensures (exists h :: h in done + [host] && outcome(h) == UnknownMessage)
        <==> (exists h :: h in done && outcome(h) == UnknownMessage) || outcome(host) == UnknownMessage
    ensures (exists h :: h in done + [host] && outcome(h) == OtherFailure)
        <==> (exists h :: h in done && outcome(h) == OtherFailure) || outcome(host) == OtherFailure
  {
    assert (done + [host])[..|done + [host]| - 1] == done;
    var g0 :| g0 in m0 && m0[g0] == host;
  }

  /** After every host of the snapshot, pruning leaves exactly the survivors. */
  lemma PrunedAll(m0: HostMap, outcome: Host -> DeliveryOutcome, done: seq<Host>)
    requires forall h :: h in done <==> h in m0.Values
    ensures Pruned(m0, outcome, done) == Survivors(m0, outcome)
    ensures (exists h :: h in done && outcome(h) == UnknownMessage) <==> StaleGuilds(m0, outcome) != {}
    ensures (exists h :: h in done && outcome(h) == OtherFailure) <==> exists h :: h in m0.Values && outcome(h) == OtherFailure
  {
    forall g | g in m0 ensures m0[g] in done {
      assert m0[g] in m0.Values;
    }
    if exists h :: h in done && outcome(h) == UnknownMessage {
      var h :| h in done && outcome(h) == UnknownMessage;
      var g :| g in m0 && m0[g] == h;
      assert g in StaleGuilds(m0, outcome);
    }
    if StaleGuilds(m0, outcome) != {} {
      var g :| g in StaleGuilds(m0, outcome);
      assert m0[g] in done;
    }
  }

  class DiscordBot {
    /** The persisted configuration; every assignment stands for a write of the configuration file. */
    var config: Config
    var guildToHost: HostMap
    /** Last accepted input time per user. */
    var userInputCache: InputCache
    var userInputLockedToOwners: bool
    var gameCurrentlyRunning: bool
    /** The stream renderer's global message. */
    var globalMessage: Option<string>
    /** Every call made on a collaborator, in order. */
    var effects: seq<Effect>

    /** Every host is filed under its own guild: at most one host per guild. */
    ghost predicate Valid()
      reads this
    {
      KeyedByGuild(guildToHost)
    }

    /** The persisted descriptors are exactly those of the hosts in the map. */
    ghost predicate HostsPersisted()
      reads this
    {
      config.hosts == HostIds(guildToHost)
    }

    constructor (config: Config)
      ensures Valid()
      ensures this.config == config && guildToHost == map[] && userInputCache == map[]
      ensures !userInputLockedToOwners && !gameCurrentlyRunning && globalMessage == None
      ensures effects == [StreamConsumerAdded(BotConsumer), StatisticsConsumerAdded(BotConsumer)]
    {
      this.config := config;
      guildToHost := map[];
      userInputCache := map[];
      userInputLockedToOwners := false;
      gameCurrentlyRunning := false;
      globalMessage := None;
      effects := [StreamConsumerAdded(BotConsumer), StatisticsConsumerAdded(BotConsumer)];
    }

    // -------------------------------------------------------------------------
    // Session lifecycle

    /** Rebuilds the host map, starts emulator, renderer and statistics, and marks the game running. */
    method StartGame(resolve: HostId -> Option<Host>)
      requires Valid()
      modifies this
      ensures Valid() && HostsPersisted()
      ensures LoadedFrom(guildToHost, old(config.hosts), resolve)
      ensures config == old(config).(hosts := HostIds(guildToHost))
      ensures effects == old(effects) + [EmulatorStarted, RendererStarted, GameStartedNotified]
      ensures gameCurrentlyRunning
      ensures userInputCache == old(userInputCache) && userInputLockedToOwners == old(userInputLockedToOwners)
      ensures globalMessage == old(globalMessage)
    {
      LoadHosts(resolve);

      effects := effects + [EmulatorStarted];
      effects := effects + [RendererStarted];
      effects := effects + [GameStartedNotified];
      gameCurrentlyRunning := true;
    }

    /**
     * Stops emulator, renderer and statistics, marks the game stopped and
     * only then broadcasts the offline cover to every host.
     */
    method StopGame(outcome: Host -> DeliveryOutcome) returns (fault: bool, ghost attempted: seq<Host>)
      requires Valid()
      modifies this
      ensures Valid() && !gameCurrentlyRunning
      ensures Broadcasted(old(guildToHost), old(config),
                          old(effects) + [EmulatorStopped, RendererStopped, GameStoppedNotified],
                          StreamFile(OfflineCoverFileName), outcome, attempted, fault, guildToHost, config, effects)
      ensures userInputCache == old(userInputCache) && userInputLockedToOwners == old(userInputLockedToOwners)
      ensures globalMessage == old(globalMessage)
    {
      effects := effects + [EmulatorStopped];
      effects := effects + [RendererStopped];
      effects := effects + [GameStoppedNotified];
      gameCurrentlyRunning := false;

      fault, attempted := SendOfflineImage(outcome);
    }

    // -------------------------------------------------------------------------
    // Host registry

    /** Registers a host; a guild that already has one keeps it and the request fails. */
    method AddHost(host: Host) returns (result: Outcome)
      requires Valid()
      modifies this
      ensures Valid()
      ensures host.guild in old(guildToHost) ==>
        result == Fail(HostAlreadyInGuild) && guildToHost == old(guildToHost) && config == old(config)
      ensures host.guild !in old(guildToHost) ==>
        && result == Pass
        && guildToHost == old(guildToHost)[host.guild := host]
        && config == old(config).(hosts := HostIds(guildToHost))
      ensures old(HostsPersisted()) && result == Pass ==> config.hosts == old(config.hosts) + {ToHostId(host)}
      ensures effects == old(effects) && gameCurrentlyRunning == old(gameCurrentlyRunning)
      ensures userInputCache == old(userInputCache) && userInputLockedToOwners == old(userInputLockedToOwners)
      ensures globalMessage == old(globalMessage)
    {
      if host.guild in guildToHost {
        return Fail(HostAlreadyInGuild);
      }
      HostIdsAfterAdd(guildToHost, host);
      guildToHost := guildToHost[host.guild := host];
      SaveHosts();
      result := Pass;
    }

    /** Removes the host of `host`'s guild, if there is one, and persists the map. */
    method RemoveHost(host: Host)
      requires Valid()
      modifies this
      ensures Valid() && HostsPersisted()
      ensures guildToHost == old(guildToHost) - {host.guild}
      ensures config == old(config).(hosts := HostIds(guildToHost))
      ensures old(HostsPersisted()) && host.guild !in old(guildToHost) ==> config == old(config)
      ensures old(HostsPersisted()) && host.guild in old(guildToHost) ==>
        config.hosts == old(config.hosts) - {ToHostId(old(guildToHost)[host.guild])}
      ensures effects == old(effects) && gameCurrentlyRunning == old(gameCurrentlyRunning)
      ensures userInputCache == old(userInputCache) && userInputLockedToOwners == old(userInputLockedToOwners)
      ensures globalMessage == old(globalMessage)
    {
      HostIdsAfterRemove(guildToHost, host.guild);
      guildToHost := guildToHost - {host.guild};
      SaveHosts();
    }

    /** Writes the descriptors of the current hosts into the configuration. */
    method SaveHosts()
      modifies this
      ensures HostsPersisted()
      ensures config == old(config).(hosts := HostIds(guildToHost))
      ensures guildToHost == old(guildToHost) && effects == old(effects)
      ensures gameCurrentlyRunning == old(gameCurrentlyRunning)
      ensures userInputCache == old(userInputCache) && userInputLockedToOwners == old(userInputLockedToOwners)
      ensures globalMessage == old(globalMessage)
    {
      config := config.(hosts := HostIds(guildToHost));
    }

    /**
     * Rebuilds the map from the persisted descriptors: the ones that no longer
     * resolve are dropped, the resolved hosts are filed by guild (a later one
     * replaces an earlier one of the same guild), and the result is persisted.
     */
    method LoadHosts(resolve: HostId -> Option<Host>)
      requires Valid()
      modifies this
      ensures Valid() && HostsPersisted()
      ensures LoadedFrom(guildToHost, old(config.hosts), resolve)
      ensures config == old(config).(hosts := HostIds(guildToHost))
      ensures effects == old(effects) && gameCurrentlyRunning == old(gameCurrentlyRunning)
      ensures userInputCache == old(userInputCache) && userInputLockedToOwners == old(userInputLockedToOwners)
      ensures globalMessage == old(globalMessage)
    {
      var ids := config.hosts;
      var pending := ids;
      var loaded: HostMap := map[];
      while pending != {}
        invariant pending <= ids
        invariant LoadedFrom(loaded, ids - pending, resolve)
        decreases pending
      {
        var id :| id in pending;
        pending := pending - {id};
        match resolve(id) {
          case None =>
          case Some(host) =>
            var next := loaded[host.guild := host];
            forall g | g in next ensures exists id' :: id' in ids - pending && resolve(id') == Some(next[g]) {
              if g == host.guild {
                assert resolve(id) == Some(next[g]);
              } else {
                var id' :| id' in ids - (pending + {id}) && resolve(id') == Some(loaded[g]);
                assert id' in ids - pending;
              }
            }
            loaded := next;
        }
      }
      guildToHost := loaded;
      SaveHosts();
    }

    // -------------------------------------------------------------------------
    // Input

    /** Judges a press at time `now`; only an accepted press is recorded and forwarded. */
    method OnUserInput(input: UserInput, now: int) returns (r: UserInputResult)
      requires Valid()
      modifies this
      ensures Valid()
      ensures r == Admission(old(userInputLockedToOwners), old(config), old(userInputCache), input.user, now)
      ensures userInputCache == RecordInput(old(userInputCache), r, input.user, now)
      ensures effects == old(effects) +
        (if r == Accepted then [InputRecorded(input), ButtonClicked(input.button), InputCounted(input)] else [])
      ensures config == old(config) && guildToHost == old(guildToHost)
      ensures userInputLockedToOwners == old(userInputLockedToOwners) && gameCurrentlyRunning == old(gameCurrentlyRunning)
      ensures globalMessage == old(globalMessage)
    {
      var userId := input.user;

      if userInputLockedToOwners && userId !in config.owners {
        return BlockedNonOwner;
      }

      if userId in config.bannedUsers {
        return UserBanned;
      }

      var timeSinceLastInput := if userId in userInputCache then now - userInputCache[userId] else UserInputRateLimitMs;

      if timeSinceLastInput >= UserInputRateLimitMs {
        effects := effects + [InputRecorded(input)];
        effects := effects + [ButtonClicked(input.button)];

        userInputCache := userInputCache[userId := now];
        effects := effects + [InputCounted(input)];
        return Accepted;
      }
      return RateLimited;
    }

    // -------------------------------------------------------------------------
    // Local display and messages

    /** Switches the local display on (with or without sound) and subscribes it to the stream. */
    method ActivateLocalDisplay(sound: bool)
      modifies this
      ensures effects == old(effects) + [LocalDisplayActivated(sound), StreamConsumerAdded(LocalDisplayConsumer)]
      ensures config == old(config) && guildToHost == old(guildToHost)
      ensures gameCurrentlyRunning == old(gameCurrentlyRunning)
      ensures userInputCache == old(userInputCache) && userInputLockedToOwners == old(userInputLockedToOwners)
      ensures globalMessage == old(globalMessage)
    {
      effects := effects + [LocalDisplayActivated(sound)];
      effects := effects + [StreamConsumerAdded(LocalDisplayConsumer)];
    }

    /** Unsubscribes the local display, switches it off and mutes the emulator. */
    method DeactivateLocalDisplay()
      modifies this
      ensures effects == old(effects) + [StreamConsumerRemoved(LocalDisplayConsumer), LocalDisplayDeactivated, SoundMuted]
      ensures config == old(config) && guildToHost == old(guildToHost)
      ensures gameCurrentlyRunning == old(gameCurrentlyRunning)
      ensures userInputCache == old(userInputCache) && userInputLockedToOwners == old(userInputLockedToOwners)
      ensures globalMessage == old(globalMessage)
    {
      effects := effects + [StreamConsumerRemoved(LocalDisplayConsumer)];
      effects := effects + [LocalDisplayDeactivated];
      effects := effects + [SoundMuted];
    }

    /** Sets (or, with `None`, clears) the message drawn over the stream; an empty text is refused. */
    method SetGlobalMessage(message: Option<string>) returns (result: Outcome)
      modifies this
      ensures message == Some("") ==> result == Fail(EmptyGlobalMessage) && globalMessage == old(globalMessage)
      ensures message != Some("") ==> result == Pass && globalMessage == message
      ensures effects == old(effects) && config == old(config) && guildToHost == old(guildToHost)
      ensures gameCurrentlyRunning == old(gameCurrentlyRunning)
      ensures userInputCache == old(userInputCache) && userInputLockedToOwners == old(userInputLockedToOwners)
    {
      if message.None? {
        globalMessage := None;
      } else {
        if message.value == "" {
          return Fail(EmptyGlobalMessage);
        }
        globalMessage := message;
      }
      result := Pass;
    }

    /**
     * Puts a message (or, with `None`, no message) on the stream message of
     * the guild's host. An empty text is refused before the host is looked up.
     */
    method SetCommunityMessage(guild: Snowflake, message: Option<string>) returns (result: Outcome)
      modifies this
      ensures message == Some("") ==> result == Fail(EmptyCommunityMessage)
      ensures message != Some("") && guild !in guildToHost ==> result == Fail(NoHostInGuild)
      ensures message != Some("") && guild in guildToHost ==> result == Pass
      ensures effects == old(effects) +
        (if result == Pass then [StreamMessageEmbedsSet(guildToHost[guild], CommunityEmbeds(message))] else [])
      ensures config == old(config) && guildToHost == old(guildToHost)
      ensures gameCurrentlyRunning == old(gameCurrentlyRunning) && globalMessage == old(globalMessage)
      ensures userInputCache == old(userInputCache) && userInputLockedToOwners == old(userInputLockedToOwners)
    {
      if message.Some? && message.value == "" {
        return Fail(EmptyCommunityMessage);
      }
      if guild !in guildToHost {
        return Fail(NoHostInGuild);
      }
      var host := guildToHost[guild];

      var edit := new MessageModifyBuilder();
      edit.ClearEmbeds();
      if message.Some? {
        edit.AddEmbed(Embed(None, message.value));
        assert edit.embeds.GetOr([]) == [Embed(None, message.value)];
      }
      assert edit.embeds.GetOr([]) == CommunityEmbeds(message);
      effects := effects + [StreamMessageEmbedsSet(host, edit.embeds.GetOr([]))];
      result := Pass;
    }

    // -------------------------------------------------------------------------
    // Broadcast

    /** A new animation from the stream renderer goes to every host. */
    method AcceptGif(outcome: Host -> DeliveryOutcome) returns (fault: bool, ghost attempted: seq<Host>)
      requires Valid()
      modifies this
      ensures Valid()
      ensures Broadcasted(old(guildToHost), old(config), old(effects), StreamFile(GifFileName), outcome, attempted, fault,
                          guildToHost, config, effects)
      ensures gameCurrentlyRunning == old(gameCurrentlyRunning) && globalMessage == old(globalMessage)
      ensures userInputCache == old(userInputCache) && userInputLockedToOwners == old(userInputLockedToOwners)
    {
      fault, attempted := SendStreamFile(GifFileName, outcome);
    }

    /** The offline cover goes to every host. */
    method SendOfflineImage(outcome: Host -> DeliveryOutcome) returns (fault: bool, ghost attempted: seq<Host>)
      requires Valid()
      modifies this
      ensures Valid()
      ensures Broadcasted(old(guildToHost), old(config), old(effects),
                          StreamFile(OfflineCoverFileName), outcome, attempted, fault, guildToHost, config, effects)
      ensures gameCurrentlyRunning == old(gameCurrentlyRunning) && globalMessage == old(globalMessage)
      ensures userInputCache == old(userInputCache) && userInputLockedToOwners == old(userInputLockedToOwners)
    {
      fault, attempted := SendStreamFile(OfflineCoverFileName, outcome);
    }

    /** Replaces the attachment of every host's stream message with the file `name`. */
    method SendStreamFile(name: string, outcome: Host -> DeliveryOutcome) returns (fault: bool, ghost attempted: seq<Host>)
      requires Valid()
      modifies this
      ensures Valid()
      ensures Broadcasted(old(guildToHost), old(config), old(effects), StreamFile(name), outcome, attempted, fault,
                          guildToHost, config, effects)
      ensures gameCurrentlyRunning == old(gameCurrentlyRunning) && globalMessage == old(globalMessage)
      ensures userInputCache == old(userInputCache) && userInputLockedToOwners == old(userInputLockedToOwners)
    {
      fault, attempted := Broadcast(StreamFile(name), outcome);
    }

    /** New statistics text replaces the embed of every host's chat description message. */
    method AcceptStatistics(stats: string, outcome: Host -> DeliveryOutcome) returns (fault: bool, ghost attempted: seq<Host>)
      requires Valid()
      modifies this
      ensures Valid()
      ensures Broadcasted(old(guildToHost), old(config), old(effects), StatisticsText(stats), outcome, attempted, fault,
                          guildToHost, config, effects)
      ensures gameCurrentlyRunning == old(gameCurrentlyRunning) && globalMessage == old(globalMessage)
      ensures userInputCache == old(userInputCache) && userInputLockedToOwners == old(userInputLockedToOwners)
    {
      fault, attempted := Broadcast(StatisticsText(stats), outcome);
    }

    /**
     * Attempts the edit of every host of the map as it is on entry. A host
     * whose message is gone is removed (and the map persisted); any other
     * failure does not stop the other hosts and is reported through `fault`.
     */
    method Broadcast(payload: Payload, outcome: Host -> DeliveryOutcome) returns (fault: bool, ghost attempted: seq<Host>)
      requires Valid()
      modifies this
      ensures Valid()
      ensures Broadcasted(old(guildToHost), old(config), old(effects), payload, outcome, attempted, fault,
                          guildToHost, config, effects)
      ensures gameCurrentlyRunning == old(gameCurrentlyRunning) && globalMessage == old(globalMessage)
      ensures userInputCache == old(userInputCache) && userInputLockedToOwners == old(userInputLockedToOwners)
    {
      ghost var m0, c0, e0 := guildToHost, config, effects;
      ghost var anyStale := false;
      var remaining := guildToHost.Values;
      fault := false;
      attempted := [];
      while remaining != {}
        invariant Valid()
        invariant FanOutProgress(m0, c0, e0, payload, outcome, remaining, attempted, anyStale, fault,
                                 guildToHost, config, effects)
        invariant gameCurrentlyRunning == old(gameCurrentlyRunning) && globalMessage == old(globalMessage)
        invariant userInputCache == old(userInputCache) && userInputLockedToOwners == old(userInputLockedToOwners)
        decreases remaining
      {
        var host :| host in remaining;
        ghost var m, c, e := guildToHost, config, effects;
        var failed := Deliver(host, payload, outcome);
        FanOutStep(m0, c0, e0, payload, outcome, remaining, attempted, anyStale, fault, m, c, e,
                   host, guildToHost, config, effects);
        remaining := remaining - {host};
        attempted := attempted + [host];
        anyStale := anyStale || outcome(host) == UnknownMessage;
        fault := fault || failed;
      }
      FanOutDone(m0, c0, e0, payload, outcome, attempted, anyStale, fault, guildToHost, config, effects);
    }

    /**
     * The edit of one host's message: a success is recorded, a message that is
     * gone removes the host, any other failure is reported.
     */
    method Deliver(host: Host, payload: Payload, outcome: Host -> DeliveryOutcome) returns (otherFailure: bool)
      requires Valid()
      modifies this
      ensures Valid()
      ensures otherFailure <==> outcome(host) == OtherFailure
      ensures effects == old(effects) + DeliveryOf(host, payload, outcome)
      ensures guildToHost == if outcome(host) == UnknownMessage then old(guildToHost) - {host.guild} else old(guildToHost)
      ensures config == if outcome(host) == UnknownMessage then old(config).(hosts := HostIds(guildToHost)) else old(config)
      ensures gameCurrentlyRunning == old(gameCurrentlyRunning) && globalMessage == old(globalMessage)
      ensures userInputCache == old(userInputCache) && userInputLockedToOwners == old(userInputLockedToOwners)
    {
      otherFailure := false;
      match outcome(host) {
        case Ok =>
          effects := effects + [Delivered(host, payload)];
        case UnknownMessage =>
          RemoveHost(host);
        case OtherFailure =>
          otherFailure := true;
      }
    }
  }
}

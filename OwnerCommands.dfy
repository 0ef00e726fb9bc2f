/**
 * The `/owner` subcommands. Each one first runs the owner gate and returns
 * without touching anything for a non-owner; otherwise it makes its edit on
 * the configuration or on the bot and replies to the invoker.
 */
module OwnerCommands {
  import opened Entities
  import opened Configuration
  import opened CommandExtensions
  import opened Effects
  import opened InputGate
  import opened HostRegistry
  import opened Bot

  /** A user given as a command argument. */
  datatype User = User(id: Snowflake, fullName: string)

  /** The game metadata the `game-metadata` subcommand can change. */
  datatype GameMetadataEntity = RomPath | Title {
    /** The name under which the entity is offered as a choice. */
    function Name(): string
    {
      match this
      case RomPath => "ROM_PATH"
      case Title => "TITLE"
    }
  }

  /** Why a subcommand ended without its reply. */
  datatype CommandError =
    /** The bot refused the request (its `require` failed). */
    | Refused(error: BotError)
    /** A broadcast failed with an error other than a deleted message. */
    | TransportFault
    /** The guild has no host command to mention. */
    | HostCommandMissing

  datatype CommandResult = Done | Aborted(error: CommandError)

  /** The bot's state is exactly as it was. */
  twostate predicate BotUnchanged(bot: DiscordBot)
    reads bot
  {
    && bot.config == old(bot.config)
    && bot.guildToHost == old(bot.guildToHost)
    && bot.userInputCache == old(bot.userInputCache)
    && bot.userInputLockedToOwners == old(bot.userInputLockedToOwners)
    && bot.gameCurrentlyRunning == old(bot.gameCurrentlyRunning)
    && bot.globalMessage == old(bot.globalMessage)
    && bot.effects == old(bot.effects)
  }

  /** Everything of the bot but its configuration is as it was. */
  twostate predicate OnlyConfigChanged(bot: DiscordBot)
    reads bot
  {
    && bot.guildToHost == old(bot.guildToHost)
    && bot.userInputCache == old(bot.userInputCache)
    && bot.userInputLockedToOwners == old(bot.userInputLockedToOwners)
    && bot.gameCurrentlyRunning == old(bot.gameCurrentlyRunning)
    && bot.globalMessage == old(bot.globalMessage)
    && bot.effects == old(bot.effects)
  }

  /** `start`: starts the game and points the invoker to the host command. */
  method Start(event: CommandEvent, bot: DiscordBot, resolve: HostId -> Option<Host>,
               guildCommands: seq<ApplicationCommand>, hostCommandName: string, streamSubcommandName: string)
    returns (result: CommandResult)
    requires bot.Valid()
    modifies event, bot
    ensures bot.Valid()
    ensures event.author !in old(bot.config.owners) ==>
      result == Done && BotUnchanged(bot) && event.responses == old(event.responses) + [OwnersOnlyReply]
    ensures event.author in old(bot.config.owners) ==>
      && bot.gameCurrentlyRunning
      && bot.HostsPersisted()
      && LoadedFrom(bot.guildToHost, old(bot.config.hosts), resolve)
      && bot.config == old(bot.config).(hosts := HostIds(bot.guildToHost))
      && bot.userInputCache == old(bot.userInputCache)
      && bot.userInputLockedToOwners == old(bot.userInputLockedToOwners)
      && bot.globalMessage == old(bot.globalMessage)
      && bot.effects == old(bot.effects) + [EmulatorStarted, RendererStarted, GameStartedNotified]
      && match MentionCommandOrNull(guildCommands, hostCommandName, hostCommandName + " " + streamSubcommandName)
         case None =>
           result == Aborted(HostCommandMissing) && event.responses == old(event.responses)
         case Some(mention) =>
           && result == Done
           && event.responses == old(event.responses) +
                ["Game emulation started. Stream is ready, use " + mention + " to host it."]
  {
    var denied := event.RequireOwnerPermission(bot.config);
    if denied {
      return Done;
    }

    bot.StartGame(resolve);

    var streamCommand := MentionCommandOrNull(guildCommands, hostCommandName, hostCommandName + " " + streamSubcommandName);
    if streamCommand.None? {
      return Aborted(HostCommandMissing);
    }
    event.Respond("Game emulation started. Stream is ready, use " + streamCommand.value + " to host it.");
    result := Done;
  }

  /** `stop`: stops the game (which broadcasts the offline cover). */
  method Stop(event: CommandEvent, bot: DiscordBot, outcome: Host -> DeliveryOutcome)
    returns (result: CommandResult, ghost attempted: seq<Host>)
    requires bot.Valid()
    modifies event, bot
    ensures bot.Valid()
    ensures event.author !in old(bot.config.owners) ==>
      result == Done && BotUnchanged(bot) && event.responses == old(event.responses) + [OwnersOnlyReply]
    ensures event.author in old(bot.config.owners) ==>
      && !bot.gameCurrentlyRunning
      && bot.userInputCache == old(bot.userInputCache)
      && bot.userInputLockedToOwners == old(bot.userInputLockedToOwners)
      && bot.globalMessage == old(bot.globalMessage)
      && Broadcasted(old(bot.guildToHost), old(bot.config),
                     old(bot.effects) + [EmulatorStopped, RendererStopped, GameStoppedNotified],
                     StreamFile(OfflineCoverFileName), outcome, attempted, result == Aborted(TransportFault),
                     bot.guildToHost, bot.config, bot.effects)
      && (result == Done ==> event.responses == old(event.responses) + ["Game emulation stopped."])
      && (result != Done ==> result == Aborted(TransportFault) && event.responses == old(event.responses))
  {
    attempted := [];
    var denied := event.RequireOwnerPermission(bot.config);
    if denied {
      return Done, attempted;
    }

    var fault;
    fault, attempted := bot.StopGame(outcome);
    if fault {
      return Aborted(TransportFault), attempted;
    }
    event.Respond("Game emulation stopped.");
    result := Done;
  }

  /** `lock-input`: restricts input to owners, or lifts the restriction. */
  method LockInput(event: CommandEvent, bot: DiscordBot, lock: bool)
    modifies event, bot
    ensures event.author !in old(bot.config.owners) ==>
      BotUnchanged(bot) && event.responses == old(event.responses) + [OwnersOnlyReply]
    ensures event.author in old(bot.config.owners) ==>
      && bot.userInputLockedToOwners == lock
      && bot.config == old(bot.config) && bot.guildToHost == old(bot.guildToHost)
      && bot.userInputCache == old(bot.userInputCache) && bot.gameCurrentlyRunning == old(bot.gameCurrentlyRunning)
      && bot.globalMessage == old(bot.globalMessage) && bot.effects == old(bot.effects)
      && event.responses == old(event.responses) + [(if lock then "Locked" else "Unlocked") + " user input."]
  {
    var denied := event.RequireOwnerPermission(bot.config);
    if denied {
      return;
    }

    bot.userInputLockedToOwners := lock;

    var actionVerb := if lock then "Locked" else "Unlocked";
    event.Respond(actionVerb + " user input.");
  }

  /** `local-display`: switches the local display on (sound optional, off by default) or off. */
  method LocalDisplay(event: CommandEvent, bot: DiscordBot, activate: bool, soundArgument: Option<bool>)
    modifies event, bot
    ensures event.author !in old(bot.config.owners) ==>
      BotUnchanged(bot) && event.responses == old(event.responses) + [OwnersOnlyReply]
    ensures event.author in old(bot.config.owners) ==>
      var sound := soundArgument.GetOr(false);
      && bot.effects == old(bot.effects) +
           (if activate then [LocalDisplayActivated(sound), StreamConsumerAdded(LocalDisplayConsumer)]
            else [StreamConsumerRemoved(LocalDisplayConsumer), LocalDisplayDeactivated, SoundMuted])
      && bot.config == old(bot.config) && bot.guildToHost == old(bot.guildToHost)
      && bot.userInputCache == old(bot.userInputCache) && bot.gameCurrentlyRunning == old(bot.gameCurrentlyRunning)
      && bot.userInputLockedToOwners == old(bot.userInputLockedToOwners) && bot.globalMessage == old(bot.globalMessage)
      && event.responses == old(event.responses) +
           [(if activate then "Activated" else "Deactivated") + " local display "
            + (if sound then "with" else "without") + " sound."]
  {
    var denied := event.RequireOwnerPermission(bot.config);
    if denied {
      return;
    }

    var sound := soundArgument.GetOr(false);
    if activate {
      bot.ActivateLocalDisplay(sound);
    } else {
      bot.DeactivateLocalDisplay();
    }

    var activateVerb := if activate then "Activated" else "Deactivated";
    var soundVerb := if sound then "with" else "without";
    event.Respond(activateVerb + " local display " + soundVerb + " sound.");
  }

  /** `global-message`: sets the stream's global message; leaving the argument out clears it. */
  method GlobalMessage(event: CommandEvent, bot: DiscordBot, message: Option<string>) returns (result: CommandResult)
    modifies event, bot
    ensures event.author !in old(bot.config.owners) ==>
      result == Done && BotUnchanged(bot) && event.responses == old(event.responses) + [OwnersOnlyReply]
    ensures event.author in old(bot.config.owners) && message == Some("") ==>
      result == Aborted(Refused(EmptyGlobalMessage)) && BotUnchanged(bot) && event.responses == old(event.responses)
    ensures event.author in old(bot.config.owners) && message != Some("") ==>
      && result == Done
      && bot.globalMessage == message
      && bot.config == old(bot.config) && bot.guildToHost == old(bot.guildToHost)
      && bot.userInputCache == old(bot.userInputCache) && bot.gameCurrentlyRunning == old(bot.gameCurrentlyRunning)
      && bot.userInputLockedToOwners == old(bot.userInputLockedToOwners) && bot.effects == old(bot.effects)
      && event.responses == old(event.responses) + [(if message.None? then "Cleared" else "Set") + " the global message."]
  {
    var denied := event.RequireOwnerPermission(bot.config);
    if denied {
      return Done;
    }

    var outcome := bot.SetGlobalMessage(message);
    if outcome.Fail? {
      return Aborted(Refused(outcome.error));
    }

    var actionVerb := if message.None? then "Cleared" else "Set";
    event.Respond(actionVerb + " the global message.");
    result := Done;
  }

  /** `add-owner`: grants owner permission; granting it twice changes nothing. */
  method AddOwner(event: CommandEvent, bot: DiscordBot, user: User)
    modifies event, bot
    ensures event.author !in old(bot.config.owners) ==>
      BotUnchanged(bot) && event.responses == old(event.responses) + [OwnersOnlyReply]
    ensures event.author in old(bot.config.owners) ==>
      && bot.config == old(bot.config).(owners := old(bot.config.owners) + {user.id})
      && OnlyConfigChanged(bot)
      && event.responses == old(event.responses) + ["Added " + user.fullName + " to the owners."]
    ensures user.id in old(bot.config.owners) ==> bot.config == old(bot.config)
  {
    var denied := event.RequireOwnerPermission(bot.config);
    if denied {
      return;
    }

    bot.config := bot.config.(owners := WithElement(bot.config.owners, user.id));

    event.Respond("Added " + user.fullName + " to the owners.");
  }

  /** `game-metadata`: changes the ROM path or the game title, and nothing else. */
  method GameMetadata(event: CommandEvent, bot: DiscordBot, entity: GameMetadataEntity, value: string)
    modifies event, bot
    ensures event.author !in old(bot.config.owners) ==>
      BotUnchanged(bot) && event.responses == old(event.responses) + [OwnersOnlyReply]
    ensures event.author in old(bot.config.owners) ==>
      && bot.config == (match entity
                        case RomPath => old(bot.config).(romPath := value)
                        case Title => old(bot.config).(gameTitle := value))
      && OnlyConfigChanged(bot)
      && event.responses == old(event.responses) + ["Changed metadata " + entity.Name() + " to " + value]
  {
    var denied := event.RequireOwnerPermission(bot.config);
    if denied {
      return;
    }

    match entity {
      case RomPath => bot.config := bot.config.(romPath := value);
      case Title => bot.config := bot.config.(gameTitle := value);
    }

    event.Respond("Changed metadata " + entity.Name() + " to " + value);
  }

  /**
   * `ban`, as written: an owner is told that owners cannot be banned, and is
   * then banned all the same, since the check does not return.
   */
  method Ban(event: CommandEvent, bot: DiscordBot, user: User)
    modifies event, bot
    ensures event.author !in old(bot.config.owners) ==>
      BotUnchanged(bot) && event.responses == old(event.responses) + [OwnersOnlyReply]
    ensures event.author in old(bot.config.owners) ==>
      && bot.config == old(bot.config).(bannedUsers := old(bot.config.bannedUsers) + {user.id})
      && OnlyConfigChanged(bot)
      && event.responses == old(event.responses) +
           (if user.id in old(bot.config.owners) then ["Cannot ban an owner of the event."] else [])
           + ["Banned " + user.fullName + " from the event."]
  {
    var denied := event.RequireOwnerPermission(bot.config);
    if denied {
      return;
    }

    var userId := user.id;
    if userId in bot.config.owners {
      event.Respond("Cannot ban an owner of the event.");
    }

    bot.config := bot.config.(bannedUsers := WithElement(bot.config.bannedUsers, userId));

    event.Respond("Banned " + user.fullName + " from the event.");
  }

  /** `ban` as intended: an owner is refused and nothing changes. */
  method BanNonOwner(event: CommandEvent, bot: DiscordBot, user: User)
    modifies event, bot
    ensures event.author !in old(bot.config.owners) ==>
      BotUnchanged(bot) && event.responses == old(event.responses) + [OwnersOnlyReply]
    ensures event.author in old(bot.config.owners) && user.id in old(bot.config.owners) ==>
      BotUnchanged(bot) && event.responses == old(event.responses) + ["Cannot ban an owner of the event."]
    ensures event.author in old(bot.config.owners) && user.id !in old(bot.config.owners) ==>
      && bot.config == old(bot.config).(bannedUsers := old(bot.config.bannedUsers) + {user.id})
      && OnlyConfigChanged(bot)
      && event.responses == old(event.responses) + ["Banned " + user.fullName + " from the event."]
    ensures bot.config.owners == old(bot.config.owners)
    ensures bot.config.bannedUsers * bot.config.owners == old(bot.config.bannedUsers) * old(bot.config.owners)
  {
    var denied := event.RequireOwnerPermission(bot.config);
    if denied {
      return;
    }

    var userId := user.id;
    if userId in bot.config.owners {
      event.Respond("Cannot ban an owner of the event.");
      return;
    }

    bot.config := bot.config.(bannedUsers := WithElement(bot.config.bannedUsers, userId));

    event.Respond("Banned " + user.fullName + " from the event.");
  }

  /** `clear-stats`: resets the play time and the per-user input counts. */
  method ClearStats(event: CommandEvent, bot: DiscordBot)
    modifies event, bot
    ensures event.author !in old(bot.config.owners) ==>
      BotUnchanged(bot) && event.responses == old(event.responses) + [OwnersOnlyReply]
    ensures event.author in old(bot.config.owners) ==>
      && bot.config == old(bot.config).(playtimeMs := 0, userToInputCount := [])
      && OnlyConfigChanged(bot)
      && event.responses == old(event.responses) + ["Cleared all statistics."]
  {
    var denied := event.RequireOwnerPermission(bot.config);
    if denied {
      return;
    }

    bot.config := bot.config.(playtimeMs := 0, userToInputCount := []);

    event.Respond("Cleared all statistics.");
  }

  /**
   * The as-written `ban` locks an owner out of the game: after an owner bans
   * the default owner, that owner's next press is rejected as banned, even
   * while input is locked to owners.
   */
  lemma BannedOwnerIsLockedOut(cache: InputCache, now: int)
    ensures var banned := DefaultConfig().(bannedUsers := DefaultConfig().bannedUsers + {DefaultOwner});
            && DefaultOwner in banned.owners
            && Admission(true, banned, cache, DefaultOwner, now) == UserBanned
            && Admission(false, banned, cache, DefaultOwner, now) == UserBanned
  {
  }

  /** Under the corrected `ban`, an owner is never banned, so the lock always lets owners through. */
  lemma OwnerNeverBlocked(config: Config, cache: InputCache, user: Snowflake, now: int)
    requires config.owners !! config.bannedUsers
    requires user in config.owners
    ensures Admission(true, config, cache, user, now) == Admission(false, config, cache, user, now)
    ensures Admission(true, config, cache, user, now) in {Accepted, RateLimited}
  {
  }
}

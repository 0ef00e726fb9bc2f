# Discord Plays: session control, modelled in Dafny

This project models the session-control core of the Discord Plays bot, the bot that lets the members of several
Discord guilds play one emulated Game Boy game together. It covers:

- the **input gate** that decides whether a button press is admitted: the owner lock first, then the ban list, then a
  per-user rate limit of 1.5 seconds over a table of last accepted input times. Presses are judged one at a
  time, and the spacing they guarantee assumes that no entry was evicted for lack of room;
- the **host registry**, which holds at most one broadcast destination ("host") per guild and persists it into the
  configuration after every change, and its rebuild from the persisted descriptors when a game starts;
- the **broadcast fan-out**, which pushes stream images and statistics to every host. A host whose message is gone
  ("UnknownMessage") is removed. Any other failure is passed on;
- the **game lifecycle** (start/stop) and the **message setters** (global message, community message, local display);
- the **owner commands** (`/owner start`, `stop`, `lock-input`, `local-display`, `global-message`, `add-owner`,
  `game-metadata`, `ban`, `clear-stats`), each gated by the owner check;
- the **command helpers**: the owner gate, the mention string of a guild command, and the clearing of a message's
  embeds;
- the persisted **configuration** record and its defaults.

Modules, one per file:

- `Entities`: snowflakes, message references, `Host` and its persisted form `HostId`, user input.
- `Configuration`: the `Config` record, its defaults, set insertion.
- `CommandExtensions`: the owner gate, `mentionCommandOrNull` including the decimal rendering of an id, and the
  message-edit builder.
- `InputGate`: the admission policy as a function. It also holds sequences of presses, expiry and eviction.
- `Effects`: the calls the bot makes on its collaborators, logged in order.
- `HostRegistry`: the host map as a value. It covers persistence, the rebuild, and what one broadcast does to the map.
- `Bot`: the `DiscordBot` class (`DiscordBot.kt`).
- `OwnerCommands`: the subcommands (`OwnerCommands.kt`).

Calls into code outside the model are parameters:

- The delivery outcome of each host's message edit is an oracle `outcome: Host -> DeliveryOutcome`.
- The network lookup that turns a persisted `HostId` back into a live host is a partial resolver
  `resolve: HostId -> Option<Host>`.
- The current time is an integer number of milliseconds `now`.
- The list of a guild's application commands is a `seq<ApplicationCommand>`.

The emulator, stream renderer, overlay renderer, statistics and local display appear only as entries of the
`effects` log, in the order they are called. Replies to the invoker of a command are the `responses` of a
`CommandEvent`.

Where the bot throws (`require`, `requireNotNull`, a rethrown request failure, the `!!` on a missing command), the
model returns an error value instead: `Outcome.Fail`, `fault`, `CommandResult.Aborted`. The state changes made
before the throw are kept, as they are in the program.

Behaviour of the code that a reader might not expect (the model follows the code):

- `startGame` and `stopGame` do not check whether a game is already running.
- The rate-limit window is a constant (1.5 s), not a setting.
- `ban` bans owners too; see "## Findings".
- Adding a host before any game was started persists only the hosts in the map. Descriptors that have not been
  loaded yet are dropped from the configuration.
- `Config.kt` does not declare `playtimeMs` and `userToInputCount`, but `clear-stats` writes them. The record here
  has both fields, with defaults 0 and empty.

## Model

| member | source | states |
|---|---|---|
| Configuration.DefaultConfig | src/main/kotlin/io/github/zabuzard/discordplays/Config.kt:8-15 | a fresh configuration has ROM "Pokemon Red TPP.gb" and title "Pokemon Red", exactly the one owner 157994153806921728, no banned users and no hosts, so no owner starts out banned |
| Configuration.WithElement | src/main/kotlin/io/github/zabuzard/discordplays/Config.kt:12-14 | adding to a configuration set adds exactly that element, and re-adding an element already present changes nothing |
| Entities.ToHostIdInjective | src/main/kotlin/io/github/zabuzard/discordplays/discord/DiscordBot.kt:217-219 | the projection of a host to its persisted descriptor is injective, so `toSet` in `saveHosts` loses no host, given that a live host is identified by its message ids |
| CommandExtensions.DigitChar | src/main/kotlin/io/github/zabuzard/discordplays/discord/commands/CommandExtensions.kt:14 | every digit of an interpolated id is a decimal digit character |
| CommandExtensions.DecimalString | src/main/kotlin/io/github/zabuzard/discordplays/discord/commands/CommandExtensions.kt:14 | the id interpolated into a mention is a nonempty string of decimal digits with no leading zero |
| CommandExtensions.DecimalRoundTrip | src/main/kotlin/io/github/zabuzard/discordplays/discord/commands/CommandExtensions.kt:14 | reading the rendered id back gives the id |
| CommandExtensions.DecimalStringInjective | src/main/kotlin/io/github/zabuzard/discordplays/discord/commands/CommandExtensions.kt:14 | two distinct commands never get the same id text in a mention |
| CommandExtensions.FindByName | src/main/kotlin/io/github/zabuzard/discordplays/discord/commands/CommandExtensions.kt:12 | `find` returns nothing iff no command has exactly that name, and otherwise returns the first command in list order with that name |
| CommandExtensions.MentionCommandOrNull | src/main/kotlin/io/github/zabuzard/discordplays/discord/commands/CommandExtensions.kt:11-14 | null iff no guild command is named `commandName`; otherwise `"</" + fullCommandQuery + ":" + id + ">"` with the id of the first match |
| CommandExtensions.CommandEvent.Respond | src/main/kotlin/io/github/zabuzard/discordplays/discord/commands/CommandExtensions.kt:19 | a reply is appended to what the invoker has been told |
| CommandExtensions.CommandEvent.RequireOwnerPermission | src/main/kotlin/io/github/zabuzard/discordplays/discord/commands/CommandExtensions.kt:16-21 | returns false (proceed) iff the author is an owner; a non-owner gets exactly one "only owners" reply, an owner none |
| CommandExtensions.MessageModifyBuilder.AddEmbed | src/main/kotlin/io/github/zabuzard/discordplays/discord/commands/CommandExtensions.kt:24 | adding an embed creates the embed list if it is missing and appends to it |
| CommandExtensions.MessageModifyBuilder.ClearEmbeds | src/main/kotlin/io/github/zabuzard/discordplays/discord/commands/CommandExtensions.kt:23-26 | after `clearEmbeds` the edit carries an empty embed list, so it removes every embed of the message |
| InputGate.Admission | src/main/kotlin/io/github/zabuzard/discordplays/discord/DiscordBot.kt:91-119 | the lock blocks a non-owner whatever the ban list and table say; a banned user is rejected before any rate check; a user without an entry passes the rate check; with an entry a press is accepted iff at least 1500 ms have passed (exactly 1500 ms is accepted) |
| InputGate.AcceptedEntryPersists | src/main/kotlin/io/github/zabuzard/discordplays/discord/DiscordBot.kt:102-117 | once a press is accepted, its user's entry in the table is never older than that press again, whatever is judged later and whatever lock, ban or owner changes come in between, as long as presses are judged one at a time and the entry is not evicted |
| InputGate.AcceptedInputsAreSpaced | src/main/kotlin/io/github/zabuzard/discordplays/discord/DiscordBot.kt:105-117 | two accepted presses of one user are at least 1500 ms apart, in any order of the presses of all users and across any lock, ban or owner changes between presses (each press is judged under the lock and configuration in force at that moment), when presses are judged one at a time and the entry is not evicted |
| InputGate.RateLimitScenario | src/main/kotlin/io/github/zabuzard/discordplays/discord/DiscordBot.kt:105-117 | presses at 0 ms, 1000 ms and 1600 ms are accepted, rate limited and accepted |
| InputGate.Expired | src/main/kotlin/io/github/zabuzard/discordplays/discord/DiscordBot.kt:41-44 | expiry keeps exactly the entries written less than 10 s ago, unchanged |
| InputGate.ExpiryNeverChangesVerdict | src/main/kotlin/io/github/zabuzard/discordplays/discord/DiscordBot.kt:41-44 | the 10 s expiry never changes a verdict, because an expired entry is older than the 1.5 s window anyway |
| InputGate.EvictionOnlyRelaxes | src/main/kotlin/io/github/zabuzard/discordplays/discord/DiscordBot.kt:41-44 | dropping any entries (size-bounded eviction) never turns an accepted press into a rejected one |
| HostRegistry.HostIdsAfterAdd | src/main/kotlin/io/github/zabuzard/discordplays/discord/DiscordBot.kt:72-77 | filing a host under a guild that had none adds exactly its descriptor to the persisted set |
| HostRegistry.HostIdsAfterRemove | src/main/kotlin/io/github/zabuzard/discordplays/discord/DiscordBot.kt:79-82 | removing a guild's host removes exactly that host's descriptor from the persisted set, and removing an absent guild changes nothing |
| HostRegistry.ReloadAfterSaveRestores | src/main/kotlin/io/github/zabuzard/discordplays/discord/DiscordBot.kt:217-224 | saving the map and rebuilding it gives back exactly the saved map when every host still resolves |
| HostRegistry.ReloadOnlyDrops | src/main/kotlin/io/github/zabuzard/discordplays/discord/DiscordBot.kt:221-224 | with a resolver that returns the host a descriptor describes, the rebuilt map persists only descriptors it was loaded from |
| HostRegistry.Survivors | src/main/kotlin/io/github/zabuzard/discordplays/discord/DiscordBot.kt:172-191 | after a broadcast a guild keeps its host iff that host's message was not gone, and the kept hosts are unchanged |
| HostRegistry.SurvivorCount | src/main/kotlin/io/github/zabuzard/discordplays/discord/DiscordBot.kt:172-191 | a broadcast removes exactly as many hosts as there were messages gone |
| HostRegistry.DeliveriesReachExactlyTheHealthy | src/main/kotlin/io/github/zabuzard/discordplays/discord/DiscordBot.kt:172-215 | a broadcast delivers the payload to a host iff it attempted the host and the edit succeeded, and it delivers nothing else |
| HostRegistry.DeliveriesOnceEach | src/main/kotlin/io/github/zabuzard/discordplays/discord/DiscordBot.kt:174-189 | when no host is attempted twice, no host receives the payload twice |
| Bot.FanOutStep | src/main/kotlin/io/github/zabuzard/discordplays/discord/DiscordBot.kt:174-189 | one more attempted host keeps the loop's account: only a gone message removes and re-persists, only a success is delivered, only another failure raises the fault |
| Bot.FanOutDone | src/main/kotlin/io/github/zabuzard/discordplays/discord/DiscordBot.kt:173-191 | when every host of the snapshot is attempted, the loop's account is the whole broadcast |
| Bot.AttemptedOneMore | src/main/kotlin/io/github/zabuzard/discordplays/discord/DiscordBot.kt:176-187 | what attempting one host adds: its delivery on success, its removal on a gone message, a fault on any other failure |
| Bot.PrunedAll | src/main/kotlin/io/github/zabuzard/discordplays/discord/DiscordBot.kt:174-189 | after every host of the snapshot, the hosts removed one by one are exactly those whose message is gone |
| Bot.DiscordBot.constructor | src/main/kotlin/io/github/zabuzard/discordplays/discord/DiscordBot.kt:31-52 | no hosts, an empty table, unlocked, not running, no global message (the renderer's starting state); the bot subscribes to the stream renderer and then to the statistics |
| Bot.DiscordBot.StartGame | src/main/kotlin/io/github/zabuzard/discordplays/discord/DiscordBot.kt:54-61 | rebuilds the host map from the persisted descriptors and persists it, then starts emulator, renderer and statistics in that order and marks the game running, whatever its prior state |
| Bot.DiscordBot.StopGame | src/main/kotlin/io/github/zabuzard/discordplays/discord/DiscordBot.kt:63-70 | stops emulator, renderer and statistics in that order and marks the game stopped, whatever its prior state; only then broadcasts the offline cover "stream.png" |
| Bot.DiscordBot.AddHost | src/main/kotlin/io/github/zabuzard/discordplays/discord/DiscordBot.kt:72-77 | fails and changes nothing when the guild has a host; otherwise the map gains exactly that entry and the persisted hosts are the map's descriptors, i.e. the old ones plus the new one |
| Bot.DiscordBot.RemoveHost | src/main/kotlin/io/github/zabuzard/discordplays/discord/DiscordBot.kt:79-82 | deletes only that guild's entry (nothing if it is absent) and re-persists, so the persisted hosts mirror the map |
| Bot.DiscordBot.SaveHosts | src/main/kotlin/io/github/zabuzard/discordplays/discord/DiscordBot.kt:217-219 | the persisted hosts become exactly the descriptors of the hosts in the map; no other state changes |
| Bot.DiscordBot.LoadHosts | src/main/kotlin/io/github/zabuzard/discordplays/discord/DiscordBot.kt:221-224 | the map holds only hosts some persisted descriptor resolved to, filed under their own guild, with a host for every guild a descriptor resolved into; the persisted hosts then mirror the map |
| Bot.DiscordBot.OnUserInput | src/main/kotlin/io/github/zabuzard/discordplays/discord/DiscordBot.kt:91-119 | the verdict is the admission policy; only an accepted press writes its time into the table and calls overlay, emulator and statistics, once each and in that order; any other verdict changes nothing |
| Bot.DiscordBot.ActivateLocalDisplay | src/main/kotlin/io/github/zabuzard/discordplays/discord/DiscordBot.kt:121-124 | activates the display with the given sound setting, then subscribes it to the stream |
| Bot.DiscordBot.DeactivateLocalDisplay | src/main/kotlin/io/github/zabuzard/discordplays/discord/DiscordBot.kt:126-130 | unsubscribes the display, deactivates it and mutes the emulator, in that order |
| Bot.DiscordBot.SetGlobalMessage | src/main/kotlin/io/github/zabuzard/discordplays/discord/DiscordBot.kt:132-141 | null clears the message, a nonempty text sets it, an empty text is refused and leaves the message as it was |
| Bot.DiscordBot.SetCommunityMessage | src/main/kotlin/io/github/zabuzard/discordplays/discord/DiscordBot.kt:143-160 | an empty text is refused before the host lookup; a guild without a host is refused; otherwise the host's stream message loses all its embeds and gets the one message embed (none for null) |
| Bot.DiscordBot.AcceptGif | src/main/kotlin/io/github/zabuzard/discordplays/discord/DiscordBot.kt:166-167 | a new animation is broadcast as "image.gif" to every host |
| Bot.DiscordBot.SendOfflineImage | src/main/kotlin/io/github/zabuzard/discordplays/discord/DiscordBot.kt:169-170 | the offline cover is broadcast as "stream.png" to every host |
| Bot.DiscordBot.SendStreamFile | src/main/kotlin/io/github/zabuzard/discordplays/discord/DiscordBot.kt:172-191 | every host of the snapshot is attempted once; exactly the hosts whose message is gone are removed (and the map re-persisted); successes are delivered; a fault is reported iff some other failure occurred |
| Bot.DiscordBot.AcceptStatistics | src/main/kotlin/io/github/zabuzard/discordplays/discord/DiscordBot.kt:193-215 | the statistics text goes to every host's chat description message with the same removal and failure rules as a stream file |
| Bot.DiscordBot.Broadcast | src/main/kotlin/io/github/zabuzard/discordplays/discord/DiscordBot.kt:173-190 | the shared fan-out: every host of the snapshot attempted once; removed iff its message is gone; delivered iff the edit succeeded; faulted iff some other failure |
| Bot.DiscordBot.Deliver | src/main/kotlin/io/github/zabuzard/discordplays/discord/DiscordBot.kt:176-187 | one host's edit: a success is recorded, a gone message removes the host and re-persists, any other failure is reported and changes nothing |
| OwnerCommands.Start | src/main/kotlin/io/github/zabuzard/discordplays/discord/commands/OwnerCommands.kt:36-56 | a non-owner is refused and nothing changes; otherwise the game is started (the host map rebuilt and persisted; the rest of the configuration, the input table, the lock and the global message unchanged), and the reply mentions the stream subcommand, or the command aborts without a reply (the game still started) when the guild has no host command |
| OwnerCommands.Stop | src/main/kotlin/io/github/zabuzard/discordplays/discord/commands/OwnerCommands.kt:58-67 | a non-owner is refused and nothing changes; otherwise the game is stopped with its broadcast (the input table, the lock and the global message unchanged), and "Game emulation stopped." is replied iff no other delivery failure occurred |
| OwnerCommands.LockInput | src/main/kotlin/io/github/zabuzard/discordplays/discord/commands/OwnerCommands.kt:69-79 | a non-owner is refused and nothing changes; otherwise the lock is exactly the argument, and nothing else changes |
| OwnerCommands.LocalDisplay | src/main/kotlin/io/github/zabuzard/discordplays/discord/commands/OwnerCommands.kt:81-100 | a non-owner is refused and nothing changes; otherwise the display is activated with the sound argument (false when left out) or deactivated, and the reply names both |
| OwnerCommands.GlobalMessage | src/main/kotlin/io/github/zabuzard/discordplays/discord/commands/OwnerCommands.kt:102-117 | a non-owner is refused and nothing changes; a left-out argument clears the message, a text is passed through; an empty text aborts without a reply or change |
| OwnerCommands.AddOwner | src/main/kotlin/io/github/zabuzard/discordplays/discord/commands/OwnerCommands.kt:133-145 | a non-owner is refused and nothing changes; otherwise the user joins the owners, nothing else changes, and adding an existing owner leaves the configuration as it was |
| OwnerCommands.GameMetadata | src/main/kotlin/io/github/zabuzard/discordplays/discord/commands/OwnerCommands.kt:147-171 | a non-owner is refused and nothing changes; ROM_PATH changes only the ROM path, TITLE only the title |
| OwnerCommands.Ban | src/main/kotlin/io/github/zabuzard/discordplays/discord/commands/OwnerCommands.kt:173-190 | a non-owner is refused and nothing changes; otherwise the user is banned always, an owner too, after the "Cannot ban an owner" reply |
| OwnerCommands.BanNonOwner | src/main/kotlin/io/github/zabuzard/discordplays/discord/commands/OwnerCommands.kt:173-190 | corrected `ban`: an owner target is refused with no change; the owners never change, and no owner becomes banned |
| OwnerCommands.ClearStats | src/main/kotlin/io/github/zabuzard/discordplays/discord/commands/OwnerCommands.kt:208-222 | a non-owner is refused and nothing changes; otherwise the play time becomes 0 and the per-user counts empty, and nothing else changes |
| OwnerCommands.BannedOwnerIsLockedOut | src/main/kotlin/io/github/zabuzard/discordplays/discord/commands/OwnerCommands.kt:179-183 | after the as-written `ban` of the default owner, that owner's presses are rejected as banned, even with input locked to owners |
| OwnerCommands.OwnerNeverBlocked | src/main/kotlin/io/github/zabuzard/discordplays/discord/DiscordBot.kt:94-100 | while no owner is banned, which the corrected `ban` preserves but `add-owner` of a banned user does not, the lock never changes an owner's verdict and an owner is never blocked or banned |

## Left out

- `Main.kt` (bootstrap, token, exception logging) is not part of this model.
- `MessageId.kt` is not part of this model. Resolving a persisted descriptor to live messages is a network lookup;
  it is the resolver parameter of `LoadHosts`/`StartGame`.
- Coroutine concurrency of the fan-out is not modelled. Hosts are attempted one after another in an unspecified
  order. When one edit fails with another error, the program cancels the sibling edits still in flight. The model
  attempts them all and reports the failure at the end. The shared input stream read by several edits is not modelled.
- The Caffeine cache's internals (LRU choice, maximum size 1000) are not modelled. Eviction is any dropping of
  entries, and `EvictionOnlyRelaxes` shows that it can only admit more. Expiry is modelled by `Expired`.
- Image and animation bytes, resource loading, embed rendering and presence updates (`editPresence`) are not
  modelled. A payload is its file name or statistics text.
- The `save`, `log-level` and `create-video` subcommands are not modelled: they are a DM conversation, log4j
  configuration and an ffmpeg process.
- The `chat-message` subcommand is not modelled. It calls `sendChatMessage`, which `DiscordBot.kt` does not define.
- `Duration` and `Instant` are integer milliseconds.
- The network request of `setCommunityMessage`'s edit is always taken to succeed.
- The Administrator permission that Discord checks before the owner gate is not modelled.
- Logging is not modelled.
- The values of `HOST_COMMAND_NAME` and `STREAM_SUBCOMMAND_NAME` are not in the modelled files. `OwnerCommands.Start`
  takes them as parameters.
- The emulator's button enumeration is an opaque number.
- InputGate.AcceptedInputsAreSpaced: the spacing holds only when `onUserInput` calls are judged one at a time and
  that user's entry was not evicted. The program reads the table and writes it in two steps of a suspending call,
  so two concurrent presses of one user can both be accepted. A flood of other users can evict the entry (the cache
  keeps at most 1000), and the next press is then accepted early. `Bot.DiscordBot.OnUserInput` never evicts.
- InputGate.AcceptedEntryPersists: holds under the same two conditions as `AcceptedInputsAreSpaced`.
- Bot.DiscordBot.constructor: the global message starts out absent. That is the stream renderer's initial state,
  which `DiscordBot.kt` does not set.
- Entities.ToHostIdInjective: a live host is represented by the ids of its messages. The lemma relies on that, and
  does not cover two live handles of the same messages.
- OwnerCommands.AddOwner: `add-owner` does not unban the user, so adding a banned user also gives a banned owner.
  `AddOwner` does not keep owners and banned users disjoint, and `OwnerNeverBlocked` then does not apply.
- OwnerCommands.Start: the `!!` on a missing host command throws after the game has started. The model returns
  `Aborted(HostCommandMissing)` with no reply.
- Bot.DiscordBot.Broadcast: a rethrown failure ends `sendStreamFile`/`acceptStatistics` with an exception. The model
  returns `fault` after all hosts were attempted, and does not state which concurrent edits a real run would cancel.

## Findings

| source | as written | input that shows it | evidently intended | confidence | as-written member | corrected member |
|---|---|---|---|---|---|---|
| src/main/kotlin/io/github/zabuzard/discordplays/discord/commands/OwnerCommands.kt:179-183 | after replying "Cannot ban an owner of the event." the command does not return, so the owner is banned anyway | an owner runs `/owner ban` on the default owner 157994153806921728; afterwards that owner's presses are rejected as banned, even with input locked to owners | an owner is refused and stays unbanned | not executed | OwnerCommands.Ban, OwnerCommands.BannedOwnerIsLockedOut | OwnerCommands.BanNonOwner, OwnerCommands.OwnerNeverBlocked |

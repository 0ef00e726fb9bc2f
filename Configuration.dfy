/**
 * The persisted configuration record. Every field is replaced wholesale by
 * the edits in the bot and the owner commands; the record itself has no
 * behaviour beyond its defaults.
 */
module Configuration {
  import opened Entities

  /** The event owner who is configured when no configuration file exists yet. */
  const DefaultOwner: Snowflake := 157994153806921728

  /** One entry of the per-user input statistics. */
  datatype UserInputCount = UserInputCount(user: Snowflake, count: nat)

  datatype Config = Config(
    romPath: string,
    gameTitle: string,
    owners: set<Snowflake>,
    bannedUsers: set<Snowflake>,
    hosts: set<HostId>,
    playtimeMs: int,
    userToInputCount: seq<UserInputCount>
  )

  /** The configuration a fresh installation starts from. */
  function DefaultConfig(): (c: Config)
    ensures c.romPath == "Pokemon Red TPP.gb" && c.gameTitle == "Pokemon Red"
    ensures c.owners == {DefaultOwner} && DefaultOwner in c.owners && |c.owners| == 1
    ensures c.bannedUsers == {} && c.hosts == {}
    ensures c.owners !! c.bannedUsers
    ensures c.playtimeMs == 0 && c.userToInputCount == []
  {
    Config("Pokemon Red TPP.gb", "Pokemon Red", {DefaultOwner}, {}, {}, 0, [])
  }

  /** Adding an id to one of the configuration's sets; a second addition changes nothing. */
  function WithElement<T>(s: set<T>, x: T): (r: set<T>)
    ensures x in r && s <= r && r - {x} <= s
    ensures x in s ==> r == s
  {
    s + {x}
  }
}

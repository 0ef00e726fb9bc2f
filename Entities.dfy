/**
 * The identifiers and records shared by every part of the bot: Discord
 * snowflakes, message references, the persisted host descriptor and the
 * live host handle.
 */
module Entities {

  datatype Option<+T> = None | Some(value: T) {
    function GetOr(default: T): T {
      match this
      case Some(v) => v
      case None => default
    }
  }

  /** A Discord snowflake (user, guild, channel or message id). */
  type Snowflake = nat

  /** Reference to one message: the channel it lives in and its own id. */
  datatype MessageId = MessageId(channelId: Snowflake, messageId: Snowflake)

  /**
   * A host as it is persisted in the configuration: the guild and the ids of
   * its two messages, the stream message (image attachment) and the chat
   * description message (statistics embed).
   */
  datatype HostId = HostId(guildId: Snowflake, streamMessageId: MessageId, chatDescriptionMessageId: MessageId)

  /**
   * A live host: one broadcast destination in one guild. The live message
   * handles are represented by the references they resolve to.
   */
  datatype Host = Host(guild: Snowflake, streamMessage: MessageId, chatDescriptionMessage: MessageId)

  /** A button of the emulated console; the emulator's own enumeration is not part of this model. */
  type Button = nat

  /** One press of a button by a user. */
  datatype UserInput = UserInput(user: Snowflake, button: Button)

  /** The total projection from a live host to its persisted descriptor. */
  function ToHostId(host: Host): HostId
  {
    HostId(host.guild, host.streamMessage, host.chatDescriptionMessage)
  }

  /** Distinct hosts have distinct descriptors, so persisting a set of hosts loses none of them. */
  lemma ToHostIdInjective(a: Host, b: Host)
    requires ToHostId(a) == ToHostId(b)
    ensures a == b
  {
  }
}

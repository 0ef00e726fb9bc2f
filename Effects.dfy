/**
 * The calls the bot makes on its collaborators (emulator, renderers,
 * statistics, local display, Discord message edits), recorded in the order
 * they are made.
 */
module Effects {
  import opened Entities
  import opened CommandExtensions

  /** What a broadcast puts into every host's message. */
  datatype Payload =
    /** Replace the stream message's attachments with the single file `name`. */
    | StreamFile(name: string)
    /** Replace the chat description message's embeds with one embed titled "Stats". */
    | StatisticsText(stats: string)

  /** Subscribers of the stream renderer's and the statistics' events. */
  datatype Consumer = BotConsumer | LocalDisplayConsumer

  datatype Effect =
    | StreamConsumerAdded(consumer: Consumer)
    | StreamConsumerRemoved(consumer: Consumer)
    | StatisticsConsumerAdded(consumer: Consumer)
    | EmulatorStarted
    | EmulatorStopped
    | RendererStarted
    | RendererStopped
    | GameStartedNotified
    | GameStoppedNotified
    /** The overlay renderer records the press for display. */
    | InputRecorded(input: UserInput)
    /** The emulator presses the button. */
    | ButtonClicked(button: Button)
    /** The statistics count the press. */
    | InputCounted(input: UserInput)
    | LocalDisplayActivated(sound: bool)
    | LocalDisplayDeactivated
    | SoundMuted
    /** A broadcast edit of one host's message succeeded. */
    | Delivered(host: Host, payload: Payload)
    /** A host's stream message got its embeds replaced by `embeds`. */
    | StreamMessageEmbedsSet(host: Host, embeds: seq<Embed>)
}

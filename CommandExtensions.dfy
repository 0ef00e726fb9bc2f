/**
 * Helpers shared by the slash commands: the owner gate, the mention string of
 * an application command and the clearing of a message's embeds.
 */
module CommandExtensions {
  import opened Entities
  import opened Configuration

  const OwnersOnlyReply: string := "Sorry, only owners can use this command."

  /** An application command registered in a guild, as the guild lists them. */
  datatype ApplicationCommand = ApplicationCommand(name: string, id: Snowflake)

  /** An embed of a message: optional title and a description. */
  datatype Embed = Embed(title: Option<string>, description: string)

  // ---------------------------------------------------------------------------
  // Decimal rendering of a snowflake, as string interpolation prints it.

  function DigitChar(d: nat): (c: char)
    requires d < 10
    ensures '0' <= c <= '9'
  {
    "0123456789"[d]
  }

  function DigitValue(c: char): nat
  {
    if '0' <= c <= '9' then (c as int - '0' as int) else 0
  }

  /** The decimal digits of `n`, most significant first. */
  function DecimalString(n: nat): (s: string)
    ensures 1 <= |s|
    ensures forall i :: 0 <= i < |s| ==> '0' <= s[i] <= '9'
    ensures |s| > 1 ==> s[0] != '0'
  {
    if n < 10 then [DigitChar(n)] else DecimalString(n / 10) + [DigitChar(n % 10)]
  }

  /** Reads a string of decimal digits back into a number. */
  function DecimalValue(s: string): nat
  {
    if s == [] then 0 else 10 * DecimalValue(s[..|s| - 1]) + DigitValue(s[|s| - 1])
  }

  /** Rendering a snowflake in decimal loses nothing: reading it back gives the snowflake. */
  lemma {:induction false} DecimalRoundTrip(n: nat)
    ensures DecimalValue(DecimalString(n)) == n
  {
    var s := DecimalString(n);
    if n < 10 {
      assert s[..|s| - 1] == [];
    } else {
      assert s[..|s| - 1] == DecimalString(n / 10);
      DecimalRoundTrip(n / 10);
    }
  }

  /** Two distinct snowflakes are never rendered the same. */
  lemma DecimalStringInjective(a: nat, b: nat)
    requires DecimalString(a) == DecimalString(b)
    ensures a == b
  {
    DecimalRoundTrip(a);
    DecimalRoundTrip(b);
  }

  // ---------------------------------------------------------------------------
  // mentionCommandOrNull

  /** The first command of the list whose name is exactly `name`, if any. */
  function FindByName(commands: seq<ApplicationCommand>, name: string): (r: Option<ApplicationCommand>)
    ensures r.None? <==> forall i :: 0 <= i < |commands| ==> commands[i].name != name
    ensures r.Some? ==> exists i :: 0 <= i < |commands| && commands[i] == r.value && FirstNamed(commands, name, i)
  {
    if commands == [] then None
    else if commands[0].name == name then
      assert FirstNamed(commands, name, 0);
      Some(commands[0])
    else
      var r := FindByName(commands[1..], name);
      if r.Some? then
        FirstNamedShift(commands, name, r.value);
        r
      else
        r
  }

  /** A first match in the tail, behind a head of another name, is a first match of the whole list. */
  lemma FirstNamedShift(commands: seq<ApplicationCommand>, name: string, c: ApplicationCommand)
    requires commands != [] && commands[0].name != name
    requires exists i :: 0 <= i < |commands[1..]| && commands[1..][i] == c && FirstNamed(commands[1..], name, i)
    ensures exists i :: 0 <= i < |commands| && commands[i] == c && FirstNamed(commands, name, i)
  {
    var i :| 0 <= i < |commands[1..]| && commands[1..][i] == c && FirstNamed(commands[1..], name, i);
    assert FirstNamed(commands, name, i + 1);
  }

  /** Index `i` holds the first command named `name`. */
  ghost predicate FirstNamed(commands: seq<ApplicationCommand>, name: string, i: int)
  {
    && 0 <= i < |commands|
    && commands[i].name == name
    && forall k :: 0 <= k < i ==> commands[k].name != name
  }

  /**
   * The chat mention `</query:id>` of the first guild command named
   * `commandName`, or nothing when the guild has no such command.
   */
  function MentionCommandOrNull(commands: seq<ApplicationCommand>, commandName: string, fullCommandQuery: string)
    : (r: Option<string>)
    ensures r.None? <==> forall i :: 0 <= i < |commands| ==> commands[i].name != commandName
    ensures r.Some? ==>
      exists i :: FirstNamed(commands, commandName, i) &&
        r.value == "</" + fullCommandQuery + ":" + DecimalString(commands[i].id) + ">"
  {
    match FindByName(commands, commandName)
    case None => None
    case Some(c) => Some("</" + fullCommandQuery + ":" + DecimalString(c.id) + ">")
  }

  // ---------------------------------------------------------------------------
  // The slash-command event the commands respond to.

  class CommandEvent {
    /** The user who invoked the command. */
    const author: Snowflake
    /** Every reply sent to the invoker, in order. */
    var responses: seq<string>

    constructor (author: Snowflake)
      ensures this.author == author && responses == []
    {
      this.author := author;
      responses := [];
    }

    method Respond(text: string)
      modifies this
      ensures responses == old(responses) + [text]
    {
      responses := responses + [text];
    }

    /**
     * The owner gate every owner subcommand runs first: `denied` is true
     * (the caller must return) exactly when the author is not an owner, and
     * then the author has been told so once.
     */
    method RequireOwnerPermission(config: Config) returns (denied: bool)
      modifies this
      ensures denied <==> author !in config.owners
      ensures responses == old(responses) + (if denied then [OwnersOnlyReply] else [])
    {
      if author in config.owners {
        return false;
      }
      Respond(OwnersOnlyReply);
      return true;
    }
  }

  // ---------------------------------------------------------------------------
  // The builder of a message edit, as far as its embeds go.

  class MessageModifyBuilder {
    /** The embeds the edit will set; `None` leaves the message's embeds as they are. */
    var embeds: Option<seq<Embed>>

    constructor ()
      ensures embeds == None
    {
      embeds := None;
    }

    /** Appends an embed, creating the embed list first if the edit has none yet. */
    method AddEmbed(e: Embed)
      modifies this
      ensures embeds == Some(old(embeds).GetOr([]) + [e])
    {
      embeds := Some(embeds.GetOr([]) + [e]);
    }

    /**
     * Makes the edit remove every embed of the message: a placeholder embed
     * forces the list into existence, then the list is emptied.
     */
    method ClearEmbeds()
      modifies this
      ensures embeds == Some([])
    {
      AddEmbed(Embed(None, ""));
      if embeds.Some? {
        embeds := Some([]);
      }
    }
  }
}

/**
 * The administrative cog (src/cogs/meta.py): the bot-channel toggle, the welcome message,
 * the help embeds and the thread populator.
 *
 * The `guild` table is a map keyed by its unique `guild_id` column, so an `UPDATE ...
 * WHERE guild_id = g` touches the one row of `g` or none. Discord is reduced to the values
 * the commands read (channel type name, member list, registered commands) and the replies
 * they send.
 */
module Meta {
  import opened Wrappers
  import PyText

  type GuildId = int
  type ChannelId = int
  type UserId = int

  /** The columns of a `guild` row that this cog reads or writes. */
  datatype GuildInfo = GuildInfo(guildName: string, botChannel: Option<ChannelId>, welcomeMessage: Option<string>)

  /** What a command does towards the user. */
  datatype Effect =
    | Respond(text: string)   // ia.response.send_message
    | Send(text: string)      // ia.channel.send
    | Edit(text: string)      // message.edit of the message just sent
    | Raise                   // the command ends with an exception

  const MaxMessageLength := 2000
  const MaxThreadMembers := 1000
  const NoDescriptionMsg := "No description (yet)."

  function Mention(id: UserId): string {
    "<@" + PyText.IntToString(id) + ">"
  }

  // ---------------------------------------------------------------------------
  // set_bot_channel

  /**
   * `set_bot_channel` in guild `g` from channel `c`: the first UPDATE clears the bot
   * channel where it is `c`; when it matched no row the second one sets it to `c`.
   */
  function ToggleBotChannel(guilds: map<GuildId, GuildInfo>, g: GuildId, c: ChannelId)
    : (r: (map<GuildId, GuildInfo>, string))
    ensures r.0.Keys == guilds.Keys
  {
    if g in guilds && guilds[g].botChannel == Some(c) then
      (guilds[g := guilds[g].(botChannel := None)], "Bot channel unset.")
    else
      var marked := if g in guilds then guilds[g := guilds[g].(botChannel := Some(c))] else guilds;
      (marked, "Bot channel set to <#" + PyText.IntToString(c) + ">.")
  }

  /**
   * The toggle marks `c` exactly when it was not marked, keeps the guild's other columns
   * and every other guild, and the reply says which way it went.
   */
  lemma ToggleFlipsMark(guilds: map<GuildId, GuildInfo>, g: GuildId, c: ChannelId)
    requires g in guilds
    ensures var (after, reply) := ToggleBotChannel(guilds, g, c);
            && (after[g].botChannel == Some(c) <==> guilds[g].botChannel != Some(c))
            && (after[g].botChannel == None <==> guilds[g].botChannel == Some(c))
            && (reply == "Bot channel unset." <==> guilds[g].botChannel == Some(c))
            && after[g].guildName == guilds[g].guildName
            && after[g].welcomeMessage == guilds[g].welcomeMessage
            && forall h :: h in guilds && h != g ==> after[h] == guilds[h]
  {
    var reply := ToggleBotChannel(guilds, g, c).1;
    if guilds[g].botChannel != Some(c) {
      var tail := PyText.IntToString(c) + ">.";
      assert reply == "Bot channel set to <#" + tail;
      assert reply[0] == 'B' && reply[4] == 'c';
      assert "Bot channel unset."[4] == 'c';
      assert reply[12] == 's' && "Bot channel unset."[12] == 'u';
    }
  }

  /** Toggling twice from the same channel leaves whether `c` is marked as it was. */
  lemma ToggleTwice(guilds: map<GuildId, GuildInfo>, g: GuildId, c: ChannelId)
    requires g in guilds
    ensures var twice := ToggleBotChannel(ToggleBotChannel(guilds, g, c).0, g, c).0;
            twice[g].botChannel == Some(c) <==> guilds[g].botChannel == Some(c)
  {
    var once := ToggleBotChannel(guilds, g, c).0;
    ToggleFlipsMark(guilds, g, c);
    ToggleFlipsMark(once, g, c);
  }

  /** A guild without a row stores nothing, yet the reply still says the channel was set. */
  lemma ToggleOfUnknownGuild(guilds: map<GuildId, GuildInfo>, g: GuildId, c: ChannelId)
    requires g !in guilds
    ensures ToggleBotChannel(guilds, g, c) == (guilds, "Bot channel set to <#" + PyText.IntToString(c) + ">.")
  {
  }

  // ---------------------------------------------------------------------------
  // set_welcome_message

  /**
   * `set_welcome_message` in guild `g` by user `uid`. `unescape` is the latin-1 /
   * unicode-escape round of lines 201-203, None where the codec raises.
   */
  function WelcomeUpdate(guilds: map<GuildId, GuildInfo>, g: GuildId, uid: UserId, message: string,
                         unescape: string -> Option<string>): (r: (map<GuildId, GuildInfo>, Effect))
    ensures r.0.Keys == guilds.Keys
    ensures |message| > MaxMessageLength ==> r == (guilds, Respond("Your message is too long!"))
    ensures forall h :: h in guilds && h != g ==> r.0[h] == guilds[h]
  {
    if |message| > MaxMessageLength then (guilds, Respond("Your message is too long!"))
    else if message == "" then
      (if g in guilds then guilds[g := guilds[g].(welcomeMessage := None)] else guilds,
       Respond("Welcome message cleared."))
    else
      match unescape(message)
      case None => (guilds, Raise)
      case Some(u) =>
        (if g in guilds then guilds[g := guilds[g].(welcomeMessage := Some(u))] else guilds,
         Respond("Welcome message set. Example:\n" + Mention(uid) + "\n" + u))
  }

  /**
   * An accepted message is stored as its unescaped form and the reply previews exactly
   * what was stored; an empty one clears the stored message.
   */
  lemma WelcomeStoredIsPreviewed(guilds: map<GuildId, GuildInfo>, g: GuildId, uid: UserId, message: string,
                                 unescape: string -> Option<string>)
    requires g in guilds && |message| <= MaxMessageLength
    ensures var (after, effect) := WelcomeUpdate(guilds, g, uid, message, unescape);
            && (message == "" ==> after[g].welcomeMessage == None && effect == Respond("Welcome message cleared."))
            && (message != "" && unescape(message).Some? ==>
                  && after[g].welcomeMessage == unescape(message)
                  && effect == Respond("Welcome message set. Example:\n" + Mention(uid) + "\n" + after[g].welcomeMessage.value))
            && (message != "" && unescape(message).None? ==> after == guilds && effect == Raise)
            && after[g].guildName == guilds[g].guildName && after[g].botChannel == guilds[g].botChannel
  {
  }

  class MetaCog {
    var guilds: map<GuildId, GuildInfo>

    constructor (guilds0: map<GuildId, GuildInfo>)
      ensures guilds == guilds0
    {
      guilds := guilds0;
    }

    /** `set_bot_channel` (lines 124-142). */
    method SetBotChannel(g: GuildId, c: ChannelId) returns (effect: Effect)
      modifies this
      ensures effect.Respond? && (guilds, effect.text) == ToggleBotChannel(old(guilds), g, c)
    {
      var text := "Bot channel unset.";
      if g in guilds && guilds[g].botChannel == Some(c) {
        guilds := guilds[g := guilds[g].(botChannel := None)];
      } else {
        if g in guilds {
          guilds := guilds[g := guilds[g].(botChannel := Some(c))];
        }
        text := "Bot channel set to <#" + PyText.IntToString(c) + ">.";
      }
      effect := Respond(text);
    }

    /** `set_welcome_message` (lines 186-213). */
    method SetWelcomeMessage(g: GuildId, uid: UserId, message: string, unescape: string -> Option<string>)
      returns (effect: Effect)
      modifies this
      ensures (guilds, effect) == WelcomeUpdate(old(guilds), g, uid, message, unescape)
    {
      if |message| > MaxMessageLength {
        return Respond("Your message is too long!");
      }
      if message == "" {
        if g in guilds {
          guilds := guilds[g := guilds[g].(welcomeMessage := None)];
        }
        effect := Respond("Welcome message cleared.");
      } else {
        var unescaped := unescape(message);
        if unescaped.None? {
          return Raise;
        }
        if g in guilds {
          guilds := guilds[g := guilds[g].(welcomeMessage := unescaped)];
        }
        effect := Respond("Welcome message set. Example:\n" + Mention(uid) + "\n" + unescaped.value);
      }
    }
  }

  // ---------------------------------------------------------------------------
  // help

  datatype Parameter = Parameter(name: string, description: string, required: bool)
  datatype Command = Command(name: string, description: string, parameters: seq<Parameter>)
  /** A loaded cog: its name and the names of its application commands. */
  datatype Cog = Cog(name: string, commands: seq<string>)
  datatype Field = Field(name: string, value: string)

  datatype HelpReply =
    | CogList(title: string, description: string, fields: seq<Field>)
    | CommandCard(title: string, description: string, fields: seq<Field>)
    | NotFound(text: string)

  /** `" [name]"` for a required parameter, `" <name>"` for an optional one. */
  function Bracketed(p: Parameter): string {
    var (open, close) := if p.required then ('[', ']') else ('<', '>');
    [' ', open] + p.name + [close]
  }

  /** The brackets of the first `n` parameters. */
  function Brackets(ps: seq<Parameter>, n: nat): string
    requires n <= |ps|
  {
    if n == 0 then "" else Brackets(ps, n - 1) + Bracketed(ps[n - 1])
  }

  /** The parameter part of a command's help title, in parameter order. */
  function Signature(ps: seq<Parameter>): string {
    Brackets(ps, |ps|)
  }

  lemma {:induction false} BracketsOfPrefix(ps: seq<Parameter>, qs: seq<Parameter>, n: nat)
    requires n <= |ps|
    ensures Brackets(ps + qs, n) == Brackets(ps, n)
  {
    if n > 0 {
      BracketsOfPrefix(ps, qs, n - 1);
      assert (ps + qs)[n - 1] == ps[n - 1];
    }
  }

  lemma {:induction false} BracketsAppend(ps: seq<Parameter>, qs: seq<Parameter>, n: nat)
    requires n <= |qs|
    ensures Brackets(ps + qs, |ps| + n) == Signature(ps) + Brackets(qs, n)
  {
    if n == 0 {
      BracketsOfPrefix(ps, qs, |ps|);
      assert Signature(ps) + "" == Signature(ps);
    } else {
      BracketsAppend(ps, qs, n - 1);
      assert (ps + qs)[|ps| + n - 1] == qs[n - 1];
      var a, b, c := Signature(ps), Brackets(qs, n - 1), Bracketed(qs[n - 1]);
      assert (a + b) + c == a + (b + c);
    }
  }

  /** The signature of a parameter list is the signatures of its parts, in order. */
  lemma SignatureAppend(ps: seq<Parameter>, qs: seq<Parameter>)
    ensures Signature(ps + qs) == Signature(ps) + Signature(qs)
  {
    BracketsAppend(ps, qs, |qs|);
  }

  /** A single parameter is shown in square brackets exactly when it is required. */
  lemma SignatureOfOne(p: Parameter)
    ensures Signature([p]) == (if p.required then " [" + p.name + "]" else " <" + p.name + ">")
    ensures Signature([p])[1] == '[' <==> p.required
  {
    assert Signature([p]) == Brackets([p], 1);
    assert Brackets([p], 1) == Brackets([p], 0) + Bracketed([p][0]);
    assert "" + Bracketed(p) == Bracketed(p);
  }

  function FieldOf(p: Parameter): Field {
    Field(p.name, if p.description != "" then p.description else NoDescriptionMsg)
  }

  /** A parameter field shows the placeholder exactly when there is no description to show. */
  lemma FieldOfPlaceholder(p: Parameter)
    ensures FieldOf(p).name == p.name
    ensures FieldOf(p).value == NoDescriptionMsg <==> p.description == "" || p.description == NoDescriptionMsg
    ensures p.description != "" ==> FieldOf(p).value == p.description
  {
  }

  /** The help card of one command (lines 97-116). */
  method DescribeCommand(cmd: Command) returns (title: string, fields: seq<Field>)
    ensures title == "/" + cmd.name + Signature(cmd.parameters)
    ensures |fields| == |cmd.parameters|
    ensures forall i :: 0 <= i < |fields| ==> fields[i] == FieldOf(cmd.parameters[i])
  {
    var ps := cmd.parameters;
    title := "/" + cmd.name;
    fields := [];
    for i := 0 to |ps|
      invariant title == "/" + cmd.name + Brackets(ps, i)
      invariant |fields| == i
      invariant forall k :: 0 <= k < i ==> fields[k] == FieldOf(ps[k])
    {
      var a, b, c := "/" + cmd.name, Brackets(ps, i), Bracketed(ps[i]);
      assert (a + b) + c == a + (b + c);
      title := title + Bracketed(ps[i]);
      fields := fields + [FieldOf(ps[i])];
    }
  }

  /** The value of a cog's help field: each command name followed by a space. */
  function CommandNames(names: seq<string>): (v: string)
    ensures v == "" <==> names == []
  {
    if names == [] then "" else CommandNames(names[..|names| - 1]) + names[|names| - 1] + " "
  }

  /** The fields of the command list: one per cog that has application commands. */
  function CogFields(cogs: seq<Cog>): seq<Field> {
    if cogs == [] then []
    else
      var last := cogs[|cogs| - 1];
      CogFields(cogs[..|cogs| - 1]) + (if last.commands != [] then [Field(last.name, CommandNames(last.commands))] else [])
  }

  /** A cog is listed, with its command names, exactly when it has application commands. */
  lemma {:induction false} CogFieldsMembers(cogs: seq<Cog>, f: Field)
    ensures f in CogFields(cogs) <==>
              exists j :: 0 <= j < |cogs| && cogs[j].commands != []
                          && f == Field(cogs[j].name, CommandNames(cogs[j].commands))
  {
    if cogs != [] {
      var front := cogs[..|cogs| - 1];
      CogFieldsMembers(front, f);
      assert forall j :: 0 <= j < |front| ==> front[j] == cogs[j];
    }
  }

  /** The command list (lines 83-89). */
  method ListCogs(cogs: seq<Cog>) returns (fields: seq<Field>)
    ensures fields == CogFields(cogs)
  {
    fields := [];
    for i := 0 to |cogs|
      invariant fields == CogFields(cogs[..i])
    {
      var value := "";
      var names := cogs[i].commands;
      for k := 0 to |names|
        invariant value == CommandNames(names[..k])
      {
        assert names[..k + 1][..k] == names[..k];
        value := value + names[k] + " ";
      }
      assert names[..|names|] == names;
      assert cogs[..i + 1][..i] == cogs[..i];
      if value == "" {
        continue;
      }
      fields := fields + [Field(cogs[i].name, value)];
    }
    assert cogs[..|cogs|] == cogs;
  }

  /**
   * `help` (lines 66-117): no name, or an empty one, lists the cogs; a name the command
   * tree does not know is reported; a known one gets its card.
   */
  method Help(appName: string, botDescription: string, commandName: Option<string>,
              cogs: seq<Cog>, tree: map<string, Command>) returns (reply: HelpReply)
    ensures (commandName.None? || commandName == Some("")) ==>
              reply == CogList(appName + ": Help", botDescription, CogFields(cogs))
    ensures commandName.Some? && commandName.value != "" && commandName.value !in tree ==>
              reply == NotFound("Command '" + commandName.value + "' not found.")
    ensures commandName.Some? && commandName.value != "" && commandName.value in tree ==>
              var cmd := tree[commandName.value];
              && reply.CommandCard?
              && reply.title == "/" + cmd.name + Signature(cmd.parameters)
              && reply.description == cmd.description
              && |reply.fields| == |cmd.parameters|
              && forall i :: 0 <= i < |reply.fields| ==> reply.fields[i] == FieldOf(cmd.parameters[i])
  {
    if commandName.None? || commandName.value == "" {
      var fields := ListCogs(cogs);
      return CogList(appName + ": Help", botDescription, fields);
    }
    var name := commandName.value;
    if name !in tree {
      return NotFound("Command '" + name + "' not found.");
    }
    var cmd := tree[name];
    var title, fields := DescribeCommand(cmd);
    reply := CommandCard(title, cmd.description, fields);
  }

  // ---------------------------------------------------------------------------
  // populate_thread

  datatype Member = Member(id: UserId, bot: bool)

  /**
   * The mention buffer and the edits issued after the members `ms`, in order: a human's
   * mention is appended, and a buffer of 2000 characters or more is flushed as its first
   * 2000 characters and restarted with the current member's mention.
   */
  function Populate(ms: seq<Member>): (r: (string, seq<string>))
    ensures forall k :: 0 <= k < |r.1| ==> |r.1[k]| == MaxMessageLength
  {
    if ms == [] then ("", [])
    else
      var (resp, edits) := Populate(ms[..|ms| - 1]);
      var m := ms[|ms| - 1];
      var resp' := if m.bot then resp else resp + Mention(m.id);
      if |resp'| >= MaxMessageLength then (Mention(m.id), edits + [resp'[..MaxMessageLength]])
      else (resp', edits)
  }

  /** The mentions of the human members, in member order. */
  function Mentions(ms: seq<Member>): string {
    if ms == [] then "" else Mentions(ms[..|ms| - 1]) + (if ms[|ms| - 1].bot then "" else Mention(ms[|ms| - 1].id))
  }

  lemma {:induction false} MentionsOfPrefix(ms: seq<Member>, n: nat)
    requires n <= |ms|
    ensures |Mentions(ms[..n])| <= |Mentions(ms)|
    decreases |ms|
  {
    if n < |ms| {
      var front := ms[..|ms| - 1];
      assert front[..n] == ms[..n];
      MentionsOfPrefix(front, n);
      assert |Mentions(front)| <= |Mentions(ms)|;
    } else {
      assert ms[..n] == ms;
    }
  }

  /**
   * While the humans' mentions fit in one message, no intermediate edit is issued and
   * the buffer holds all of them.
   */
  lemma {:induction false} PopulateShort(ms: seq<Member>)
    requires |Mentions(ms)| < MaxMessageLength
    ensures Populate(ms) == (Mentions(ms), [])
  {
    if ms != [] {
      var front := ms[..|ms| - 1];
      MentionsOfPrefix(ms, |ms| - 1);
      PopulateShort(front);
      var m := ms[|ms| - 1];
      var resp' := if m.bot then Mentions(front) else Mentions(front) + Mention(m.id);
      assert resp' == Mentions(ms);
    }
  }

  /**
   * `populate_thread` (lines 221-244): non-threads and guilds of 1000 members or more are
   * refused with one reply; otherwise the mentions are edited into a fresh message and
   * the message ends as "Thread populated.".
   */
  method PopulateThread(channelTypeName: string, memberCount: int, members: seq<Member>)
    returns (effects: seq<Effect>)
    ensures !PyText.Contains(channelTypeName, "thread") ==> effects == [Respond("This channel is not a thread!")]
    ensures PyText.Contains(channelTypeName, "thread") && memberCount >= MaxThreadMembers ==>
              effects == [Respond("I cannot add this many people to a thread! (1000 members maximum per thread)")]
    ensures PyText.Contains(channelTypeName, "thread") && memberCount < MaxThreadMembers ==>
              var (resp, edits) := Populate(members);
              effects == [Respond("Please wait a while I try to add everyone to this thread..."), Send("Processing...")]
                         + EditsOf(edits) + [Edit(resp), Edit("Thread populated.")]
  {
    if !PyText.Contains(channelTypeName, "thread") {
      return [Respond("This channel is not a thread!")];
    }
    if memberCount >= MaxThreadMembers {
      return [Respond("I cannot add this many people to a thread! (1000 members maximum per thread)")];
    }
    effects := [Respond("Please wait a while I try to add everyone to this thread..."), Send("Processing...")];
    var head := effects;
    var resp := "";
    var edits: seq<string> := [];
    for i := 0 to |members|
      invariant (resp, edits) == Populate(members[..i])
      invariant effects == head + EditsOf(edits)
    {
      assert members[..i + 1][..i] == members[..i];
      var m := members[i];
      if !m.bot {
        resp := resp + Mention(m.id);
      }
      if |resp| >= MaxMessageLength {
        EditsOfAppend(edits, resp[..MaxMessageLength]);
        effects := effects + [Edit(resp[..MaxMessageLength])];
        edits := edits + [resp[..MaxMessageLength]];
        resp := Mention(m.id);
      }
    }
    assert members[..|members|] == members;
    effects := effects + [Edit(resp), Edit("Thread populated.")];
  }

  function EditsOf(texts: seq<string>): (es: seq<Effect>)
    ensures |es| == |texts|
    ensures forall k :: 0 <= k < |texts| ==> es[k] == Edit(texts[k])
  {
    if texts == [] then [] else [Edit(texts[0])] + EditsOf(texts[1..])
  }

  lemma EditsOfAppend(texts: seq<string>, t: string)
    ensures EditsOf(texts + [t]) == EditsOf(texts) + [Edit(t)]
  {
    assert |EditsOf(texts + [t])| == |EditsOf(texts) + [Edit(t)]|;
  }
}

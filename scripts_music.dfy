/**
 * The first generation of the music cog (scripts/modules/music.py): prefix commands over a
 * single audio node, a FIFO queue per guild, and the track-start and track-end listeners.
 *
 * As in module Music, the chat platform and the audio node are not modelled: every call
 * into them is an `Effect` the handler returns, and what the handlers learn from them is a
 * parameter. A `ctx.send` whose coroutine is never awaited sends nothing and so appears as
 * no effect at all.
 */
module ScriptsMusic {
  import opened Wrappers
  import Music
  import PyText

  type GuildId = int
  type ChannelId = int

  /** The reasons a track may stop, named as the node names them. */
  datatype Reason = Finished | Stopped | Replaced | Cleanup | LoadFailed

  function ReasonName(r: Reason): string {
    match r
    case Finished => "FINISHED"
    case Stopped => "STOPPED"
    case Replaced => "REPLACED"
    case Cleanup => "CLEANUP"
    case LoadFailed => "LOAD_FAILED"
  }

  /**
   * `REASON.get(key)`: the member whose name is exactly `key` (`cls[key]`), or None for
   * the `False` returned when the lookup raises.
   */
  function ReasonGet(key: string): (r: Option<Reason>)
    ensures r.Some? ==> ReasonName(r.value) == key
    ensures r.None? ==> forall m: Reason :: ReasonName(m) != key
  {
    if key == "FINISHED" then Some(Finished)
    else if key == "STOPPED" then Some(Stopped)
    else if key == "REPLACED" then Some(Replaced)
    else if key == "CLEANUP" then Some(Cleanup)
    else if key == "LOAD_FAILED" then Some(LoadFailed)
    else None
  }

  /** Every member is found under its own name. */
  lemma ReasonGetOfName(r: Reason)
    ensures ReasonGet(ReasonName(r)) == Some(r)
  {
  }

  /**
   * The lookup is case-sensitive: unlike the newer cog's test, a lower-case "finished"
   * is not a reason to advance the queue.
   */
  lemma ReasonGetIsCaseSensitive()
    ensures ReasonGet("finished").None?
    ensures Music.ParseEndReason("finished") == Music.Finished
  {
    var lowered := Music.ParseEndReason("finished");
    assert PyText.Upper("finished") == "FINISHED";
  }

  /** A track of the node's first API; its duration is in whole seconds. */
  datatype Track = Track(title: string, uri: string, durationSeconds: nat)

  /** A track as the `show` command lists it: `minutes:seconds`, from the track itself. */
  datatype Line = Line(minutes: nat, seconds: nat, title: string, uri: string)

  datatype ShowEmbed = ShowEmbed(
    size: nat, paused: bool, channel: ChannelId,
    entries: seq<(nat, Line)>, nowPlaying: Option<Line>)

  datatype Effect =
    | Send(text: string)
    | ShowQueue(embed: ShowEmbed)
    | ConnectVoice(channel: ChannelId)
    | StartTrack(track: Track)
    | StopTrack
    | SetPaused(paused: bool)
    | Disconnect
    | Log(text: string)   // the `print(e)` of `play`
    | Raise               // an exception escapes the command

  /** The user behind a command and the voice channel they are in. */
  datatype Author = Author(voice: Option<ChannelId>)

  /** What `node.get_tracks` gives back, or None where it raises. */
  type Search = Option<seq<Track>>

  const NotInVoiceMsg := "You must be in a voice channel to use this command!"
  const WrongChannelMsg := "You must be in the same voice channel with me to use this command!"
  const NoVoiceClientMsg := "I am not in a voice channel!"
  const AllPlayedMsg := "All songs played. Leaving the voice channel..."
  const FailureMsg := "Something went wrong(?), I will be quitting now..."
  const AloneMsg := "Quitting because I am alone..."

  function LineOf(t: Track): (l: Line)
    ensures l.minutes * 60 + l.seconds == t.durationSeconds && l.seconds < 60
  {
    Line(t.durationSeconds / 60, t.durationSeconds % 60, t.title, t.uri)
  }

  /**
   * `isUserBotSameChannel`: false when the bot has no voice client in the guild;
   * otherwise whether the author is in the bot's channel. None where the author is in no
   * voice channel, which makes the attribute access raise.
   */
  function IsUserBotSameChannel(botChannel: Option<ChannelId>, author: Author): (r: Option<bool>)
    ensures botChannel.None? ==> r == Some(false)
    ensures botChannel.Some? && author.voice.Some? ==> r == Some(author.voice == botChannel)
    ensures botChannel.Some? && author.voice.None? ==> r.None?
  {
    match botChannel
    case None => Some(false)
    case Some(b) =>
      match author.voice
      case None => None
      case Some(c) => Some(b == c)
  }

  /**
   * The guard that the newer cog corrected: with no voice client the legacy check answers
   * false, so `play` turns away every author, while `Music.SameChannel` lets the first
   * request through to join the author's channel.
   */
  lemma NoVoiceClientRejectsEveryone(c: ChannelId)
    ensures IsUserBotSameChannel(None, Author(Some(c))) == Some(false)
    ensures Music.SameChannel(None, Some(c))
    ensures Music.PlayGuard(true, None, Some(c)).None?
  {
  }

  /** A guild's player of the node's first API, with its queue. */
  class Player {
    const channelId: ChannelId
    var queue: seq<Track>
    var current: Option<Track>
    var paused: bool

    /** Between handlers an idle player has nothing queued. */
    ghost predicate Valid()
      reads this
    {
      current.None? ==> queue == []
    }

    constructor (channel: ChannelId)
      ensures Valid() && channelId == channel && queue == [] && current.None? && !paused
    {
      channelId := channel;
      queue := [];
      current := None;
      paused := false;
    }
  }

  class MusicCog {
    /** The node of `on_wavelink_node_ready`; `play` needs it for searching. */
    var nodeReady: bool
    var players: map<GuildId, Player>

    ghost predicate Valid()
      reads this, players.Values
    {
      && (forall g :: g in players ==> players[g].Valid())
      && (forall g, h :: g in players && h in players && g != h ==> players[g] != players[h])
    }

    function BotChannel(g: GuildId): Option<ChannelId>
      reads this
    {
      if g in players then Some(players[g].channelId) else None
    }

    function PlayerFrame(g: GuildId): set<object>
      reads this
    {
      if g in players then {players[g]} else {}
    }

    constructor ()
      ensures Valid() && !nodeReady && players == map[]
    {
      nodeReady := false;
      players := map[];
    }

    /** `queue.reset()` followed by `disconnect()`: the queue is emptied and the player dropped. */
    method ResetAndLeave(g: GuildId)
      requires Valid() && g in players
      modifies this, players[g]
      ensures Valid()
      ensures players == old(players) - {g} && nodeReady == old(nodeReady)
      ensures old(players)[g].queue == []
    {
      players[g].queue := [];
      players := players - {g};
    }

    /** `on_wavelink_node_ready`: remember the node. */
    method OnNodeReady()
      modifies this
      ensures nodeReady && players == old(players)
    {
      nodeReady := true;
    }

    /**
     * `play`: after its guards, search, put the first result in the queue and start it when
     * nothing is playing. Any exception along the way is printed and swallowed. Because the
     * guard answers false without a voice client, `play` never joins a channel.
     */
    method Play(g: GuildId, author: Author, search: Search) returns (effects: seq<Effect>)
      requires Valid()
      modifies PlayerFrame(g)
      ensures Valid()
      ensures players == old(players)
      ensures author.voice.None? ==> effects == [Send(NotInVoiceMsg)]
      ensures author.voice.Some? && g !in players ==> effects == [Send(WrongChannelMsg)]
      ensures author.voice.Some? && g in players && author.voice != BotChannel(g) ==>
                effects == [Send(WrongChannelMsg)] && unchanged(players[g])
      ensures author.voice.Some? && g in players && author.voice == BotChannel(g) ==>
                var vc := players[g];
                && (!nodeReady || search.None? || search.value == [] ==>
                      |effects| == 1 && effects[0].Log? && unchanged(vc))
                && (nodeReady && search.Some? && search.value != [] ==>
                      var t := search.value[0];
                      && vc.paused == old(vc.paused)
                      && (old(vc.current).Some? ==>
                            vc.queue == old(vc.queue) + [t] && vc.current == old(vc.current) && effects == [])
                      && (old(vc.current).None? ==>
                            vc.queue == [] && vc.current == Some(t) && effects == [StartTrack(t)]))
    {
      if author.voice.None? {
        return [Send(NotInVoiceMsg)];
      }
      var same := IsUserBotSameChannel(BotChannel(g), author);
      if same != Some(true) {
        return [Send(WrongChannelMsg)];
      }
      if !nodeReady || search.None? || search.value == [] {
        return [Log("get_tracks failed")];
      }
      var vc := players[g];
      vc.queue := vc.queue + [search.value[0]];
      effects := [];
      if vc.current.None? {
        var next := vc.queue[0];
        vc.queue := vc.queue[1..];
        vc.current := Some(next);
        effects := [StartTrack(next)];
      }
    }

    /**
     * `show`: the whole queue in order, each entry with its own duration, and the track
     * being played. Without a voice client the reply is never awaited, so nothing is sent.
     */
    method Show(g: GuildId) returns (effects: seq<Effect>)
      requires Valid()
      ensures g !in players ==> effects == []
      ensures g in players ==>
                var vc := players[g];
                && |effects| == 1 && effects[0].ShowQueue?
                && var e := effects[0].embed;
                && e.size == |vc.queue| && e.paused == vc.paused && e.channel == vc.channelId
                && |e.entries| == |vc.queue|
                && (forall i :: 0 <= i < |vc.queue| ==> e.entries[i] == (i + 1, LineOf(vc.queue[i])))
                && e.nowPlaying == (if vc.current.Some? then Some(LineOf(vc.current.value)) else None)
    {
      if g !in players {
        return [];
      }
      var vc := players[g];
      var entries: seq<(nat, Line)> := [];
      for i := 0 to |vc.queue|
        invariant |entries| == i
        invariant forall j :: 0 <= j < i ==> entries[j] == (j + 1, LineOf(vc.queue[j]))
      {
        entries := entries + [(i + 1, LineOf(vc.queue[i]))];
      }
      var nowPlaying := if vc.current.Some? then Some(LineOf(vc.current.value)) else None;
      effects := [ShowQueue(ShowEmbed(|vc.queue|, vc.paused, vc.channelId, entries, nowPlaying))];
    }

    /**
     * The guards shared by pause and skip: no voice client sends nothing (the reply is not
     * awaited); an author outside voice makes the channel check raise; an author elsewhere
     * is told so. None when the command proceeds.
     */
    function ControlGuard(g: GuildId, author: Author, awaitedNoClientReply: bool): (rejected: Option<seq<Effect>>)
      reads this
      ensures rejected.None? <==> g in players && author.voice == BotChannel(g)
    {
      if g !in players then Some(if awaitedNoClientReply then [Send(NoVoiceClientMsg)] else [])
      else match IsUserBotSameChannel(BotChannel(g), author)
           case None => Some([Raise])
           case Some(same) => if same then None else Some([Send(WrongChannelMsg)])
    }

    /** `pause`: resume a paused player, pause any other; no reply. */
    method Pause(g: GuildId, author: Author) returns (effects: seq<Effect>)
      requires Valid()
      modifies PlayerFrame(g)
      ensures Valid() && players == old(players)
      ensures ControlGuard(g, author, false).Some? ==>
                effects == ControlGuard(g, author, false).value && (g in players ==> unchanged(players[g]))
      ensures ControlGuard(g, author, false).None? ==>
                && players[g].paused == !old(players[g].paused)
                && players[g].queue == old(players[g].queue) && players[g].current == old(players[g].current)
                && effects == [SetPaused(!old(players[g].paused))]
    {
      var rejected := ControlGuard(g, author, false);
      if rejected.Some? {
        return rejected.value;
      }
      var vc := players[g];
      vc.paused := !vc.paused;
      effects := [SetPaused(vc.paused)];
    }

    /**
     * `skip`: stop the track being played, if any; the track-end listener then advances
     * the queue. No reply.
     */
    method Skip(g: GuildId, author: Author) returns (effects: seq<Effect>)
      requires Valid()
      ensures ControlGuard(g, author, false).Some? ==> effects == ControlGuard(g, author, false).value
      ensures ControlGuard(g, author, false).None? ==>
                effects == (if players[g].current.Some? then [StopTrack] else [])
    {
      var rejected := ControlGuard(g, author, false);
      if rejected.Some? {
        return rejected.value;
      }
      effects := if players[g].current.Some? then [StopTrack] else [];
    }

    /** `quit`: clear the queue and disconnect. Here the no-client reply is awaited. */
    method Quit(g: GuildId, author: Author) returns (effects: seq<Effect>)
      requires Valid()
      modifies this, PlayerFrame(g)
      ensures Valid()
      ensures nodeReady == old(nodeReady)
      ensures old(ControlGuard(g, author, true)).Some? ==>
                effects == old(ControlGuard(g, author, true)).value && players == old(players)
      ensures old(ControlGuard(g, author, true)).None? ==>
                effects == [Disconnect] && players == old(players) - {g} && old(players)[g].queue == []
    {
      var rejected := ControlGuard(g, author, true);
      if rejected.Some? {
        return rejected.value;
      }
      ResetAndLeave(g);
      effects := [Disconnect];
    }

    /**
     * `on_wavelink_track_end`: FINISHED or STOPPED, spelled exactly so, plays the next
     * queued track, or clears the queue, announces the end and leaves. Every other reason
     * announces a failure and leaves. A player that is gone makes the listener raise.
     */
    method OnTrackEnd(g: GuildId, reason: string) returns (effects: seq<Effect>)
      requires Valid()
      modifies this, PlayerFrame(g)
      ensures Valid()
      ensures nodeReady == old(nodeReady)
      ensures g !in old(players) ==> effects == [Raise] && players == old(players)
      ensures g in old(players) && ReasonGet(reason) !in {Some(Finished), Some(Stopped)} ==>
                players == old(players) - {g} && old(players)[g].queue == []
                && effects == [Send(FailureMsg), Disconnect]
      ensures g in old(players) && ReasonGet(reason) in {Some(Finished), Some(Stopped)} && old(players[g].queue) == [] ==>
                players == old(players) - {g} && old(players)[g].queue == []
                && effects == [Send(AllPlayedMsg), Disconnect]
      ensures g in old(players) && ReasonGet(reason) in {Some(Finished), Some(Stopped)} && old(players[g].queue) != [] ==>
                var vc := old(players[g]);
                && players == old(players)
                && vc.current == Some(old(vc.queue[0])) && vc.queue == old(vc.queue[1..])
                && vc.paused == old(vc.paused)
                && effects == [StartTrack(old(vc.queue[0]))]
    {
      if g !in players {
        return [Raise];
      }
      var vc := players[g];
      var r := ReasonGet(reason);
      if r == Some(Finished) || r == Some(Stopped) {
        if |vc.queue| > 0 {
          var next := vc.queue[0];
          vc.queue := vc.queue[1..];
          vc.current := Some(next);
          return [StartTrack(next)];
        }
        ResetAndLeave(g);
        return [Send(AllPlayedMsg), Disconnect];
      }
      ResetAndLeave(g);
      effects := [Send(FailureMsg), Disconnect];
    }

    /**
     * `on_wavelink_track_start`: at most one member in the channel (the bot itself) means
     * clear the queue and leave; otherwise announce the track.
     */
    method OnTrackStart(g: GuildId, track: Track, memberCount: nat) returns (effects: seq<Effect>)
      requires Valid()
      modifies this, PlayerFrame(g)
      ensures Valid()
      ensures nodeReady == old(nodeReady)
      ensures g !in old(players) ==> effects == [Raise] && players == old(players)
      ensures g in old(players) && memberCount <= 1 ==>
                players == old(players) - {g} && old(players)[g].queue == []
                && effects == [Send(AloneMsg), Disconnect]
      ensures g in old(players) && memberCount > 1 ==>
                players == old(players) && effects == [Send("Now playing *" + track.title + "*!")]
    {
      if g !in players {
        return [Raise];
      }
      if memberCount <= 1 {
        ResetAndLeave(g);
        return [Send(AloneMsg), Disconnect];
      }
      effects := [Send("Now playing *" + track.title + "*!")];
    }
  }
}

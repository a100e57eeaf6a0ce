/**
 * The music playback coordinator of the bot (src/cogs/music.py): the supervisor of the
 * connection to the audio node, the per-guild players with their queues, the handlers of
 * the node's track-start and track-end events, the reaper of abandoned voice sessions and
 * the slash commands that drive the players.
 *
 * The chat platform and the audio node are not modelled: every call into them is an
 * `Effect` a handler returns, and everything the handlers learn from them (search results,
 * the members of a voice channel, whether a connect attempt succeeded) is a parameter.
 * Each handler runs as one atomic step.
 */
module Music {
  import opened Wrappers
  import PyText

  type GuildId = int
  type ChannelId = int

  /** A playable track; lengths are in milliseconds, as the node reports them. */
  datatype Track = Track(title: string, uri: string, lengthMs: nat, requester: string)

  /** The queue modes the cog uses (`wavelink.QueueMode.normal` and `.loop`). */
  datatype QueueMode = Normal | Loop

  /** What the cog distinguishes in a track-end reason; every other string is `Other`. */
  datatype EndReason = Finished | Stopped | Other(raw: string)

  /** What a handler asks of the chat platform or of the audio node, in order. */
  datatype Effect =
    | Reply(text: string)            // ia.response.send_message
    | Defer                          // ia.response.defer
    | Followup(text: string)         // ia.followup.send
    | Announce(text: string)         // a message to the voice channel's text chat
    | ShowQueue(embed: QueueEmbed)   // the embed of the queue command
    | ConnectVoice(channel: ChannelId)
    | StartTrack(track: Track)       // vc.play
    | StopTrack                      // vc.stop
    | SetPaused(paused: bool)        // vc.pause
    | Disconnect                     // vc.disconnect
    | ConnectNode                    // wavelink.Pool.connect
    | LogError(text: string)
    | Raise                          // an exception escapes the handler

  /** One line of the queue listing: a track with its displayed duration. */
  datatype TrackLine = TrackLine(title: string, uri: string, minutes: nat, seconds: nat, requester: string)

  /** The embed of the queue command. */
  datatype QueueEmbed = QueueEmbed(
    size: string, paused: bool, looping: bool,
    entries: seq<(nat, TrackLine)>, nowPlaying: Option<TrackLine>)

  /** The requester, voice channel and ownership of the user behind an interaction. */
  datatype Caller = Caller(name: string, voice: Option<ChannelId>, isOwner: bool)

  /** How a connect attempt ends: the node is CONNECTED, it is not, or `connect` raised. */
  datatype ConnectOutcome = Connected | NotConnected | Raises

  /** What `wavelink.Playable.search` gives back. */
  datatype SearchResult = LoadError | Tracks(tracks: seq<Track>) | Playlist(tracks: seq<Track>, selected: int)

  const MaxReconnects: nat := 5
  const ListingCap: nat := 20

  const OfflineMsg := "Music playing server is offline! Please notify the bot owner of the issue!"
  const NotInVoiceMsg := "You must be in a voice channel to use this command!"
  const WrongChannelMsg := "You must be in the same voice channel with me to use this command!"
  const NoVoiceClientMsg := "I am not in a voice channel!"
  const InvalidLinkMsg := "Your link is invalid!"
  const AloneMsg := "Quitting because I am alone..."
  const AllPlayedMsg := "All songs played. Leaving the voice channel..."
  const FailureMsg := "Something went wrong. I will be quitting now..."
  const NotPlayingMsg := "I am not playing any music!"
  const OwnerOnlyMsg := "Only the bot owner may use this command!"

  // ---------------------------------------------------------------------------
  // Pure parts: reasons, guards, membership, messages

  /** The reason test of the track-end handler: `reason.upper() in ("FINISHED", "STOPPED")`. */
  function ParseEndReason(raw: string): (r: EndReason)
    ensures r == Finished <==> PyText.Upper(raw) == "FINISHED"
    ensures r == Stopped <==> PyText.Upper(raw) == "STOPPED"
    ensures r.Other? ==> r.raw == raw
  {
    var u := PyText.Upper(raw);
    if u == "FINISHED" then Finished else if u == "STOPPED" then Stopped else Other(raw)
  }

  /** The test ignores case: a reason and its lower-cased form are read alike. */
  lemma ParseEndReasonIgnoresCase(raw: string)
    ensures ParseEndReason(PyText.Lower(raw)).Other? == ParseEndReason(raw).Other?
    ensures !ParseEndReason(raw).Other? ==> ParseEndReason(PyText.Lower(raw)) == ParseEndReason(raw)
  {
    PyText.UpperOfLower(raw);
  }

  /**
   * `check_user_bot_same_channel`: true when the bot has no voice client in the guild;
   * otherwise true exactly when the caller is in the bot's channel (a caller outside voice
   * makes the attribute access raise, which the check turns into false).
   */
  function SameChannel(botChannel: Option<ChannelId>, callerVoice: Option<ChannelId>): (same: bool)
    ensures botChannel.None? ==> same
    ensures botChannel.Some? ==> (same <==> callerVoice == botChannel)
  {
    match botChannel
    case None => true
    case Some(b) =>
      match callerVoice
      case None => false
      case Some(c) => b == c
  }

  /**
   * The guards of `play`, in order: the node-exist decorator, "caller in voice" and the
   * same-channel check. The result is the rejecting reply, or None when `play` proceeds.
   */
  function PlayGuard(nodeConnected: bool, botChannel: Option<ChannelId>, callerVoice: Option<ChannelId>): (reply: Option<string>)
    ensures reply.None? <==> nodeConnected && callerVoice.Some? && (botChannel.None? || botChannel == callerVoice)
    ensures !nodeConnected ==> reply == Some(OfflineMsg)
    ensures nodeConnected && callerVoice.None? ==> reply == Some(NotInVoiceMsg)
    ensures nodeConnected && callerVoice.Some? && botChannel.Some? && botChannel != callerVoice ==>
              reply == Some(WrongChannelMsg)
  {
    if !nodeConnected then Some(OfflineMsg)
    else if callerVoice.None? then Some(NotInVoiceMsg)
    else if !SameChannel(botChannel, callerVoice) then Some(WrongChannelMsg)
    else None
  }

  /**
   * The guards of pause, loop, skip and quit, in order: the node-exist decorator, "the bot
   * has a voice client" and the same-channel check.
   */
  function ControlGuard(nodeConnected: bool, botChannel: Option<ChannelId>, callerVoice: Option<ChannelId>): (reply: Option<string>)
    ensures reply.None? <==> nodeConnected && botChannel.Some? && callerVoice == botChannel
    ensures !nodeConnected ==> reply == Some(OfflineMsg)
    ensures nodeConnected && botChannel.None? ==> reply == Some(NoVoiceClientMsg)
    ensures nodeConnected && botChannel.Some? && callerVoice != botChannel ==> reply == Some(WrongChannelMsg)
  {
    if !nodeConnected then Some(OfflineMsg)
    else if botChannel.None? then Some(NoVoiceClientMsg)
    else if !SameChannel(botChannel, callerVoice) then Some(WrongChannelMsg)
    else None
  }

  /** Some member of the channel is not a bot (`members` holds each member's bot flag). */
  predicate HasHuman(members: seq<bool>) {
    exists i | 0 <= i < |members| :: !members[i]
  }

  /** The inner loop of the reaper: the `alone` flag with its early `break`. */
  method IsAlone(members: seq<bool>) returns (alone: bool)
    ensures alone <==> !HasHuman(members)
    ensures members == [] ==> alone
  {
    alone := true;
    var i := 0;
    while i < |members|
      invariant 0 <= i <= |members|
      invariant forall j :: 0 <= j < i ==> members[j]
    {
      if !members[i] {
        alone := false;
        break;
      }
      i := i + 1;
    }
  }

  /** The now-playing notice; " (looping)" marks a mode other than normal. */
  function NowPlayingMsg(title: string, mode: QueueMode): string {
    "Now playing *" + title + "*" + (if mode != Normal then " (looping)" else "") + "!"
  }

  /** The reply of `play`; while looping it names the track being looped. */
  function AddedMsg(title: string, loopingTitle: Option<string>): string {
    "Song *" + title + "* added to queue!"
    + (if loopingTitle.Some? then "\n(Note: Currently looping *" + loopingTitle.value + "*)" else "")
  }

  function SkipMsg(mode: QueueMode): string {
    "Skipping the current song. " + (if mode != Normal then "Looping stopped." else "")
  }

  /**
   * The track `play` takes from a search result (lines 231-233): a playlist contributes
   * its selected track, or its first one when nothing is selected. None where the
   * playlist index is out of range, which raises before the bot joins voice.
   */
  function SearchTracks(r: SearchResult): (ts: Option<seq<Track>>)
    requires !r.LoadError?
    ensures r.Tracks? ==> ts == Some(r.tracks)
    ensures r.Playlist? ==> var i := if r.selected >= 0 then r.selected else 0;
                            (ts.Some? <==> i < |r.tracks|) && (ts.Some? ==> ts.value == [r.tracks[i]])
  {
    match r
    case Tracks(ts) => Some(ts)
    case Playlist(ts, sel) =>
      var i := if sel >= 0 then sel else 0;
      if i < |ts| then Some([ts[i]]) else None
  }

  // ---------------------------------------------------------------------------
  // The player's state and its transitions

  /**
   * The state of one guild's player: its voice channel, the queue with the track it last
   * handed out (`loaded`) and its mode, the track being played and the paused flag.
   */
  datatype PlayerState = PlayerState(
    channel: ChannelId, queue: seq<Track>, loaded: Option<Track>, mode: QueueMode,
    current: Option<Track>, paused: bool)
  {
    /** `vc.playing`: a connected player has a current track, paused or not. */
    predicate Playing() { current.Some? }

    /**
     * What holds of every registered player between two handlers: an idle player has an
     * empty queue and is not looping, and the current track is the one the queue last
     * handed out.
     */
    ghost predicate Valid() {
      && (current.None? ==> queue == [] && mode == Normal)
      && (current.Some? ==> loaded == current)
    }
  }

  function NewPlayer(channel: ChannelId): (s: PlayerState)
    ensures s.Valid() && !s.Playing() && s.queue == []
  {
    PlayerState(channel, [], None, Normal, None, false)
  }

  /**
   * `wavelink.Queue.get()`. ASSUMPTION (the queue class is not part of this model): in loop
   * mode it hands out the track it handed out last, without touching the queue; otherwise
   * it pops the front, and raises `QueueEmpty` (None) on an empty queue.
   */
  function QueueGet(s: PlayerState): (r: Option<(Track, PlayerState)>)
    ensures s.queue != [] ==> r.Some?
  {
    if s.mode == Loop && s.loaded.Some? then Some((s.loaded.value, s))
    else if s.queue == [] then None
    else Some((s.queue[0], s.(queue := s.queue[1..], loaded := Some(s.queue[0]))))
  }

  /**
   * The body of `play` once a track is chosen (lines 244-254): append it to the queue and,
   * unless the player is already playing, start the track taken from the queue.
   */
  function Enqueue(s: PlayerState, t: Track): (r: PlayerState)
    ensures s.Valid() ==> r.Valid()
    ensures s.Playing() ==> r == s.(queue := s.queue + [t])
    ensures s.Valid() && !s.Playing() ==> r == s.(current := Some(t), loaded := Some(t))
    ensures r.channel == s.channel && r.paused == s.paused && r.mode == s.mode
  {
    var put := s.(queue := s.queue + [t]);
    if put.Playing() then put
    else
      var got := QueueGet(put);
      put.(queue := got.value.1.queue, loaded := got.value.1.loaded, current := Some(got.value.0))
  }

  /** `play` called once per track, in order. */
  function EnqueueAll(s: PlayerState, ts: seq<Track>): PlayerState
    decreases |ts|
  {
    if ts == [] then s else EnqueueAll(Enqueue(s, ts[0]), ts[1..])
  }

  /**
   * FIFO: played in order into an idle player, the first track starts at once and the
   * others wait in the queue in the order they were requested.
   */
  lemma {:induction false} EnqueueAllIsFifo(s: PlayerState, ts: seq<Track>)
    requires s.Valid() && !s.Playing() && ts != []
    ensures EnqueueAll(s, ts).Valid()
    ensures EnqueueAll(s, ts).current == Some(ts[0])
    ensures EnqueueAll(s, ts).queue == ts[1..]
  {
    var first := Enqueue(s, ts[0]);
    assert first.Playing() && first.queue == [];
    EnqueueAllWhilePlaying(first, ts[1..]);
  }

  lemma {:induction false} EnqueueAllWhilePlaying(s: PlayerState, ts: seq<Track>)
    requires s.Valid() && s.Playing()
    ensures EnqueueAll(s, ts) == s.(queue := s.queue + ts)
    decreases |ts|
  {
    if ts == [] {
      assert s.queue + ts == s.queue;
    } else {
      var next := Enqueue(s, ts[0]);
      EnqueueAllWhilePlaying(next, ts[1..]);
      assert s.queue + [ts[0]] + ts[1..] == s.queue + ts;
    }
  }

  /**
   * The track-end handler on FINISHED or STOPPED (lines 167-181): the finished track is
   * dropped, the queue hands out the next one and it is played. None where the queue is
   * empty, and the handler disconnects.
   */
  function Advance(s: PlayerState): (r: Option<PlayerState>)
    ensures s.Valid() ==> (r.None? <==> s.mode == Normal && s.queue == [])
    ensures s.Valid() && s.mode == Loop ==> r == Some(s)
    ensures s.Valid() && s.mode == Normal && s.queue != [] ==>
              r == Some(s.(queue := s.queue[1..], loaded := Some(s.queue[0]), current := Some(s.queue[0])))
    ensures s.Valid() && r.Some? ==> r.value.Valid() && r.value.Playing()
  {
    var ended := s.(current := None);
    match QueueGet(ended)
    case None => None
    case Some((next, after)) => Some(after.(current := Some(next)))
  }

  /** Loop mode replays the same track however many times it finishes. */
  lemma {:induction false} LoopReplays(s: PlayerState, n: nat)
    requires s.Valid() && s.mode == Loop
    ensures AdvanceTimes(s, n) == Some(s)
    decreases n
  {
    if n > 0 {
      LoopReplays(s, n - 1);
    }
  }

  /** The state after `n` consecutive FINISHED events; None once the player has left. */
  function AdvanceTimes(s: PlayerState, n: nat): Option<PlayerState>
    decreases n
  {
    if n == 0 then Some(s)
    else match AdvanceTimes(s, n - 1)
         case None => None
         case Some(t) => Advance(t)
  }

  /**
   * In normal mode each FINISHED event plays the next queued track: after `n` of them the
   * player plays the n-th queued track and holds the rest.
   */
  lemma {:induction false} NormalAdvanceWalksQueue(s: PlayerState, n: nat)
    requires s.Valid() && s.Playing() && s.mode == Normal && 0 < n <= |s.queue|
    ensures AdvanceTimes(s, n).Some?
    ensures AdvanceTimes(s, n).value.current == Some(s.queue[n - 1])
    ensures AdvanceTimes(s, n).value.queue == s.queue[n..]
    ensures AdvanceTimes(s, n).value.Valid() && AdvanceTimes(s, n).value.mode == Normal
    decreases n
  {
    if n > 1 {
      NormalAdvanceWalksQueue(s, n - 1);
      var t := AdvanceTimes(s, n - 1).value;
      assert t.queue[1..] == s.queue[n..];
    }
  }

  // ---------------------------------------------------------------------------
  // The queue listing

  /**
   * A track's own duration as `minutes:seconds`, the way the now-playing line shows it:
   * the displayed duration is the track's length in whole seconds.
   */
  function Line(t: Track): (l: TrackLine)
    ensures l.title == t.title && l.uri == t.uri && l.requester == t.requester
    ensures l.minutes * 60 + l.seconds == t.lengthMs / 1000 && l.seconds < 60
  {
    TrackLine(t.title, t.uri, t.lengthMs / 1000 / 60, t.lengthMs / 1000 % 60, t.requester)
  }

  /**
   * A queued track's line AS WRITTEN (lines 308-316): the minutes come from the CURRENT
   * track's length, the seconds from the queued track's.
   */
  function QueuedLine(t: Track, current: Track): (l: TrackLine)
    ensures l.title == t.title && l.uri == t.uri && l.requester == t.requester
    ensures l.seconds == Line(t).seconds && l.minutes == Line(current).minutes
    ensures l == Line(t) <==> Line(current).minutes == Line(t).minutes
  {
    TrackLine(t.title, t.uri, current.lengthMs / 1000 / 60, t.lengthMs / 1000 % 60, t.requester)
  }

  /** A queued 1:10 track behind a playing 3:00 track is listed as 3:10. */
  lemma QueuedLineBorrowsCurrentMinutes()
    ensures var current := Track("A", "a", 180000, "x");
            var queued := Track("B", "b", 70000, "y");
            QueuedLine(queued, current).minutes == 3 && QueuedLine(queued, current).seconds == 10
            && Line(queued).minutes == 1 && QueuedLine(queued, current) != Line(queued)
  {
  }

  // ---------------------------------------------------------------------------
  // The player object

  /** A guild's `wavelink.Player`, with its queue. */
  class Player {
    const channelId: ChannelId
    var queue: seq<Track>
    var loaded: Option<Track>
    var mode: QueueMode
    var current: Option<Track>
    var paused: bool

    function State(): PlayerState
      reads this
    {
      PlayerState(channelId, queue, loaded, mode, current, paused)
    }

    /** Joining a voice channel creates an idle player there. */
    constructor (channel: ChannelId)
      ensures State() == NewPlayer(channel)
    {
      channelId := channel;
      queue := [];
      loaded := None;
      mode := Normal;
      current := None;
      paused := false;
    }

    /** `queue.put_wait` */
    method PutWait(t: Track)
      modifies this
      ensures State() == old(State()).(queue := old(queue) + [t])
    {
      queue := queue + [t];
    }

    /**
     * `put_wait` followed, when the player is idle, by `play(queue.get())`: the track that
     * starts, if any.
     */
    method Request(t: Track) returns (started: Option<Track>)
      modifies this
      ensures State() == Enqueue(old(State()), t)
      ensures started == (if old(State()).Playing() then None else Enqueue(old(State()), t).current)
    {
      PutWait(t);
      started := None;
      if current.None? {
        var next := Get();
        Play(next.value);
        started := next;
      }
    }

    /** `queue.get()`, under the loop-mode assumption of `QueueGet`. */
    method Get() returns (t: Option<Track>)
      modifies this
      ensures match QueueGet(old(State()))
              case None => t.None? && State() == old(State())
              case Some((next, after)) => t == Some(next) && State() == after
    {
      if mode == Loop && loaded.Some? {
        t := loaded;
      } else if queue == [] {
        t := None;
      } else {
        t := Some(queue[0]);
        loaded := t;
        queue := queue[1..];
      }
    }

    /** `vc.play(track)`: keeps the paused flag as it is. */
    method Play(t: Track)
      modifies this
      ensures State() == old(State()).(current := Some(t))
    {
      current := Some(t);
    }

    /** The node reports that the current track ended. */
    method TrackEnded()
      modifies this
      ensures State() == old(State()).(current := None)
    {
      current := None;
    }

    method SetPaused(p: bool)
      modifies this
      ensures State() == old(State()).(paused := p)
    {
      paused := p;
    }

    method SetMode(m: QueueMode)
      modifies this
      ensures State() == old(State()).(mode := m)
    {
      mode := m;
    }
  }

  // ---------------------------------------------------------------------------
  // The cog: node supervisor, player registry, event handlers and commands

  class MusicCog {
    var reconnectCount: nat
    var nodeConnected: bool
    /** `bot.voice_clients`: at most one player per guild. */
    var players: map<GuildId, Player>

    ghost predicate Valid()
      reads this, players.Values
    {
      && reconnectCount <= MaxReconnects
      && (forall g :: g in players ==> players[g].State().Valid())
      && (forall g, h :: g in players && h in players && g != h ==> players[g] != players[h])
    }

    /** The state of every guild's player. */
    function Registry(): map<GuildId, PlayerState>
      reads this, players.Values
    {
      map g | g in players :: players[g].State()
    }

    /** The channel of the guild's voice client, if the bot has one there. */
    function BotChannel(g: GuildId): Option<ChannelId>
      reads this
    {
      if g in players then Some(players[g].channelId) else None
    }

    function PlayerFrame(g: GuildId): set<object>
      reads this
    {
      if g in players then {players[g]} else {}
    }

    constructor ()
      ensures Valid() && reconnectCount == 0 && !nodeConnected && players == map[]
    {
      reconnectCount := 0;
      nodeConnected := false;
      players := map[];
    }

    /** Drops the guild's player from the registry (`vc.disconnect()`). */
    method RemovePlayer(g: GuildId)
      requires Valid()
      modifies this
      ensures Valid()
      ensures players == old(players) - {g}
      ensures Registry() == old(Registry()) - {g}
      ensures reconnectCount == old(reconnectCount) && nodeConnected == old(nodeConnected)
    {
      players := players - {g};
    }

    // --- node supervisor ---

    /**
     * `connect_node`: one connect attempt. Reaching CONNECTED resets the retry counter;
     * a failure or an exception returns false and changes nothing.
     */
    method ConnectNodeAttempt(outcome: ConnectOutcome) returns (ok: bool, effects: seq<Effect>)
      requires Valid()
      modifies this
      ensures Valid()
      ensures ok <==> outcome == Connected
      ensures ok ==> reconnectCount == 0 && nodeConnected
      ensures !ok ==> reconnectCount == old(reconnectCount) && nodeConnected == old(nodeConnected)
      ensures players == old(players)
      ensures effects == [ConnectNode] + (if outcome == Raises then [LogError("connect raised")] else [])
    {
      effects := [ConnectNode];
      match outcome
      case Connected =>
        reconnectCount := 0;
        nodeConnected := true;
        ok := true;
      case NotConnected =>
        ok := false;
      case Raises =>
        effects := effects + [LogError("connect raised")];
        ok := false;
    }

    /** The node's connection changes on its own (it drops, or a retry inside wavelink succeeds). */
    method ObserveNodeStatus(connected: bool)
      requires Valid()
      modifies this
      ensures Valid()
      ensures nodeConnected == connected
      ensures reconnectCount == old(reconnectCount) && players == old(players)
    {
      nodeConnected := connected;
    }

    /**
     * `check_node_connection_task`, one tick: with no node and fewer than five attempts
     * spent, count one more and try to connect.
     */
    method CheckNodeConnection(outcome: ConnectOutcome) returns (attempted: bool)
      requires Valid()
      modifies this
      ensures Valid()
      ensures attempted <==> !old(nodeConnected) && old(reconnectCount) < MaxReconnects
      ensures !attempted ==> reconnectCount == old(reconnectCount) && nodeConnected == old(nodeConnected)
      ensures attempted && outcome == Connected ==> reconnectCount == 0 && nodeConnected
      ensures attempted && outcome != Connected ==>
                reconnectCount == old(reconnectCount) + 1 && nodeConnected == old(nodeConnected)
      ensures players == old(players)
    {
      attempted := false;
      if !nodeConnected {
        if reconnectCount < MaxReconnects {
          reconnectCount := reconnectCount + 1;
          attempted := true;
          var _, _ := ConnectNodeAttempt(outcome);
        }
      }
    }

    /**
     * The health check run on consecutive ticks with the given connect outcomes. Without a
     * success, it makes no more than the attempts left before the cap, and once the cap is
     * reached it makes none at all.
     */
    method RunHealthChecks(outcomes: seq<ConnectOutcome>) returns (attempts: nat)
      requires Valid()
      modifies this
      ensures Valid()
      ensures (forall i :: 0 <= i < |outcomes| ==> outcomes[i] != Connected) ==>
                && attempts <= MaxReconnects - old(reconnectCount)
                && reconnectCount == old(reconnectCount) + attempts
                && (!old(nodeConnected) ==> attempts == PyText.Min(|outcomes|, MaxReconnects - old(reconnectCount)))
                && (old(nodeConnected) ==> attempts == 0)
      ensures players == old(players)
    {
      attempts := 0;
      var i := 0;
      ghost var failuresOnly := forall j :: 0 <= j < |outcomes| ==> outcomes[j] != Connected;
      while i < |outcomes|
        invariant 0 <= i <= |outcomes|
        invariant Valid() && players == old(players)
        invariant failuresOnly ==> nodeConnected == old(nodeConnected)
        invariant failuresOnly ==> reconnectCount == old(reconnectCount) + attempts
        invariant failuresOnly && !old(nodeConnected) ==> attempts == PyText.Min(i, MaxReconnects - old(reconnectCount))
        invariant failuresOnly && old(nodeConnected) ==> attempts == 0
      {
        var attempted := CheckNodeConnection(outcomes[i]);
        if attempted {
          attempts := attempts + 1;
        }
        i := i + 1;
      }
    }

    /**
     * `connect_music`: the owner's manual reconnect. Non-owners are refused without an
     * attempt; for the owner it attempts regardless of the retry counter.
     */
    method ConnectMusic(caller: Caller, outcome: ConnectOutcome) returns (effects: seq<Effect>)
      requires Valid()
      modifies this
      ensures Valid()
      ensures !caller.isOwner ==> effects == [Reply(OwnerOnlyMsg)]
                                  && reconnectCount == old(reconnectCount) && nodeConnected == old(nodeConnected)
      ensures caller.isOwner ==> ConnectNode in effects
      ensures caller.isOwner && outcome == Connected ==>
                reconnectCount == 0 && nodeConnected && effects[|effects| - 1] == Followup("Connection successful.")
      ensures caller.isOwner && outcome != Connected ==>
                reconnectCount == old(reconnectCount) && nodeConnected == old(nodeConnected)
                && effects[|effects| - 1] == Followup("Reconnection failed.")
      ensures players == old(players)
    {
      if !caller.isOwner {
        return [Reply(OwnerOnlyMsg)];
      }
      var ok, connectEffects := ConnectNodeAttempt(outcome);
      effects := [Defer] + connectEffects;
      if ok {
        effects := effects + [Followup("Connection successful.")];
      } else {
        effects := effects + [Followup("Reconnection failed.")];
      }
    }

    // --- event handlers ---

    /**
     * `on_wavelink_track_start`: with a human in the channel, announce the track (marking
     * loop mode); with none, leave. A player that is gone makes the handler raise.
     */
    method OnTrackStart(g: GuildId, track: Track, members: seq<bool>) returns (effects: seq<Effect>)
      requires Valid()
      modifies this
      ensures Valid()
      ensures g !in old(players) ==> effects == [Raise] && Registry() == old(Registry())
      ensures g in old(players) && HasHuman(members) ==>
                Registry() == old(Registry()) && effects == [Announce(NowPlayingMsg(track.title, old(players[g].mode)))]
      ensures g in old(players) && !HasHuman(members) ==>
                Registry() == old(Registry()) - {g} && effects == [Announce(AloneMsg), Disconnect]
      ensures reconnectCount == old(reconnectCount) && nodeConnected == old(nodeConnected)
    {
      if g !in players {
        return [Raise];
      }
      var vc := players[g];
      var i := 0;
      while i < |members|
        invariant 0 <= i <= |members|
        invariant forall j :: 0 <= j < i ==> members[j]
      {
        if !members[i] {
          return [Announce(NowPlayingMsg(track.title, vc.mode))];
        }
        i := i + 1;
      }
      RemovePlayer(g);
      effects := [Announce(AloneMsg), Disconnect];
    }

    /**
     * `on_wavelink_track_end`: FINISHED or STOPPED (any case) plays what the queue hands out
     * next, or announces the end and leaves when it is empty; a player already gone is
     * ignored. Any other reason logs, announces a failure and leaves.
     */
    method OnTrackEnd(g: GuildId, rawReason: string) returns (effects: seq<Effect>)
      requires Valid()
      modifies this, PlayerFrame(g)
      ensures Valid()
      ensures var reason := ParseEndReason(rawReason);
              && (reason.Other? && g in old(players) ==>
                    Registry() == old(Registry()) - {g}
                    && effects == [LogError(EndLogMsg(rawReason)), Announce(FailureMsg), Disconnect])
              && (reason.Other? && g !in old(players) ==>
                    Registry() == old(Registry()) && effects == [LogError(EndLogMsg(rawReason)), Raise])
              && (!reason.Other? && g !in old(players) ==> Registry() == old(Registry()) && effects == [])
              && (!reason.Other? && g in old(players) && Advance(old(Registry())[g]).None? ==>
                    Registry() == old(Registry()) - {g} && effects == [Announce(AllPlayedMsg), Disconnect])
              && (!reason.Other? && g in old(players) && Advance(old(Registry())[g]).Some? ==>
                    var next := Advance(old(Registry())[g]).value;
                    Registry() == old(Registry())[g := next] && effects == [StartTrack(next.current.value)])
      ensures reconnectCount == old(reconnectCount) && nodeConnected == old(nodeConnected)
    {
      var reason := ParseEndReason(rawReason);
      if reason.Other? {
        effects := [LogError(EndLogMsg(rawReason))];
        if g !in players {
          return effects + [Raise];
        }
        RemovePlayer(g);
        return effects + [Announce(FailureMsg), Disconnect];
      }
      if g !in players {
        return [];
      }
      var vc := players[g];
      ghost var before := vc.State();
      vc.TrackEnded();
      var next := vc.Get();
      if next.None? {
        RegistryAfterUpdate(g, old(Registry()));
        ghost var mid := Registry();
        RemovePlayer(g);
        assert mid - {g} == old(Registry()) - {g};
        return [Announce(AllPlayedMsg), Disconnect];
      }
      vc.Play(next.value);
      assert vc.State() == Advance(before).value;
      RegistryAfterUpdate(g, old(Registry()));
      effects := [StartTrack(next.value)];
    }

    /**
     * `leave_inactive_voice_channel_task`, one tick: every player whose channel holds no
     * human (an empty channel included) is told so and disconnected; the others stay.
     */
    method LeaveInactiveVoiceChannels(membersOf: ChannelId -> seq<bool>)
      returns (left: set<GuildId>, effects: map<GuildId, seq<Effect>>)
      requires Valid()
      modifies this
      ensures Valid()
      ensures left == set g | g in old(players) && !HasHuman(membersOf(old(players)[g].channelId))
      ensures effects == map g | g in left :: [Announce(AloneMsg), Disconnect]
      ensures players == map g | g in old(players) && g !in left :: old(players)[g]
      ensures reconnectCount == old(reconnectCount) && nodeConnected == old(nodeConnected)
    {
      left := {};
      var pending := players.Keys;
      while pending != {}
        invariant pending <= old(players).Keys && pending <= players.Keys
        invariant Valid()
        invariant reconnectCount == old(reconnectCount) && nodeConnected == old(nodeConnected)
        invariant left == set g | g in old(players) && g !in pending && !HasHuman(membersOf(old(players)[g].channelId))
        invariant players == map g | g in old(players) && g !in left :: old(players)[g]
        decreases pending
      {
        HasMember(pending);
        var g :| g in pending;
        var alone := IsAlone(membersOf(players[g].channelId));
        if alone {
          players := players - {g};
          left := left + {g};
        }
        pending := pending - {g};
      }
      // each channel left was told why before the disconnect
      effects := map g | g in left :: [Announce(AloneMsg), Disconnect];
    }

    // --- commands ---

    /**
     * `play`: after its guards, search; join the caller's channel if the bot has no player
     * in the guild; enqueue the chosen track with the caller as requester.
     */
    method Play(g: GuildId, caller: Caller, search: SearchResult) returns (effects: seq<Effect>)
      requires Valid()
      modifies this, PlayerFrame(g)
      ensures Valid()
      ensures reconnectCount == old(reconnectCount) && nodeConnected == old(nodeConnected)
      ensures var reply := PlayGuard(old(nodeConnected), old(BotChannel(g)), caller.voice);
              reply.Some? ==> effects == [Reply(reply.value)] && Registry() == old(Registry())
      ensures PlayGuard(old(nodeConnected), old(BotChannel(g)), caller.voice).None? && search.LoadError? ==>
                effects == [Defer, Followup(InvalidLinkMsg)] && Registry() == old(Registry())
      ensures PlayGuard(old(nodeConnected), old(BotChannel(g)), caller.voice).None? && !search.LoadError?
              && SearchTracks(search).None? ==>
                effects == [Defer, Raise] && Registry() == old(Registry())
      ensures PlayGuard(old(nodeConnected), old(BotChannel(g)), caller.voice).None? && !search.LoadError?
              && SearchTracks(search).Some? ==>
                var ts := SearchTracks(search).value;
                var before := if g in old(players) then old(Registry())[g] else NewPlayer(caller.voice.value);
                var joined := if g in old(players) then [] else [ConnectVoice(caller.voice.value)];
                && g in players
                && (ts == [] ==> Registry() == old(Registry())[g := before] && effects == [Defer] + joined + [Raise])
                && (ts != [] ==>
                      var t := ts[0].(requester := caller.name);
                      && Registry() == old(Registry())[g := Enqueue(before, t)]
                      && effects == [Defer] + joined
                         + [Followup(AddedMsg(t.title, if before.mode != Normal then Some(before.current.value.title) else None))]
                         + (if before.Playing() then [] else [StartTrack(t)]))
    {
      var reply := PlayGuard(nodeConnected, BotChannel(g), caller.voice);
      if reply.Some? {
        return [Reply(reply.value)];
      }
      effects := [Defer];
      if search.LoadError? {
        return effects + [Followup(InvalidLinkMsg)];
      }
      var found := SearchTracks(search);
      if found.None? {
        return effects + [Raise];
      }
      var tracks := found.value;
      var vc: Player;
      if g in players {
        vc := players[g];
      } else {
        vc := JoinVoice(g, caller.voice.value);
        effects := effects + [ConnectVoice(caller.voice.value)];
      }
      ghost var registryBefore := Registry();
      if tracks == [] {
        return effects + [Raise];
      }
      var track := tracks[0].(requester := caller.name);
      assert players[g] == vc;
      var looping := if vc.mode != Normal then Some(vc.current.value.title) else None;
      var started := vc.Request(track);
      effects := effects + [Followup(AddedMsg(track.title, looping))];
      if started.Some? {
        effects := effects + [StartTrack(started.value)];
      }
      RegistryAfterUpdate(g, registryBefore);
    }

    /** Joining the caller's voice channel registers a new, idle player for the guild. */
    method JoinVoice(g: GuildId, channel: ChannelId) returns (vc: Player)
      requires Valid() && g !in players
      modifies this
      ensures Valid() && fresh(vc)
      ensures players == old(players)[g := vc]
      ensures Registry() == old(Registry())[g := NewPlayer(channel)]
      ensures reconnectCount == old(reconnectCount) && nodeConnected == old(nodeConnected)
    {
      vc := new Player(channel);
      players := players[g := vc];
      RegistryAfterUpdate(g, old(Registry())[g := NewPlayer(channel)]);
    }

    /**
     * `queue`: the listing, capped at 20 entries, in queue order; nothing changes. Each
     * queued track shows its own duration (Line), as evidently intended; QueuedLine is the
     * listing line as the source builds it.
     */
    method Queue(g: GuildId) returns (effects: seq<Effect>)
      requires Valid()
      ensures !nodeConnected ==> effects == [Reply(OfflineMsg)]
      ensures nodeConnected && g !in players ==> effects == [Reply(NoVoiceClientMsg)]
      ensures nodeConnected && g in players ==>
                var s := players[g].State();
                && |effects| == 1 && effects[0].ShowQueue?
                && var e := effects[0].embed;
                && e.size == (if |s.queue| == 0 then "Empty" else PyText.NatToString(|s.queue|))
                && e.paused == s.paused && e.looping == (s.mode != Normal)
                && |e.entries| == PyText.Min(|s.queue|, ListingCap)
                && (forall i :: 0 <= i < |e.entries| ==>
                      e.entries[i] == (i + 1, Line(s.queue[i])))
                && e.nowPlaying == (if s.Playing() then Some(Line(s.current.value)) else None)
    {
      if !nodeConnected {
        return [Reply(OfflineMsg)];
      }
      if g !in players {
        return [Reply(NoVoiceClientMsg)];
      }
      var vc := players[g];
      var size := if |vc.queue| == 0 then "Empty" else PyText.NatToString(|vc.queue|);
      var entries: seq<(nat, TrackLine)> := [];
      var index := 0;
      while index < |vc.queue|
        invariant 0 <= index <= |vc.queue| && index <= ListingCap
        invariant |entries| == index
        invariant forall i :: 0 <= i < index ==> entries[i] == (i + 1, Line(vc.queue[i]))
      {
        if index >= ListingCap {
          break;
        }
        entries := entries + [(index + 1, Line(vc.queue[index]))];
        index := index + 1;
      }
      var nowPlaying := if vc.current.Some? then Some(Line(vc.current.value)) else None;
      effects := [ShowQueue(QueueEmbed(size, vc.paused, vc.mode != Normal, entries, nowPlaying))];
    }

    /** `pause`: flips the paused flag, whether or not a track is playing. */
    method Pause(g: GuildId, caller: Caller) returns (effects: seq<Effect>)
      requires Valid()
      modifies this, PlayerFrame(g)
      ensures Valid()
      ensures reconnectCount == old(reconnectCount) && nodeConnected == old(nodeConnected)
      ensures var reply := ControlGuard(old(nodeConnected), old(BotChannel(g)), caller.voice);
              && (reply.Some? ==> effects == [Reply(reply.value)] && Registry() == old(Registry()))
              && (reply.None? ==>
                    var s := old(Registry())[g];
                    && Registry() == old(Registry())[g := s.(paused := !s.paused)]
                    && effects == [SetPaused(!s.paused),
                                   Reply(if s.paused then "Music player resumed!" else "Music player paused!")])
    {
      var reply := ControlGuard(nodeConnected, BotChannel(g), caller.voice);
      if reply.Some? {
        return [Reply(reply.value)];
      }
      var vc := players[g];
      ghost var registryBefore := Registry();
      if vc.paused {
        vc.SetPaused(false);
        effects := [SetPaused(false), Reply("Music player resumed!")];
      } else {
        vc.SetPaused(true);
        effects := [SetPaused(true), Reply("Music player paused!")];
      }
      RegistryAfterUpdate(g, registryBefore);
    }

    /** `loop`: flips between normal and loop mode while playing; otherwise only replies. */
    method Loop(g: GuildId, caller: Caller) returns (effects: seq<Effect>)
      requires Valid()
      modifies this, PlayerFrame(g)
      ensures Valid()
      ensures reconnectCount == old(reconnectCount) && nodeConnected == old(nodeConnected)
      ensures var reply := ControlGuard(old(nodeConnected), old(BotChannel(g)), caller.voice);
              && (reply.Some? ==> effects == [Reply(reply.value)] && Registry() == old(Registry()))
              && (reply.None? && !old(Registry())[g].Playing() ==>
                    effects == [Reply(NotPlayingMsg)] && Registry() == old(Registry()))
              && (reply.None? && old(Registry())[g].Playing() ==>
                    var s := old(Registry())[g];
                    && Registry() == old(Registry())[g := s.(mode := if s.mode == Normal then QueueMode.Loop else Normal)]
                    && effects == [Reply(if s.mode == Normal then "Looping started. Run /loop again to cancel..."
                                         else "Looping stopped.")])
    {
      var reply := ControlGuard(nodeConnected, BotChannel(g), caller.voice);
      if reply.Some? {
        return [Reply(reply.value)];
      }
      var vc := players[g];
      if vc.current.None? {
        return [Reply(NotPlayingMsg)];
      }
      ghost var registryBefore := Registry();
      if vc.mode == Normal {
        vc.SetMode(QueueMode.Loop);
        effects := [Reply("Looping started. Run /loop again to cancel...")];
      } else {
        vc.SetMode(Normal);
        effects := [Reply("Looping stopped.")];
      }
      RegistryAfterUpdate(g, registryBefore);
    }

    /**
     * `skip`: while playing, sets the mode back to normal and stops the track (its end event
     * then advances the queue); when not playing it does nothing, without a reply.
     */
    method Skip(g: GuildId, caller: Caller) returns (effects: seq<Effect>)
      requires Valid()
      modifies this, PlayerFrame(g)
      ensures Valid()
      ensures reconnectCount == old(reconnectCount) && nodeConnected == old(nodeConnected)
      ensures var reply := ControlGuard(old(nodeConnected), old(BotChannel(g)), caller.voice);
              && (reply.Some? ==> effects == [Reply(reply.value)] && Registry() == old(Registry()))
              && (reply.None? && !old(Registry())[g].Playing() ==> effects == [] && Registry() == old(Registry()))
              && (reply.None? && old(Registry())[g].Playing() ==>
                    var s := old(Registry())[g];
                    && Registry() == old(Registry())[g := s.(mode := Normal)]
                    && effects == [Reply(SkipMsg(s.mode)), StopTrack])
    {
      var reply := ControlGuard(nodeConnected, BotChannel(g), caller.voice);
      if reply.Some? {
        return [Reply(reply.value)];
      }
      var vc := players[g];
      if vc.current.None? {
        return [];
      }
      ghost var registryBefore := Registry();
      effects := [Reply(SkipMsg(vc.mode)), StopTrack];
      vc.SetMode(Normal);
      RegistryAfterUpdate(g, registryBefore);
    }

    /** `quit`: says goodbye and disconnects, which drops the player and its queue. */
    method Quit(g: GuildId, caller: Caller) returns (effects: seq<Effect>)
      requires Valid()
      modifies this
      ensures Valid()
      ensures reconnectCount == old(reconnectCount) && nodeConnected == old(nodeConnected)
      ensures var reply := ControlGuard(old(nodeConnected), old(BotChannel(g)), caller.voice);
              && (reply.Some? ==> effects == [Reply(reply.value)] && Registry() == old(Registry()))
              && (reply.None? ==>
                    Registry() == old(Registry()) - {g} && effects == [Reply("Ready to leave. Goodbye!"), Disconnect])
    {
      var reply := ControlGuard(nodeConnected, BotChannel(g), caller.voice);
      if reply.Some? {
        return [Reply(reply.value)];
      }
      RemovePlayer(g);
      effects := [Reply("Ready to leave. Goodbye!"), Disconnect];
    }

    /** After only `players[g]` changed, the registry differs from `before` at `g` alone. */
    lemma RegistryAfterUpdate(g: GuildId, before: map<GuildId, PlayerState>)
      requires g in players
      requires before.Keys == players.Keys
      requires forall h :: h in players && h != g ==> before[h] == players[h].State()
      ensures Registry() == before[g := players[g].State()]
    {
      var after := before[g := players[g].State()];
      assert Registry().Keys == after.Keys;
      forall h | h in after
        ensures Registry()[h] == after[h]
      {
      }
    }
  }

  /** The error logged for a reason other than FINISHED or STOPPED. */
  function EndLogMsg(raw: string): string {
    "Music playing stopped. Reason: " + PyText.Upper(raw)
  }

  /** A non-empty set of guilds has a member to pick. */
  lemma HasMember(s: set<GuildId>)
    requires s != {}
    ensures exists g :: g in s
  {
    if forall g :: g !in s {
      assert false;
    }
  }
}

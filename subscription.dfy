/**
 * The YouTube subscription cog (src/my_discord_bot/cogs/subscription.py): every hour,
 * for each subscription, the new uploads of the subscribed channel are collected and the
 * scheduled, not yet started live streams among them are announced in the guild's bot
 * channel; `subscribe` toggles a subscription on and off.
 *
 * The two database tables the cog reads and writes are fields of the cog. The YouTube
 * API and the clock are parameters; timestamps are plain integers compared as instants.
 */
module Subscription {
  import opened Wrappers
  import PyText

  type ChannelId = int

  /** A row of the `guild` table. */
  datatype GuildRow = GuildRow(guildId: int, guildName: string, botChannel: Option<ChannelId>)

  /** A row of the `subscription` table; `guildRow` is the key of its guild's row. */
  datatype SubRow = SubRow(
    guildRow: nat, youtubeChannelName: string, youtubeChannelId: string,
    uploadPlaylist: string, announcementTarget: Option<string>, lastCheckedAt: int)

  /** `videoPublishedAt` of a playlist item: a timestamp, or text `strptime` rejects. */
  datatype Published = At(time: int) | Unparseable

  /** The `contentDetails` of a playlist item; a missing field is None. */
  datatype ContentDetails = ContentDetails(videoPublishedAt: Option<Published>, videoId: Option<string>)

  datatype PlaylistItem = PlaylistItem(contentDetails: Option<ContentDetails>)

  /** The answer to `playlistItems().list(...)`: it raised, it has no "items", or its items. */
  datatype PlaylistResponse = PlaylistFailed | NoItems | Items(items: seq<PlaylistItem>)

  /** `liveStreamingDetails` of a video: which of its two start times are present. */
  datatype LiveDetails = LiveDetails(hasScheduledStart: bool, hasActualStart: bool)

  datatype Video = Video(id: string, title: string, description: string, live: Option<LiveDetails>)

  /** The answer to `videos().list(...)`: it raised, it has no "items", or its items. */
  datatype VideosResponse = VideosFailed | NoVideos | Videos(videos: seq<Video>)

  /** The first item of `channels().list(...)`: its uploads playlist and its title. */
  datatype ChannelItem = ChannelItem(uploads: Option<string>, title: Option<string>)

  /** The answer to `channels().list(...)`. */
  datatype ChannelResponse = ChannelFailed | NoChannelItems | ChannelItems(items: seq<ChannelItem>)

  /** What the services answer during one scan. */
  datatype Services = Services(
    now: int,
    channelResolves: ChannelId -> bool,
    playlist: string -> PlaylistResponse,
    videosFor: seq<string> -> VideosResponse)

  /** A message posted to a channel. */
  datatype Send = Send(channel: ChannelId, text: string)

  /** What `subscribe` does towards the user. */
  datatype Reply =
    | Respond(text: string)          // ia.response.send_message
    | Defer                          // ia.response.defer
    | Followup(text: string)         // ia.followup.send
    | Raise                          // an exception escapes the command

  // ---------------------------------------------------------------------------
  // Collecting the new uploads

  /** An item with a publish time and a video id; other items are skipped. */
  predicate WellFormed(item: PlaylistItem) {
    item.contentDetails.Some? && item.contentDetails.value.videoPublishedAt.Some?
    && item.contentDetails.value.videoId.Some?
  }

  /**
   * The video ids collected from the items (lines 95-111): the well-formed items up to
   * the first one not published after `since`; None when a publish time does not parse,
   * which aborts the subscription.
   */
  function Collected(items: seq<PlaylistItem>, since: int): (ids: Option<seq<string>>)
    ensures ids.Some? ==> |ids.value| <= |items|
  {
    if items == [] then Some([])
    else if !WellFormed(items[0]) then Collected(items[1..], since)
    else
      var d := items[0].contentDetails.value;
      match d.videoPublishedAt.value
      case Unparseable => None
      case At(t) =>
        if t > since then
          (match Collected(items[1..], since)
           case None => None
           case Some(rest) => Some([d.videoId.value] + rest))
        else Some([])
  }

  /** Every collected id is that of a well-formed item published strictly after `since`. */
  lemma {:induction false} CollectedAreNewer(items: seq<PlaylistItem>, since: int, id: string)
    requires Collected(items, since).Some? && id in Collected(items, since).value
    ensures exists k :: 0 <= k < |items| && WellFormed(items[k])
              && items[k].contentDetails.value.videoId == Some(id)
              && items[k].contentDetails.value.videoPublishedAt.value.At?
              && items[k].contentDetails.value.videoPublishedAt.value.time > since
    decreases |items|
  {
    assert items != [];
    if WellFormed(items[0]) && id == items[0].contentDetails.value.videoId.value {
      assert items[0].contentDetails.value.videoPublishedAt.value.At?;
      assert items[0].contentDetails.value.videoPublishedAt.value.time > since;
    } else {
      assert Collected(items[1..], since).Some? && id in Collected(items[1..], since).value;
      CollectedAreNewer(items[1..], since, id);
      var k :| 0 <= k < |items[1..]| && WellFormed(items[1..][k])
               && items[1..][k].contentDetails.value.videoId == Some(id)
               && items[1..][k].contentDetails.value.videoPublishedAt.value.At?
               && items[1..][k].contentDetails.value.videoPublishedAt.value.time > since;
      assert items[k + 1] == items[1..][k];
    }
  }

  /** The scan stops at the first well-formed item that is not newer: what follows is never read. */
  lemma {:induction false} CollectedStopsAtOlder(front: seq<PlaylistItem>, older: PlaylistItem, back: seq<PlaylistItem>, since: int)
    requires WellFormed(older) && older.contentDetails.value.videoPublishedAt.value.At?
    requires older.contentDetails.value.videoPublishedAt.value.time <= since
    ensures Collected(front + [older] + back, since) == Collected(front + [older], since)
    decreases |front|
  {
    if front == [] {
      assert (front + [older] + back)[1..] == back;
    } else {
      CollectedStopsAtOlder(front[1..], older, back, since);
      assert (front + [older] + back)[1..] == front[1..] + [older] + back;
      assert (front + [older])[1..] == front[1..] + [older];
    }
  }

  /** A well-formed item published after `since`. */
  predicate IsNewer(item: PlaylistItem, since: int) {
    WellFormed(item) && item.contentDetails.value.videoPublishedAt.value.At?
    && item.contentDetails.value.videoPublishedAt.value.time > since
  }

  /** Every well-formed item of `items` is newer than `since`. */
  predicate AllNewer(items: seq<PlaylistItem>, since: int) {
    forall k :: 0 <= k < |items| && WellFormed(items[k]) ==> IsNewer(items[k], since)
  }

  /** The video ids of the well-formed items, in item order. */
  function WellFormedIds(items: seq<PlaylistItem>): (ids: seq<string>)
    ensures |ids| <= |items|
  {
    if items == [] then []
    else if WellFormed(items[0]) then [items[0].contentDetails.value.videoId.value] + WellFormedIds(items[1..])
    else WellFormedIds(items[1..])
  }

  /**
   * A front whose well-formed items are all newer contributes all their ids, in order,
   * ahead of whatever the rest contributes.
   */
  lemma {:induction false} CollectedOfNewerFront(front: seq<PlaylistItem>, rest: seq<PlaylistItem>, since: int)
    requires AllNewer(front, since)
    ensures Collected(front + rest, since) ==
              if Collected(rest, since).None? then None
              else Some(WellFormedIds(front) + Collected(rest, since).value)
    decreases |front|
  {
    if front == [] {
      assert front + rest == rest;
      if Collected(rest, since).Some? {
        assert WellFormedIds(front) + Collected(rest, since).value == Collected(rest, since).value;
      }
    } else {
      assert (front + rest)[0] == front[0] && (front + rest)[1..] == front[1..] + rest;
      assert AllNewer(front[1..], since) by {
        forall k | 0 <= k < |front[1..]| && WellFormed(front[1..][k])
          ensures IsNewer(front[1..][k], since)
        {
          assert front[1..][k] == front[k + 1];
        }
      }
      CollectedOfNewerFront(front[1..], rest, since);
      if WellFormed(front[0]) {
        assert IsNewer(front[0], since);
        if Collected(rest, since).Some? {
          AppendAssoc([front[0].contentDetails.value.videoId.value], WellFormedIds(front[1..]), Collected(rest, since).value);
        }
      }
    }
  }

  /**
   * The collected ids are exactly the leading run of newer items: everything before the
   * first well-formed item that is not newer, in item order.
   */
  lemma CollectedIsLeadingRun(front: seq<PlaylistItem>, older: PlaylistItem, back: seq<PlaylistItem>, since: int)
    requires AllNewer(front, since)
    requires WellFormed(older) && older.contentDetails.value.videoPublishedAt.value.At?
    requires older.contentDetails.value.videoPublishedAt.value.time <= since
    ensures Collected(front + [older] + back, since) == Some(WellFormedIds(front))
  {
    CollectedStopsAtOlder(front, older, back, since);
    CollectedOfNewerFront(front, [older], since);
    assert Collected([older], since) == Some([]);
    assert WellFormedIds(front) + [] == WellFormedIds(front);
  }

  /** When every well-formed item is newer, every id is collected, in item order. */
  lemma CollectedOfAllNewer(items: seq<PlaylistItem>, since: int)
    requires AllNewer(items, since)
    ensures Collected(items, since) == Some(WellFormedIds(items))
  {
    CollectedOfNewerFront(items, [], since);
    assert items + [] == items;
    assert WellFormedIds(items) + [] == WellFormedIds(items);
  }

  /** A publish time that does not parse, reached before any older item, aborts the collection. */
  lemma CollectedAbortsAtUnparseable(front: seq<PlaylistItem>, broken: PlaylistItem, back: seq<PlaylistItem>, since: int)
    requires AllNewer(front, since)
    requires WellFormed(broken) && broken.contentDetails.value.videoPublishedAt.value.Unparseable?
    ensures Collected(front + [broken] + back, since).None?
  {
    CollectedOfNewerFront(front, [broken] + back, since);
    assert front + [broken] + back == front + ([broken] + back);
    assert ([broken] + back)[0] == broken;
  }

  /**
   * The collection loop: append the id of each newer well-formed item, `break` at the
   * first older one; a publish time that does not parse raises.
   */
  method CollectVideoIds(items: seq<PlaylistItem>, since: int) returns (ids: Option<seq<string>>)
    ensures ids == Collected(items, since)
  {
    var collected: seq<string> := [];
    var i := 0;
    assert items[0..] == items;
    if Collected(items, since).Some? {
      assert [] + Collected(items, since).value == Collected(items, since).value;
    }
    while i < |items|
      invariant 0 <= i <= |items|
      invariant Collected(items[i..], since).None? ==> Collected(items, since).None?
      invariant Collected(items[i..], since).Some? ==>
                  Collected(items, since) == Some(collected + Collected(items[i..], since).value)
    {
      var item := items[i];
      assert items[i..][0] == item && items[i..][1..] == items[i + 1..];
      if WellFormed(item) {
        var d := item.contentDetails.value;
        if d.videoPublishedAt.value.Unparseable? {
          assert Collected(items[i..], since) == None;
          return None;
        }
        if d.videoPublishedAt.value.time > since {
          match Collected(items[i + 1..], since)
          case None =>
          case Some(rest) => assert collected + ([d.videoId.value] + rest) == (collected + [d.videoId.value]) + rest;
          collected := collected + [d.videoId.value];
        } else {
          assert Collected(items[i..], since) == Some([]);
          assert collected + [] == collected;
          break;
        }
      }
      i := i + 1;
    }
    if i == |items| {
      assert items[i..] == [];
      assert collected + [] == collected;
    }
    ids := Some(collected);
  }

  // ---------------------------------------------------------------------------
  // Announcements

  /** A live stream that is scheduled and has not started yet. */
  predicate IsUpcoming(v: Video) {
    v.live.Some? && v.live.value.hasScheduledStart && !v.live.value.hasActualStart
  }

  /** The role mention: the announcement target when it is set, else @everyone. */
  function RoleTag(target: Option<string>): (tag: string)
    ensures target.Some? && target.value != [] <==> tag != "@everyone"
    ensures target.Some? && target.value != [] ==> tag == "<@&" + target.value + ">"
  {
    if target.Some? && target.value != [] then
      var tag := "<@&" + target.value + ">";
      assert tag[0] != "@everyone"[0];
      tag
    else "@everyone"
  }

  /** The announcement of one video, addressed to the role mention `tag`. */
  function Announcement(tag: string, v: Video): (text: string)
    ensures |tag| <= |text| && text[..|tag|] == tag
    ensures |LinkLine(v.id)| <= |text| && text[|text| - |LinkLine(v.id)|..] == LinkLine(v.id)
  {
    var text := tag + ("\n# " + v.title + "\n" + v.description) + LinkLine(v.id);
    assert text[..|tag|] == tag;
    assert text == tag + "\n# " + v.title + "\n" + v.description + LinkLine(v.id);
    text
  }

  /** The closing lines of an announcement: the watch link of the video. */
  function LinkLine(id: string): string {
    "\n\n**Link:**\nhttps://www.youtube.com/watch?v=" + id
  }

  /** What one video of the response contributes: its announcement if it is an upcoming stream. */
  function Announced(tag: string, v: Video): seq<string> {
    if IsUpcoming(v) then [Announcement(tag, v)] else []
  }

  /** The announcements of a response: its upcoming streams, last item first. */
  function Announcements(tag: string, vs: seq<Video>): (texts: seq<string>)
    ensures |texts| <= |vs|
  {
    if vs == [] then []
    else Announced(tag, vs[|vs| - 1]) + Announcements(tag, vs[..|vs| - 1])
  }

  lemma AnnouncementsSnoc(tag: string, vs: seq<Video>, v: Video)
    ensures Announcements(tag, vs + [v]) == Announced(tag, v) + Announcements(tag, vs)
  {
    var ws := vs + [v];
    assert ws[..|ws| - 1] == vs;
  }

  /** Announcements go out in reverse response order. */
  lemma {:induction false} AnnouncementsReverse(tag: string, a: seq<Video>, b: seq<Video>)
    ensures Announcements(tag, a + b) == Announcements(tag, b) + Announcements(tag, a)
    decreases |b|
  {
    if b == [] {
      assert a + b == a;
    } else {
      var init, last := b[..|b| - 1], b[|b| - 1];
      var x, p, q := Announced(tag, last), Announcements(tag, init), Announcements(tag, a);
      assert b == init + [last];
      AppendAssoc(a, init, [last]);
      AnnouncementsSnoc(tag, a + init, last);
      AnnouncementsReverse(tag, a, init);
      AnnouncementsSnoc(tag, init, last);
      AppendAssoc(x, p, q);
    }
  }

  lemma AppendAssoc<T>(x: seq<T>, y: seq<T>, z: seq<T>)
    ensures x + (y + z) == (x + y) + z
  {
  }

  /** Exactly the upcoming streams are announced. */
  lemma {:induction false} AnnouncementsMembers(tag: string, vs: seq<Video>, m: string)
    ensures m in Announcements(tag, vs) <==> exists v :: v in vs && IsUpcoming(v) && Announcement(tag, v) == m
    decreases |vs|
  {
    if vs != [] {
      AnnouncementsMembers(tag, vs[..|vs| - 1], m);
      assert vs == vs[..|vs| - 1] + [vs[|vs| - 1]];
    }
  }

  /** The prefix of `k` videos announces its last one before the rest. */
  lemma AnnouncementsOfPrefix(tag: string, vs: seq<Video>, k: nat)
    requires 0 < k <= |vs|
    ensures Announcements(tag, vs[..k]) == Announced(tag, vs[k - 1]) + Announcements(tag, vs[..k - 1])
  {
    assert vs[..k][..k - 1] == vs[..k - 1];
  }

  lemma SkipStep(texts: seq<string>, tag: string, v: Video, rest: seq<string>, all: seq<string>)
    requires !IsUpcoming(v) && texts + (Announced(tag, v) + rest) == all
    ensures texts + rest == all
  {
    assert Announced(tag, v) + rest == rest;
  }

  lemma AddStep(texts: seq<string>, tag: string, v: Video, rest: seq<string>, all: seq<string>)
    requires IsUpcoming(v) && texts + (Announced(tag, v) + rest) == all
    ensures texts + [Announcement(tag, v)] + rest == all
  {
    var x := [Announcement(tag, v)];
    assert Announced(tag, v) == x;
    assert texts + (x + rest) == texts + x + rest;
  }

  /** The loop over `reversed(videos["items"])` with its two `continue`s. */
  method Announce(target: Option<string>, vs: seq<Video>) returns (texts: seq<string>)
    ensures texts == Announcements(RoleTag(target), vs)
  {
    var tag := RoleTag(target);
    texts := [];
    var k := |vs|;
    assert vs[..k] == vs;
    while k > 0
      invariant 0 <= k <= |vs|
      invariant texts + Announcements(tag, vs[..k]) == Announcements(tag, vs)
    {
      var v := vs[k - 1];
      AnnouncementsOfPrefix(tag, vs, k);
      k := k - 1;
      if v.live.None? {
        SkipStep(texts, tag, v, Announcements(tag, vs[..k]), Announcements(tag, vs));
        continue;
      }
      if !v.live.value.hasScheduledStart || v.live.value.hasActualStart {
        SkipStep(texts, tag, v, Announcements(tag, vs[..k]), Announcements(tag, vs));
        continue;
      }
      AddStep(texts, tag, v, Announcements(tag, vs[..k]), Announcements(tag, vs));
      texts := texts + [Announcement(tag, v)];
    }
  }

  // ---------------------------------------------------------------------------
  // One subscription of the scan

  /** What checking one subscription comes to. */
  datatype Outcome =
    | Skipped                                        // no bot channel, or an exception was logged
    | StopScan                                       // the playlist had no "items": `break`
    | Checked(sends: seq<Send>)                      // `last_checked_at` is now `services.now`

  /**
   * The step of lines 63-156 for one subscription whose guild has `botChannel`: only a
   * subscription with a resolvable bot channel is checked, and its messages all go there.
   */
  function Step(sub: SubRow, botChannel: Option<ChannelId>, services: Services): (o: Outcome)
    ensures !o.Skipped? ==> botChannel.Some? && services.channelResolves(botChannel.value)
    ensures o.Checked? ==> forall m :: m in o.sends ==> m.channel == botChannel.value
  {
    if botChannel.None? || !services.channelResolves(botChannel.value) then Skipped
    else
      match services.playlist(sub.uploadPlaylist)
      case PlaylistFailed => Skipped
      case NoItems => StopScan
      case Items(items) =>
        match Collected(items, sub.lastCheckedAt)
        case None => Skipped
        case Some(ids) =>
          match services.videosFor(ids)
          case VideosFailed => Checked([])
          case NoVideos => Checked([])
          case Videos(vs) => Checked(SendsTo(botChannel.value, Announcements(RoleTag(sub.announcementTarget), vs)))
  }

  function SendsTo(channel: ChannelId, texts: seq<string>): (ss: seq<Send>)
    ensures |ss| == |texts| && forall i :: 0 <= i < |texts| ==> ss[i] == Send(channel, texts[i])
  {
    if texts == [] then [] else [Send(channel, texts[0])] + SendsTo(channel, texts[1..])
  }

  /** A subscription after its step: only a completed check moves `last_checked_at`. */
  function After(sub: SubRow, o: Outcome, now: int): SubRow {
    if o.Checked? then sub.(lastCheckedAt := now) else sub
  }

  /** The bot channel of a subscription's guild. */
  function BotChannelOf(guilds: seq<GuildRow>, sub: SubRow): Option<ChannelId> {
    if sub.guildRow < |guilds| then guilds[sub.guildRow].botChannel else None
  }

  /** The outcome each subscription's step would have. */
  function Outcomes(guilds: seq<GuildRow>, subs: seq<SubRow>, services: Services): (outs: seq<Outcome>)
    ensures |outs| == |subs|
    ensures forall i :: 0 <= i < |subs| ==> outs[i] == Step(subs[i], BotChannelOf(guilds, subs[i]), services)
  {
    if subs == [] then []
    else [Step(subs[0], BotChannelOf(guilds, subs[0]), services)] + Outcomes(guilds, subs[1..], services)
  }

  /** The scan over the subscriptions from the front, given their outcomes: the new rows and the messages sent. */
  function Scan(outs: seq<Outcome>, subs: seq<SubRow>, now: int): (r: (seq<SubRow>, seq<Send>))
    requires |outs| == |subs|
    ensures |r.0| == |subs|
  {
    if subs == [] then ([], [])
    else if outs[0].StopScan? then (subs, [])
    else
      var rest := Scan(outs[1..], subs[1..], now);
      ([After(subs[0], outs[0], now)] + rest.0, (if outs[0].Checked? then outs[0].sends else []) + rest.1)
  }

  /** No subscription before the `i`-th ended the scan. */
  predicate NoStopBefore(outs: seq<Outcome>, i: nat)
    requires i <= |outs|
  {
    forall j :: 0 <= j < i ==> !outs[j].StopScan?
  }

  /**
   * The scan changes no subscription but its `last_checked_at`, which becomes `now` for a
   * checked one the scan reaches and stays for any other. A check whose video lookup
   * failed or found nothing still counts as checked.
   */
  lemma {:induction false} ScanOnlyStamps(outs: seq<Outcome>, subs: seq<SubRow>, now: int)
    requires |outs| == |subs|
    ensures forall i :: 0 <= i < |subs| ==>
              Scan(outs, subs, now).0[i] == subs[i]
              || (Scan(outs, subs, now).0[i] == subs[i].(lastCheckedAt := now) && outs[i].Checked?)
    ensures forall i :: 0 <= i < |subs| && outs[i].Checked? && NoStopBefore(outs, i) ==>
              Scan(outs, subs, now).0[i] == subs[i].(lastCheckedAt := now)
    ensures forall i :: 0 <= i < |subs| && !outs[i].Checked? ==> Scan(outs, subs, now).0[i] == subs[i]
    decreases |subs|
  {
    if subs != [] && !outs[0].StopScan? {
      ScanOnlyStamps(outs[1..], subs[1..], now);
      var r := Scan(outs, subs, now);
      forall i | 0 < i < |subs|
        ensures r.0[i] == subs[i] || (r.0[i] == subs[i].(lastCheckedAt := now) && outs[i].Checked?)
        ensures outs[i].Checked? && NoStopBefore(outs, i) ==> r.0[i] == subs[i].(lastCheckedAt := now)
        ensures !outs[i].Checked? ==> r.0[i] == subs[i]
      {
        assert r.0[i] == Scan(outs[1..], subs[1..], now).0[i - 1];
        assert subs[1..][i - 1] == subs[i] && outs[1..][i - 1] == outs[i];
        if NoStopBefore(outs, i) {
          assert NoStopBefore(outs[1..], i - 1) by {
            forall j | 0 <= j < i - 1 ensures !outs[1..][j].StopScan? {
              assert outs[1..][j] == outs[j + 1];
            }
          }
        }
      }
    } else if subs != [] {
      forall i | 0 < i < |subs| && outs[i].Checked?
        ensures !NoStopBefore(outs, i)
      {
        assert outs[0].StopScan?;
      }
    }
  }

  /** A video lookup that fails or finds no videos sends nothing, yet still stamps the subscription. */
  lemma StampsWithoutVideos(sub: SubRow, botChannel: Option<ChannelId>, services: Services, now: int)
    requires botChannel.Some? && services.channelResolves(botChannel.value)
    requires services.playlist(sub.uploadPlaylist).Items?
    requires Collected(services.playlist(sub.uploadPlaylist).items, sub.lastCheckedAt).Some?
    requires !services.videosFor(Collected(services.playlist(sub.uploadPlaylist).items, sub.lastCheckedAt).value).Videos?
    ensures Step(sub, botChannel, services) == Checked([])
    ensures After(sub, Step(sub, botChannel, services), now) == sub.(lastCheckedAt := now)
  {
  }

  /**
   * A playlist without "items" ends the whole scan: the subscriptions from there on keep
   * their rows and get no messages.
   */
  lemma {:induction false} ScanStopsAtNoItems(outs: seq<Outcome>, subs: seq<SubRow>, k: nat, now: int)
    requires |outs| == |subs| && k < |subs| && outs[k].StopScan?
    ensures Scan(outs, subs, now).0[k..] == subs[k..]
    ensures Scan(outs, subs, now).1 == Scan(outs[..k], subs[..k], now).1
    decreases k
  {
    if k > 0 && !outs[0].StopScan? {
      ScanStopsAtNoItems(outs[1..], subs[1..], k - 1, now);
      assert subs[1..][k - 1..] == subs[k..];
      assert outs[..k][1..] == outs[1..][..k - 1] && subs[..k][1..] == subs[1..][..k - 1];
    } else if k > 0 {
      assert outs[..k][0].StopScan?;
    }
  }

  /** The body of the loop for one subscription. */
  method CheckOne(guilds: seq<GuildRow>, sub: SubRow, services: Services) returns (o: Outcome)
    ensures o == Step(sub, BotChannelOf(guilds, sub), services)
  {
    var botChannel := BotChannelOf(guilds, sub);
    if botChannel.None? || !services.channelResolves(botChannel.value) {
      return Skipped;
    }
    var response := services.playlist(sub.uploadPlaylist);
    if response.PlaylistFailed? {
      return Skipped;
    }
    if response.NoItems? {
      return StopScan;
    }
    var ids := CollectVideoIds(response.items, sub.lastCheckedAt);
    if ids.None? {
      return Skipped;
    }
    var videos := services.videosFor(ids.value);
    if !videos.Videos? {
      return Checked([]);
    }
    var texts := Announce(sub.announcementTarget, videos.videos);
    o := Checked(SendsTo(botChannel.value, texts));
  }

  /** The loop over the subscriptions (lines 62-156), with its `break`. */
  method ScanSubscriptions(guilds: seq<GuildRow>, rows: seq<SubRow>, services: Services)
    returns (newRows: seq<SubRow>, sends: seq<Send>)
    ensures (newRows, sends) == Scan(Outcomes(guilds, rows, services), rows, services.now)
  {
    ghost var outs := Outcomes(guilds, rows, services);
    sends := [];
    var done: seq<SubRow> := [];
    var i := 0;
    assert rows[0..] == rows && outs[0..] == outs;
    assert Scan(outs, rows, services.now).0 == [] + Scan(outs, rows, services.now).0;
    assert Scan(outs, rows, services.now).1 == [] + Scan(outs, rows, services.now).1;
    while i < |rows|
      invariant 0 <= i <= |rows| && |done| == i
      invariant Scan(outs, rows, services.now)
                  == (done + Scan(outs[i..], rows[i..], services.now).0, sends + Scan(outs[i..], rows[i..], services.now).1)
    {
      var sub := rows[i];
      var o := CheckOne(guilds, sub, services);
      assert o == outs[i];
      if o.StopScan? {
        assert outs[i..][0] == o;
        assert sends + [] == sends;
        break;
      }
      var mine := if o.Checked? then o.sends else [];
      ScanAdvance(outs, rows, i, done, sends, services.now);
      done := done + [After(sub, o, services.now)];
      sends := sends + mine;
      i := i + 1;
    }
    if i == |rows| {
      assert rows[i..] == [];
      assert done + [] == done && sends + [] == sends;
      newRows := done;
    } else {
      newRows := done + rows[i..];
    }
  }

  /** The loop invariant of `ScanSubscriptions` carried past one subscription. */
  lemma ScanAdvance(outs: seq<Outcome>, rows: seq<SubRow>, i: nat, done: seq<SubRow>, sends: seq<Send>, now: int)
    requires |outs| == |rows| && i < |rows| && !outs[i].StopScan?
    requires Scan(outs, rows, now) == (done + Scan(outs[i..], rows[i..], now).0, sends + Scan(outs[i..], rows[i..], now).1)
    ensures Scan(outs, rows, now)
              == ((done + [After(rows[i], outs[i], now)]) + Scan(outs[i + 1..], rows[i + 1..], now).0,
                  (sends + (if outs[i].Checked? then outs[i].sends else [])) + Scan(outs[i + 1..], rows[i + 1..], now).1)
  {
    assert rows[i..][0] == rows[i] && rows[i..][1..] == rows[i + 1..];
    assert outs[i..][0] == outs[i] && outs[i..][1..] == outs[i + 1..];
    var rest := Scan(outs[i + 1..], rows[i + 1..], now);
    var mine := if outs[i].Checked? then outs[i].sends else [];
    assert Scan(outs[i..], rows[i..], now) == ([After(rows[i], outs[i], now)] + rest.0, mine + rest.1);
    assert done + ([After(rows[i], outs[i], now)] + rest.0) == (done + [After(rows[i], outs[i], now)]) + rest.0;
    assert sends + (mine + rest.1) == (sends + mine) + rest.1;
  }

  /** The scan keeps every subscription's guild and YouTube channel id. */
  lemma ScanKeepsValid(outs: seq<Outcome>, guilds: seq<GuildRow>, subs: seq<SubRow>, now: int)
    requires |outs| == |subs|
    requires forall i :: 0 <= i < |subs| ==> subs[i].guildRow < |guilds|
    requires forall i, j :: 0 <= i < j < |subs| ==> subs[i].youtubeChannelId != subs[j].youtubeChannelId
    ensures var rows := Scan(outs, subs, now).0;
            && (forall i :: 0 <= i < |rows| ==> rows[i].guildRow < |guilds|)
            && (forall i, j :: 0 <= i < j < |rows| ==> rows[i].youtubeChannelId != rows[j].youtubeChannelId)
  {
    ScanOnlyStamps(outs, subs, now);
    var rows := Scan(outs, subs, now).0;
    assert forall i :: 0 <= i < |rows| ==>
      rows[i].guildRow == subs[i].guildRow && rows[i].youtubeChannelId == subs[i].youtubeChannelId;
  }

  // ---------------------------------------------------------------------------
  // The cog

  class SubscriptionCog {
    /** The `guild` table; a row's index is its primary key. */
    var guilds: seq<GuildRow>
    /** The `subscription` table. */
    var subs: seq<SubRow>

    /** Every subscription has its guild, guild ids and YouTube channel ids are unique. */
    ghost predicate Valid()
      reads this
    {
      && (forall i :: 0 <= i < |subs| ==> subs[i].guildRow < |guilds|)
      && (forall i, j :: 0 <= i < j < |subs| ==> subs[i].youtubeChannelId != subs[j].youtubeChannelId)
      && (forall a, b :: 0 <= a < b < |guilds| ==> guilds[a].guildId != guilds[b].guildId)
    }

    constructor (guilds0: seq<GuildRow>)
      requires forall a, b :: 0 <= a < b < |guilds0| ==> guilds0[a].guildId != guilds0[b].guildId
      ensures Valid() && guilds == guilds0 && subs == []
    {
      guilds := guilds0;
      subs := [];
    }

    /**
     * `check_subscription`, one run: nothing without an API key; otherwise the scan over
     * all subscriptions in table order.
     */
    method CheckSubscription(apiKeySet: bool, services: Services) returns (sends: seq<Send>)
      requires Valid()
      modifies this
      ensures Valid() && guilds == old(guilds)
      ensures !apiKeySet ==> subs == old(subs) && sends == []
      ensures apiKeySet ==> (subs, sends) == Scan(Outcomes(guilds, old(subs), services), old(subs), services.now)
    {
      sends := [];
      if !apiKeySet {
        return;
      }
      var rows := subs;
      var newRows;
      newRows, sends := ScanSubscriptions(guilds, rows, services);
      subs := newRows;
      ScanKeepsValid(Outcomes(guilds, rows, services), guilds, rows, services.now);
    }

    /**
     * `subscribe`: a role id that is not an integer is refused at once; a guild without a
     * bot channel is refused after the deferral; a subscribed channel is unsubscribed;
     * otherwise the channel is looked up and, when it has the needed details, subscribed.
     */
    method Subscribe(guildId: int, channelId: string, targetRoleId: Option<string>,
                     lookup: ChannelResponse, now: int)
      returns (replies: seq<Reply>)
      requires Valid()
      modifies this
      ensures Valid() && guilds == old(guilds)
      ensures targetRoleId.Some? && targetRoleId.value != [] && PyText.ParseInt(targetRoleId.value).None? ==>
                subs == old(subs) && replies == [Respond("Invalid role id.")]
      ensures !(targetRoleId.Some? && targetRoleId.value != [] && PyText.ParseInt(targetRoleId.value).None?) ==>
                |replies| >= 2 && replies[0] == Defer
      ensures !(targetRoleId.Some? && targetRoleId.value != [] && PyText.ParseInt(targetRoleId.value).None?) ==>
                match GuildKey(old(guilds), guildId)
                case None => subs == old(subs) && replies == [Defer, Raise]
                case Some(key) =>
                  if !HasBotChannel(old(guilds)[key]) then
                    subs == old(subs) && replies == [Defer, Followup("Bot channel not set. Use `/set_bot_channel`.")]
                  else if exists i :: 0 <= i < |old(subs)| && old(subs)[i].guildRow == key && old(subs)[i].youtubeChannelId == channelId then
                    && subs == Unsubscribed(old(subs), channelId)
                    && exists i :: 0 <= i < |old(subs)| && old(subs)[i].guildRow == key && old(subs)[i].youtubeChannelId == channelId
                                   && replies == [Defer, Followup(UnsubscribedMsg(old(subs)[i].youtubeChannelName))]
                  else
                    && subs == Subscribed(old(subs), key, channelId, targetRoleId, lookup, now)
                    && replies == [Defer, SubscribeReply(old(subs), channelId, lookup)]
    {
      if targetRoleId.Some? && targetRoleId.value != [] && PyText.ParseInt(targetRoleId.value).None? {
        return [Respond("Invalid role id.")];
      }
      replies := [Defer];
      var key := GuildKey(guilds, guildId);
      if key.None? {
        return replies + [Raise];
      }
      if !HasBotChannel(guilds[key.value]) {
        return replies + [Followup("Bot channel not set. Use `/set_bot_channel`.")];
      }
      var existing := FindSubscription(key.value, channelId);
      if existing.Some? {
        var name := subs[existing.value].youtubeChannelName;
        Unsubscribe(channelId);
        return replies + [Followup(UnsubscribedMsg(name))];
      }
      var reply := AddSubscription(key.value, channelId, targetRoleId, lookup, now);
      replies := replies + [reply];
    }

    /** The guild's subscription to `channelId`, the relation `subscribe` loads. */
    method FindSubscription(key: nat, channelId: string) returns (found: Option<nat>)
      ensures found.Some? ==> found.value < |subs| && subs[found.value].guildRow == key
                                && subs[found.value].youtubeChannelId == channelId
      ensures found.None? <==> !exists i :: 0 <= i < |subs| && subs[i].guildRow == key && subs[i].youtubeChannelId == channelId
    {
      for i := 0 to |subs|
        invariant forall j :: 0 <= j < i ==> !(subs[j].guildRow == key && subs[j].youtubeChannelId == channelId)
      {
        if subs[i].guildRow == key && subs[i].youtubeChannelId == channelId {
          return Some(i);
        }
      }
      return None;
    }

    /** `DELETE FROM subscription WHERE youtube_channel_id = ?`. */
    method Unsubscribe(channelId: string)
      requires Valid()
      modifies this
      ensures Valid() && guilds == old(guilds)
      ensures subs == Unsubscribed(old(subs), channelId)
    {
      UnsubscribedKeepsValid(guilds, subs, channelId);
      subs := Unsubscribed(subs, channelId);
    }

    /** The channel lookup and the insert (lines 221-256). */
    method AddSubscription(key: nat, channelId: string, targetRoleId: Option<string>, lookup: ChannelResponse, now: int)
      returns (reply: Reply)
      requires Valid() && key < |guilds|
      modifies this
      ensures Valid() && guilds == old(guilds)
      ensures subs == Subscribed(old(subs), key, channelId, targetRoleId, lookup, now)
      ensures reply == SubscribeReply(old(subs), channelId, lookup)
    {
      if lookup.ChannelFailed? || (lookup.ChannelItems? && lookup.items == []) {
        return Raise;
      }
      if lookup.NoChannelItems? {
        return Followup(InvalidChannelMsg);
      }
      var item := lookup.items[0];
      if item.uploads.None? || item.title.None? {
        return Followup(MissingInfoMsg);
      }
      if exists i :: 0 <= i < |subs| && subs[i].youtubeChannelId == channelId {
        return Raise;
      }
      subs := subs + [SubRow(key, item.title.value, channelId, item.uploads.value, targetRoleId, now)];
      reply := Followup(SubscribedMsg(item.title.value));
    }
  }

  /** The key of the guild row with this guild id (`scalar_one` raises without one). */
  function GuildKey(guilds: seq<GuildRow>, guildId: int): (key: Option<nat>)
    ensures key.Some? ==> key.value < |guilds| && guilds[key.value].guildId == guildId
    ensures key.None? ==> forall k :: 0 <= k < |guilds| ==> guilds[k].guildId != guildId
  {
    if guilds == [] then None
    else if guilds[|guilds| - 1].guildId == guildId then Some(|guilds| - 1)
    else GuildKey(guilds[..|guilds| - 1], guildId)
  }

  /** `if not guild.bot_channel`: an unset channel, and also the id 0, count as missing. */
  predicate HasBotChannel(g: GuildRow) {
    g.botChannel.Some? && g.botChannel.value != 0
  }

  /** The table without the subscriptions to `channelId`. */
  function Unsubscribed(subs: seq<SubRow>, channelId: string): (rest: seq<SubRow>)
    ensures forall s :: s in rest <==> s in subs && s.youtubeChannelId != channelId
  {
    if subs == [] then []
    else (if subs[0].youtubeChannelId != channelId then [subs[0]] else []) + Unsubscribed(subs[1..], channelId)
  }

  /** A YouTube channel is subscribed by some guild. */
  predicate Taken(subs: seq<SubRow>, channelId: string) {
    exists i :: 0 <= i < |subs| && subs[i].youtubeChannelId == channelId
  }

  /**
   * The table after the channel lookup: one new row with the channel's title and uploads
   * playlist, unless the lookup fails or the channel id is already taken (the unique
   * constraint makes the commit raise).
   */
  function Subscribed(subs: seq<SubRow>, key: nat, channelId: string, target: Option<string>,
                      lookup: ChannelResponse, now: int): seq<SubRow> {
    if lookup.ChannelItems? && lookup.items != [] && lookup.items[0].uploads.Some?
       && lookup.items[0].title.Some? && !Taken(subs, channelId)
    then subs + [SubRow(key, lookup.items[0].title.value, channelId, lookup.items[0].uploads.value, target, now)]
    else subs
  }

  const InvalidChannelMsg := "Invalid YouTube channel ID"
  const MissingInfoMsg := "Failed: Cannot find enough information" + " for this Youtube channel."

  /** The reply to an unsubscription; the closing backtick is missing, as in the source. */
  function UnsubscribedMsg(name: string): string {
    "Unsubscribed from `" + name + "."
  }

  function SubscribedMsg(title: string): string {
    "Successfully subscribed to `" + title + "`."
  }

  /** The follow-up of the lookup branch. */
  function SubscribeReply(subs: seq<SubRow>, channelId: string, lookup: ChannelResponse): Reply {
    if lookup.ChannelFailed? || (lookup.ChannelItems? && lookup.items == []) then Raise
    else if lookup.NoChannelItems? then Followup(InvalidChannelMsg)
    else if lookup.items[0].uploads.None? || lookup.items[0].title.None? then
      Followup(MissingInfoMsg)
    else if Taken(subs, channelId) then Raise
    else Followup(SubscribedMsg(lookup.items[0].title.value))
  }

  /** Unsubscribing keeps the order of the other rows and leaves none for the channel. */
  lemma {:induction false} UnsubscribedKeepsValid(guilds: seq<GuildRow>, subs: seq<SubRow>, channelId: string)
    requires forall i :: 0 <= i < |subs| ==> subs[i].guildRow < |guilds|
    requires forall i, j :: 0 <= i < j < |subs| ==> subs[i].youtubeChannelId != subs[j].youtubeChannelId
    ensures var rest := Unsubscribed(subs, channelId);
            && (forall i :: 0 <= i < |rest| ==> rest[i].guildRow < |guilds|)
            && (forall i, j :: 0 <= i < j < |rest| ==> rest[i].youtubeChannelId != rest[j].youtubeChannelId)
            && !Taken(rest, channelId)
    decreases |subs|
  {
    var rest := Unsubscribed(subs, channelId);
    if subs != [] {
      UnsubscribedKeepsValid(guilds, subs[1..], channelId);
      var tail := Unsubscribed(subs[1..], channelId);
      assert forall i :: 0 <= i < |tail| ==> tail[i] in subs[1..];
      if subs[0].youtubeChannelId != channelId {
        assert rest == [subs[0]] + tail;
        forall i, j | 0 <= i < j < |rest|
          ensures rest[i].youtubeChannelId != rest[j].youtubeChannelId
        {
          if i == 0 {
            assert rest[j] == tail[j - 1];
            assert tail[j - 1] in subs[1..];
          }
        }
      }
      assert forall i :: 0 <= i < |rest| ==> rest[i] in subs;
    }
  }

  /** Subscribing and then subscribing again to the same channel restores the table. */
  lemma ToggleRestores(subs: seq<SubRow>, key: nat, channelId: string, target: Option<string>, lookup: ChannelResponse, now: int)
    requires !Taken(subs, channelId)
    ensures Unsubscribed(Subscribed(subs, key, channelId, target, lookup, now), channelId) == subs
  {
    UnsubscribedOfUntaken(subs, channelId);
    var after := Subscribed(subs, key, channelId, target, lookup, now);
    if after != subs {
      UnsubscribedAppend(subs, after[|after| - 1], channelId);
    }
  }

  lemma {:induction false} UnsubscribedOfUntaken(subs: seq<SubRow>, channelId: string)
    requires !Taken(subs, channelId)
    ensures Unsubscribed(subs, channelId) == subs
    decreases |subs|
  {
    if subs != [] {
      var tail := subs[1..];
      assert !Taken(tail, channelId) by {
        forall i | 0 <= i < |tail|
          ensures tail[i].youtubeChannelId != channelId
        {
          assert tail[i] == subs[i + 1];
        }
      }
      UnsubscribedOfUntaken(tail, channelId);
      assert subs[0].youtubeChannelId != channelId;
      assert subs == [subs[0]] + tail;
    }
  }

  lemma {:induction false} UnsubscribedAppend(subs: seq<SubRow>, row: SubRow, channelId: string)
    requires row.youtubeChannelId == channelId
    ensures Unsubscribed(subs + [row], channelId) == Unsubscribed(subs, channelId)
    decreases |subs|
  {
    if subs == [] {
      assert Unsubscribed([row], channelId) == [] + Unsubscribed([], channelId);
    } else {
      UnsubscribedAppend(subs[1..], row, channelId);
      assert (subs + [row])[1..] == subs[1..] + [row];
    }
  }
}

/**
 * The Steam giveaway finder (src/cogs/steam.py): every twelve hours the giveaways of a
 * deals feed are recorded, and each guild with a bot channel is sent the new ones whose
 * site is not on that guild's keyword blacklist; the `blacklist` command edits and lists
 * the keywords.
 *
 * The database is modelled by the two tables the cog touches, as fields of the cog: the
 * keyword blacklist and the giveaway history. The feed, the joined and time-filtered
 * query of new giveaways, and whether the database rejects an insert are parameters.
 */
module Steam {
  import opened Wrappers
  import PyText

  type GuildId = int
  type ChannelId = int

  /** A row of the SteamBlacklist table. */
  datatype BlacklistRow = BlacklistRow(rowid: nat, keyword: string, guildId: GuildId)

  /** An entry of the deals feed; `publishTime` is already formatted. */
  datatype FeedEntry = FeedEntry(title: string, summary: string, link: string, publishTime: string)

  /** A row of the SteamGiveawayHistory table. */
  datatype GiveawayRecord = GiveawayRecord(title: string, link: string, publishTime: string, expiryDate: Option<string>)

  /** A row of the new-giveaways query, with the site's domain cut out of the link. */
  datatype GiveawayRow = GiveawayRow(title: string, link: string, publishTime: string, expiryDate: Option<string>, domain: string)

  /** The guild behind a command. */
  datatype GuildRef = GuildRef(id: GuildId, name: string)

  /** What `getNewGiveaway` reads for one guild: its bot channel row and the new giveaways. */
  datatype GuildScan = GuildScan(guildId: GuildId, botChannel: Option<Option<ChannelId>>, results: seq<GiveawayRow>)

  /** The embed posted for one giveaway. */
  datatype GiveawayEmbed = GiveawayEmbed(title: string, url: string, publishDate: string, expiryDate: Option<string>)

  /** What the `blacklist` command sends, in order. */
  datatype Reply =
    | Defer                    // ia.response.defer
    | Followup(text: string)   // ia.followup.send

  /** What the periodic task does for each guild, in order. */
  datatype TaskEffect =
    | MissingBotChannel(guildId: GuildId)   // the warning for a guild without a bot channel
    | PostGiveaway(guildId: GuildId, channel: ChannelId, embed: GiveawayEmbed)

  // ---------------------------------------------------------------------------
  // The feed: which entries are giveaways, and their expiry dates

  /** An entry is recorded iff its title says "giveaway" and its summary not "expired". */
  predicate IsOpenGiveaway(e: FeedEntry) {
    PyText.Contains(e.title, "giveaway") && !PyText.Contains(e.summary, "expired")
  }

  /** The test is case-sensitive: "[Giveaway]" is not a giveaway, and an "expired" summary is skipped. */
  lemma OpenGiveawayExamples()
    ensures IsOpenGiveaway(FeedEntry("[giveaway] X", "Expires on 2024-01-31.", "", ""))
    ensures !IsOpenGiveaway(FeedEntry("[Giveaway] X", "Expires on 2024-01-31.", "", ""))
    ensures !IsOpenGiveaway(FeedEntry("[giveaway] X", "expired", "", ""))
  {
    var open := "[giveaway] X";
    assert PyText.OccursAt(open, "giveaway", 1) by { assert open[1..9] == "giveaway"; }
    var capital := "[Giveaway] X";
    forall i | 0 <= i <= |capital| - |"giveaway"|
      ensures !PyText.OccursAt(capital, "giveaway", i)
    {
      assert capital[i] != 'g';
      assert capital[i..i + 8][0] == capital[i];
    }
    forall i | 0 <= i <= |ExpiryExample| - |"expired"|
      ensures !PyText.OccursAt(ExpiryExample, "expired", i)
    {
      assert ExpiryExample[i..i + 7][0] == ExpiryExample[i];
      assert ExpiryExample[i..i + 7][6] == ExpiryExample[i + 6];
    }
    assert PyText.OccursAt("expired", "expired", 0);
  }

  predicate IsDigitsAt(s: string, i: nat, n: nat) {
    i + n <= |s| && forall k :: i <= k < i + n ==> PyText.IsDigit(s[k])
  }

  /** `\d{4}-\d{2}-\d{2}` at index `i`: the ten characters of the date. */
  function DateAt(s: string, i: nat): (d: Option<string>)
    ensures d.Some? ==> |d.value| == 10 && i + 10 <= |s| && d.value == s[i..i + 10]
  {
    if IsDigitsAt(s, i, 4) && i + 10 <= |s| && s[i + 4] == '-' && IsDigitsAt(s, i + 5, 2)
       && s[i + 7] == '-' && IsDigitsAt(s, i + 8, 2)
    then Some(s[i..i + 10])
    else None
  }

  /**
   * `[eE]xpires? on (\d{4}-\d{2}-\d{2})` matched at index `i`: group 1, or None. After
   * "xpire" an 's' must belong to "expires", since the pattern without it needs a space.
   */
  function ExpiryAt(s: string, i: nat): (d: Option<string>)
    ensures d.Some? ==> |d.value| == 10
    ensures ExpiresOnAt(s, i, i + 10) && DateAt(s, i + 10).Some? ==> d == DateAt(s, i + 10)
    ensures ExpiresOnAt(s, i, i + 11) && DateAt(s, i + 11).Some? ==> d == DateAt(s, i + 11)
    ensures d.Some? ==> || (ExpiresOnAt(s, i, i + 10) && d == DateAt(s, i + 10))
                        || (ExpiresOnAt(s, i, i + 11) && d == DateAt(s, i + 11))
  {
    if i + 6 <= |s| && (s[i] == 'e' || s[i] == 'E') && s[i + 1..i + 6] == "xpire" then
      var k := if i + 6 < |s| && s[i + 6] == 's' then i + 7 else i + 6;
      if k + 4 <= |s| && s[k..k + 4] == " on " then DateAt(s, k + 4) else None
    else None
  }

  /** The text from `i` up to `k` is `[eE]xpires? on `. */
  predicate ExpiresOnAt(s: string, i: nat, k: nat) {
    && i + 6 <= k <= |s| && (s[i] == 'e' || s[i] == 'E') && s[i + 1..i + 6] == "xpire"
    && (s[i + 6..k] == " on " || s[i + 6..k] == "s on ")
  }

  /**
   * `re.search` of the expiry pattern from index `from`: the date of the leftmost match,
   * or None when the pattern matches nowhere.
   */
  function SearchExpiry(s: string, from: nat): Option<string> {
    PyText.Leftmost((i: nat) => ExpiryAt(s, i), from, |s|)
  }

  /** The search finds the leftmost match, and finds none only where the pattern matches nowhere. */
  lemma SearchExpiryIsLeftmost(s: string, from: nat)
    ensures var d := SearchExpiry(s, from);
            && (d.None? <==> forall i :: from <= i <= |s| ==> ExpiryAt(s, i).None?)
            && (d.Some? ==> exists i :: from <= i <= |s| && ExpiryAt(s, i) == d
                                      && forall j :: from <= j < i ==> ExpiryAt(s, j).None?)
  {
    var matchAt := (i: nat) => ExpiryAt(s, i);
    assert forall i: nat :: matchAt(i) == ExpiryAt(s, i);
    assert SearchExpiry(s, from) == PyText.Leftmost(matchAt, from, |s|);
  }

  /** The record an entry becomes, with its expiry date from the summary. */
  function RecordOf(e: FeedEntry): GiveawayRecord {
    GiveawayRecord(e.title, e.link, e.publishTime, SearchExpiry(e.summary, 0))
  }

  const ExpiryExample := "Expires on 2024-01-31."

  lemma DateOfExample()
    ensures DateAt(ExpiryExample, 11) == Some("2024-01-31")
  {
    var s := ExpiryExample;
    assert IsDigitsAt(s, 11, 4) && IsDigitsAt(s, 16, 2) && IsDigitsAt(s, 19, 2);
    assert s[11 + 4] == '-' && s[11 + 7] == '-';
    assert s[11..21] == "2024-01-31";
  }

  lemma ExpiryAtOfExample()
    ensures ExpiryAt(ExpiryExample, 0) == Some("2024-01-31")
  {
    var s := ExpiryExample;
    assert s[1..6] == "xpire" && s[6] == 's' && s[7..11] == " on ";
    DateOfExample();
  }

  /** A summary starting "Expires on 2024-01-31" gives that date. */
  lemma ExpiryOfExample()
    ensures SearchExpiry(ExpiryExample, 0) == Some("2024-01-31")
  {
    ExpiryAtOfExample();
    var matchAt := (i: nat) => ExpiryAt(ExpiryExample, i);
    assert matchAt(0) == ExpiryAt(ExpiryExample, 0);
    assert PyText.Leftmost(matchAt, 0, |ExpiryExample|) == matchAt(0);
  }

  /** Entry `e` is an open giveaway the database accepted, and `r` is its record. */
  predicate RecordedAs(e: FeedEntry, insertFails: FeedEntry -> bool, r: GiveawayRecord) {
    IsOpenGiveaway(e) && !insertFails(e) && RecordOf(e) == r
  }

  /** The record one entry adds: none unless it is an open giveaway the database accepts. */
  function Recorded(e: FeedEntry, insertFails: FeedEntry -> bool): (rs: seq<GiveawayRecord>)
    ensures forall r :: r in rs <==> RecordedAs(e, insertFails, r)
  {
    if IsOpenGiveaway(e) && !insertFails(e) then [RecordOf(e)] else []
  }

  /** The records one feed scan adds: each open giveaway whose insert the database accepts. */
  function NewRecords(entries: seq<FeedEntry>, insertFails: FeedEntry -> bool): seq<GiveawayRecord> {
    if entries == [] then []
    else NewRecords(entries[..|entries| - 1], insertFails) + Recorded(entries[|entries| - 1], insertFails)
  }

  /**
   * A record is added iff it comes from an open giveaway the database accepted; a
   * rejected insert does not stop the scan.
   */
  lemma {:induction false} NewRecordsMembers(entries: seq<FeedEntry>, insertFails: FeedEntry -> bool, r: GiveawayRecord)
    ensures r in NewRecords(entries, insertFails) <==> exists e :: e in entries && RecordedAs(e, insertFails, r)
    decreases |entries|
  {
    if entries != [] {
      var init, last := entries[..|entries| - 1], entries[|entries| - 1];
      NewRecordsMembers(init, insertFails, r);
      assert entries == init + [last];
      if RecordedAs(last, insertFails, r) {
        assert last in entries;
      }
    }
  }

  // ---------------------------------------------------------------------------
  // The blacklist filter

  /** No blacklist keyword occurs in the giveaway's domain. */
  predicate Keep(r: GiveawayRow, keywords: seq<string>) {
    forall k :: k in keywords ==> !PyText.Contains(r.domain, k)
  }

  /** The giveaways that pass the blacklist, in their original order. */
  function Filtered(results: seq<GiveawayRow>, keywords: seq<string>): (kept: seq<GiveawayRow>)
    ensures |kept| <= |results|
  {
    if results == [] then []
    else
      var last := results[|results| - 1];
      Filtered(results[..|results| - 1], keywords) + (if Keep(last, keywords) then [last] else [])
  }

  /** Exactly the giveaways free of every keyword pass. */
  lemma {:induction false} FilteredMembers(results: seq<GiveawayRow>, keywords: seq<string>, r: GiveawayRow)
    ensures r in Filtered(results, keywords) <==> r in results && Keep(r, keywords)
    decreases |results|
  {
    if results != [] {
      var init := results[..|results| - 1];
      FilteredMembers(init, keywords, r);
      assert results == init + [results[|results| - 1]];
    }
  }

  /** The filter keeps the order: filtering a concatenation concatenates the filtered parts. */
  lemma {:induction false} FilteredAppend(a: seq<GiveawayRow>, b: seq<GiveawayRow>, keywords: seq<string>)
    ensures Filtered(a + b, keywords) == Filtered(a, keywords) + Filtered(b, keywords)
    decreases |b|
  {
    if b == [] {
      assert a + b == a;
    } else {
      var init := b[..|b| - 1];
      FilteredAppend(a, init, keywords);
      assert (a + b)[..|a + b| - 1] == a + init;
    }
  }

  /** Without keywords every giveaway passes. */
  lemma {:induction false} FilteredWithoutKeywords(results: seq<GiveawayRow>)
    ensures Filtered(results, []) == results
    decreases |results|
  {
    if results != [] {
      FilteredWithoutKeywords(results[..|results| - 1]);
    }
  }

  /**
   * The filter loop of `getNewGiveaway` (lines 150-161): an `inBlacklist` flag per
   * giveaway, set by the first keyword found in its domain, which ends the inner loop.
   */
  method FilterBlacklisted(results: seq<GiveawayRow>, keywords: seq<string>) returns (kept: seq<GiveawayRow>)
    ensures kept == Filtered(results, keywords)
  {
    kept := [];
    for i := 0 to |results|
      invariant kept == Filtered(results[..i], keywords)
    {
      var inBlacklist := false;
      var j := 0;
      while j < |keywords|
        invariant 0 <= j <= |keywords|
        invariant !inBlacklist ==> forall m :: 0 <= m < j ==> !PyText.Contains(results[i].domain, keywords[m])
        invariant inBlacklist ==> !Keep(results[i], keywords)
      {
        if PyText.Contains(results[i].domain, keywords[j]) {
          inBlacklist := true;
          break;
        }
        j := j + 1;
      }
      assert !inBlacklist ==> Keep(results[i], keywords) by {
        if !inBlacklist {
          forall k | k in keywords
            ensures !PyText.Contains(results[i].domain, k)
          {
            var m :| 0 <= m < |keywords| && keywords[m] == k;
          }
        }
      }
      assert results[..i + 1][..i] == results[..i];
      if !inBlacklist {
        kept := kept + [results[i]];
      }
    }
    assert results[..|results|] == results;
  }

  // ---------------------------------------------------------------------------
  // The blacklist table

  /** The keywords of one guild, in table order. */
  function GuildKeywords(table: seq<BlacklistRow>, g: GuildId): (ks: seq<string>)
    ensures forall k :: k in ks <==> exists r :: r in table && r.guildId == g && r.keyword == k
  {
    if table == [] then []
    else
      GuildKeywords(table[..|table| - 1], g)
      + (var r := table[|table| - 1]; if r.guildId == g then [r.keyword] else [])
  }

  /** The rows of one guild, in table order. */
  function GuildRows(table: seq<BlacklistRow>, g: GuildId): (rows: seq<BlacklistRow>)
    ensures forall r :: r in rows <==> r in table && r.guildId == g
  {
    if table == [] then []
    else
      GuildRows(table[..|table| - 1], g)
      + (var r := table[|table| - 1]; if r.guildId == g then [r] else [])
  }

  /** `DELETE FROM SteamBlacklist WHERE Keyword = ?`, AS WRITTEN: in every guild. */
  function RemoveKeyword(table: seq<BlacklistRow>, keyword: string): (rest: seq<BlacklistRow>)
    ensures forall r :: r in rest <==> r in table && r.keyword != keyword
  {
    if table == [] then []
    else
      RemoveKeyword(table[..|table| - 1], keyword)
      + (var r := table[|table| - 1]; if r.keyword != keyword then [r] else [])
  }

  /** The deletion evidently intended: the keyword leaves the calling guild's blacklist only. */
  function RemoveGuildKeyword(table: seq<BlacklistRow>, keyword: string, g: GuildId): (rest: seq<BlacklistRow>)
    ensures forall r :: r in rest <==> r in table && !(r.guildId == g && r.keyword == keyword)
  {
    if table == [] then []
    else
      RemoveGuildKeyword(table[..|table| - 1], keyword, g)
      + (var r := table[|table| - 1]; if !(r.guildId == g && r.keyword == keyword) then [r] else [])
  }

  /** Only the calling guild's blacklist changes when it removes a keyword. */
  lemma {:induction false} RemoveGuildKeywordKeepsOtherGuilds(table: seq<BlacklistRow>, keyword: string, g: GuildId, h: GuildId)
    requires h != g
    ensures GuildRows(RemoveGuildKeyword(table, keyword, g), h) == GuildRows(table, h)
    ensures keyword !in GuildKeywords(RemoveGuildKeyword(table, keyword, g), g)
    decreases |table|
  {
    if table != [] {
      var init := table[..|table| - 1];
      RemoveGuildKeywordKeepsOtherGuilds(init, keyword, g, h);
      var rest := RemoveGuildKeyword(table, keyword, g);
      var last := table[|table| - 1];
      if !(last.guildId == g && last.keyword == keyword) {
        assert rest[..|rest| - 1] == RemoveGuildKeyword(init, keyword, g);
      } else {
        assert rest == RemoveGuildKeyword(init, keyword, g);
      }
    }
  }

  /** As written, a keyword removed by one guild also vanishes from another guild's list. */
  lemma RemoveKeywordReachesOtherGuilds()
    ensures var table := [BlacklistRow(1, "epicgames", 1), BlacklistRow(2, "epicgames", 2)];
            && GuildKeywords(table, 2) == ["epicgames"]
            && GuildKeywords(RemoveKeyword(table, "epicgames"), 2) == []
            && GuildKeywords(RemoveGuildKeyword(table, "epicgames", 1), 2) == ["epicgames"]
  {
    var table := [BlacklistRow(1, "epicgames", 1), BlacklistRow(2, "epicgames", 2)];
    assert table[..1] == [BlacklistRow(1, "epicgames", 1)];
    assert RemoveKeyword(table, "epicgames") == [];
    assert RemoveGuildKeyword(table, "epicgames", 1) == [BlacklistRow(2, "epicgames", 2)];
    assert [BlacklistRow(2, "epicgames", 2)][..0] == [];
  }

  /** Some row of `table` has this keyword (`SELECT 1 ... WHERE Keyword = ?` over those rows). */
  predicate KeywordExists(table: seq<BlacklistRow>, keyword: string) {
    exists i :: 0 <= i < |table| && table[i].keyword == keyword
  }

  /** One line of the listing: `rowid:***keyword***`. */
  function ListingLine(r: BlacklistRow): string {
    PyText.NatToString(r.rowid) + ":***" + r.keyword + "***"
  }

  /** The listing lines, one per row, separated by line breaks. */
  function JoinLines(rows: seq<BlacklistRow>): string {
    if rows == [] then []
    else if |rows| == 1 then ListingLine(rows[0])
    else JoinLines(rows[..|rows| - 1]) + "\n" + ListingLine(rows[|rows| - 1])
  }

  const InsertFailedMsg := "Insert keyword failed:" + " Probably because this keyword already exists in the database."

  function AddedMsg(kw: string): string {
    "Keyword ***" + kw + "*** added to database."
  }

  /** The reply to a removal: whether the keyword was there to delete. */
  function RemoveReply(existed: bool, kw: string): string {
    if existed then "The keyword ***" + kw + "*** is deleted from database."
    else "Keyword ***" + kw + "*** not found."
  }

  function ListingHeader(guildName: string): string {
    "Keyword blacklist for ***" + guildName + "***:\n"
  }

  const EmptyListingMsg := "Empty. Maybe you should add something here?"

  /** The blacklist listing of a guild (lines 74-86): the header, then one line per row. */
  function ListingMsg(guildName: string, rows: seq<BlacklistRow>): (msg: string)
    ensures ListingHeader(guildName) <= msg
    ensures rows == [] ==> msg == ListingHeader(guildName) + EmptyListingMsg
  {
    ListingHeader(guildName) + (if rows == [] then EmptyListingMsg else JoinLines(rows))
  }

  /**
   * The listing loop of lines 78-86: each row's line is appended with a line break, and
   * the last line break is cut off again.
   */
  method Listing(guildName: string, rows: seq<BlacklistRow>) returns (msg: string)
    ensures msg == ListingMsg(guildName, rows)
  {
    msg := ListingHeader(guildName);
    if rows != [] {
      for i := 0 to |rows|
        invariant i == 0 ==> msg == ListingHeader(guildName)
        invariant i > 0 ==> msg == ListingHeader(guildName) + JoinLines(rows[..i]) + "\n"
      {
        assert rows[..i + 1][..i] == rows[..i];
        msg := msg + ListingLine(rows[i]) + "\n";
      }
      assert rows[..|rows|] == rows;
      msg := msg[..|msg| - 1];
    } else {
      msg := msg + EmptyListingMsg;
    }
  }

  /** Every row of the guild shows in its listing. */
  lemma ListingShowsEveryRow(guildName: string, rows: seq<BlacklistRow>, i: nat)
    requires i < |rows|
    ensures PyText.Contains(ListingMsg(guildName, rows), ListingLine(rows[i]))
  {
    var j := JoinLinesShowsEveryRow(rows, i);
    var h := ListingHeader(guildName);
    var msg := ListingMsg(guildName, rows);
    var line := ListingLine(rows[i]);
    assert msg[|h| + j..|h| + j + |line|] == JoinLines(rows)[j..j + |line|];
    assert PyText.OccursAt(msg, line, |h| + j);
  }

  /** The line of row `i` starts at index `j` of the joined lines. */
  lemma {:induction false} JoinLinesShowsEveryRow(rows: seq<BlacklistRow>, i: nat) returns (j: nat)
    requires i < |rows|
    ensures PyText.OccursAt(JoinLines(rows), ListingLine(rows[i]), j)
    decreases |rows|
  {
    var last := |rows| - 1;
    if |rows| == 1 {
      j := 0;
    } else {
      var init := rows[..last];
      var prefix := JoinLines(init) + "\n";
      assert JoinLines(rows) == prefix + ListingLine(rows[last]);
      if i == last {
        j := |prefix|;
      } else {
        assert rows[i] == init[i];
        j := JoinLinesShowsEveryRow(init, i);
        var line := ListingLine(rows[i]);
        assert JoinLines(rows)[j..j + |line|] == JoinLines(init)[j..j + |line|];
      }
    }
  }

  /** The embed made of one giveaway: its expiry date only when it has one. */
  function EmbedOf(r: GiveawayRow): (e: GiveawayEmbed)
    ensures e.title == r.title && e.url == r.link && e.publishDate == r.publishTime
    ensures e.expiryDate.Some? <==> r.expiryDate.Some? && r.expiryDate.value != []
    ensures e.expiryDate.Some? ==> e.expiryDate == r.expiryDate
  {
    GiveawayEmbed(r.title, r.link, r.publishTime,
                  if r.expiryDate.Some? && r.expiryDate.value != [] then r.expiryDate else None)
  }

  /** What `giveawayTask` does for one guild, given its blacklist. */
  function GuildEffects(scan: GuildScan, keywords: seq<string>, channelKnown: ChannelId -> bool): seq<TaskEffect> {
    if scan.botChannel.None? || scan.botChannel.value.None? then [MissingBotChannel(scan.guildId)]
    else
      var channel := scan.botChannel.value.value;
      if scan.results == [] || !channelKnown(channel) then []
      else Posts(scan.guildId, channel, Filtered(scan.results, keywords))
  }

  function Posts(g: GuildId, channel: ChannelId, rows: seq<GiveawayRow>): (ps: seq<TaskEffect>)
    ensures |ps| == |rows|
    ensures forall i :: 0 <= i < |rows| ==> ps[i] == PostGiveaway(g, channel, EmbedOf(rows[i]))
  {
    if rows == [] then [] else [PostGiveaway(g, channel, EmbedOf(rows[0]))] + Posts(g, channel, rows[1..])
  }

  /** Every giveaway a guild is sent passed that guild's blacklist. */
  lemma GuildEffectsRespectBlacklist(scan: GuildScan, keywords: seq<string>, channelKnown: ChannelId -> bool, e: TaskEffect)
    requires e in GuildEffects(scan, keywords, channelKnown) && e.PostGiveaway?
    ensures e.guildId == scan.guildId
    ensures exists r :: r in scan.results && Keep(r, keywords) && e.embed == EmbedOf(r)
  {
    var channel := scan.botChannel.value.value;
    var rows := Filtered(scan.results, keywords);
    var i :| 0 <= i < |rows| && GuildEffects(scan, keywords, channelKnown)[i] == e;
    FilteredMembers(scan.results, keywords, rows[i]);
  }

  // ---------------------------------------------------------------------------
  // The cog

  /**
   * The rowid SQLite gives a new row of a table without AUTOINCREMENT: one past the
   * largest rowid in the table, 1 in an empty table.
   */
  function NextRowid(table: seq<BlacklistRow>): (n: nat)
    ensures n >= 1 && forall i :: 0 <= i < |table| ==> table[i].rowid < n
    ensures table == [] ==> n == 1
    ensures table != [] ==> exists i :: 0 <= i < |table| && table[i].rowid + 1 == n
  {
    if table == [] then 1
    else
      var m := NextRowid(table[..|table| - 1]);
      var last := table[|table| - 1];
      if last.rowid + 1 > m then last.rowid + 1 else m
  }

  class SteamCog {
    var blacklist: seq<BlacklistRow>
    var history: seq<GiveawayRecord>

    constructor ()
      ensures blacklist == [] && history == []
    {
      blacklist := [];
      history := [];
    }

    /**
     * `blacklist`: defer the response; with a keyword (lower-cased), remove it from or add
     * it to the guild's blacklist; then list the guild's keywords. A failed insert reports
     * the failure and lists nothing. Removal is the guild-scoped one (RemoveGuildKeyword);
     * the table-wide deletion the source performs is RemoveKeyword.
     */
    method Blacklist(guild: GuildRef, target: Option<string>, isRemove: bool, insertFails: bool)
      returns (replies: seq<Reply>)
      modifies this
      ensures history == old(history)
      ensures target.None? || target.value == [] ==>
                blacklist == old(blacklist)
                && replies == [Defer, Followup(ListingMsg(guild.name, GuildRows(blacklist, guild.id)))]
      ensures target.Some? && target.value != [] && isRemove ==>
                var kw := PyText.Lower(target.value);
                && blacklist == RemoveGuildKeyword(old(blacklist), kw, guild.id)
                && replies == [Defer,
                               Followup(RemoveReply(KeywordExists(GuildRows(old(blacklist), guild.id), kw), kw)),
                               Followup(ListingMsg(guild.name, GuildRows(blacklist, guild.id)))]
      ensures target.Some? && target.value != [] && !isRemove && insertFails ==>
                blacklist == old(blacklist)
                && replies == [Defer, Followup(InsertFailedMsg)]
      ensures target.Some? && target.value != [] && !isRemove && !insertFails ==>
                var kw := PyText.Lower(target.value);
                && blacklist == old(blacklist) + [BlacklistRow(NextRowid(old(blacklist)), kw, guild.id)]
                && replies == [Defer, Followup(AddedMsg(kw)),
                               Followup(ListingMsg(guild.name, GuildRows(blacklist, guild.id)))]
    {
      if target.None? || target.value == [] {
        var listing := Listing(guild.name, GuildRows(blacklist, guild.id));
        return [Defer, Followup(listing)];
      }
      var kw := PyText.Lower(target.value);
      if isRemove {
        var reply := RemoveCommand(kw, guild.id);
        var listing := Listing(guild.name, GuildRows(blacklist, guild.id));
        return [Defer, Followup(reply), Followup(listing)];
      }
      if insertFails {
        return [Defer, Followup(InsertFailedMsg)];
      }
      AddCommand(kw, guild.id);
      var listing := Listing(guild.name, GuildRows(blacklist, guild.id));
      replies := [Defer, Followup(AddedMsg(kw)), Followup(listing)];
    }

    /**
     * The remove branch, scoped to the calling guild as evidently intended: delete the
     * guild's row with the keyword and say whether the guild had one.
     */
    method RemoveCommand(kw: string, g: GuildId) returns (reply: string)
      modifies this
      ensures history == old(history)
      ensures blacklist == RemoveGuildKeyword(old(blacklist), kw, g)
      ensures reply == RemoveReply(KeywordExists(GuildRows(old(blacklist), g), kw), kw)
    {
      reply := RemoveReply(KeywordExists(GuildRows(blacklist, g), kw), kw);
      blacklist := RemoveGuildKeyword(blacklist, kw, g);
    }

    /** The add branch: the keyword joins the guild's list under a rowid no row has. */
    method AddCommand(kw: string, g: GuildId)
      modifies this
      ensures history == old(history)
      ensures blacklist == old(blacklist) + [BlacklistRow(NextRowid(old(blacklist)), kw, g)]
      ensures forall i :: 0 <= i < |old(blacklist)| ==> old(blacklist)[i].rowid != NextRowid(old(blacklist))
    {
      blacklist := blacklist + [BlacklistRow(NextRowid(blacklist), kw, g)];
    }

    /**
     * `checkGiveaway`: every open giveaway of the feed is inserted into the history with
     * its expiry date; an insert the database rejects is skipped and the scan goes on.
     */
    method CheckGiveaway(entries: seq<FeedEntry>, insertFails: FeedEntry -> bool)
      modifies this
      ensures history == old(history) + NewRecords(entries, insertFails)
      ensures blacklist == old(blacklist)
    {
      for i := 0 to |entries|
        invariant history == old(history) + NewRecords(entries[..i], insertFails)
        invariant blacklist == old(blacklist)
      {
        var e := entries[i];
        assert entries[..i + 1][..i] == entries[..i];
        assert NewRecords(entries[..i + 1], insertFails) == NewRecords(entries[..i], insertFails) + Recorded(e, insertFails);
        if IsOpenGiveaway(e) {
          var expiryDate := SearchExpiry(e.summary, 0);
          if !insertFails(e) {
            history := history + [GiveawayRecord(e.title, e.link, e.publishTime, expiryDate)];
          }
        }
      }
      assert entries[..|entries|] == entries;
    }

    /**
     * `getNewGiveaway`: None for a guild without a row or without a bot channel; otherwise
     * the channel with the new giveaways that pass the guild's blacklist, or None when
     * there are no new giveaways at all.
     */
    method GetNewGiveaway(scan: GuildScan) returns (r: Option<(ChannelId, Option<seq<GiveawayRow>>)>)
      ensures scan.botChannel.None? || scan.botChannel.value.None? ==> r.None?
      ensures scan.botChannel.Some? && scan.botChannel.value.Some? ==>
                r == Some((scan.botChannel.value.value,
                           if scan.results == [] then None
                           else Some(Filtered(scan.results, GuildKeywords(blacklist, scan.guildId)))))
    {
      if scan.botChannel.None? || scan.botChannel.value.None? {
        return None;
      }
      var keywords := GuildKeywords(blacklist, scan.guildId);
      var filtered: Option<seq<GiveawayRow>> := None;
      if scan.results != [] {
        var kept := FilterBlacklisted(scan.results, keywords);
        filtered := Some(kept);
      }
      r := Some((scan.botChannel.value.value, filtered));
    }

    /** The body of the giveaway loop for one guild. */
    method GuildTask(scan: GuildScan, channelKnown: ChannelId -> bool) returns (effects: seq<TaskEffect>)
      ensures effects == GuildEffects(scan, GuildKeywords(blacklist, scan.guildId), channelKnown)
    {
      var newList := GetNewGiveaway(scan);
      if newList.None? {
        return [MissingBotChannel(scan.guildId)];
      }
      var (channel, rows) := newList.value;
      effects := [];
      if rows.Some? && rows.value != [] && channelKnown(channel) {
        effects := Posts(scan.guildId, channel, rows.value);
      }
    }

    /**
     * `giveawayTask`, one run: scan the feed, then for each guild warn about a missing bot
     * channel or post its new, non-blacklisted giveaways to a channel that exists.
     */
    method GiveawayTask(entries: seq<FeedEntry>, insertFails: FeedEntry -> bool, scans: seq<GuildScan>,
                        channelKnown: ChannelId -> bool)
      returns (effects: seq<TaskEffect>)
      modifies this
      ensures history == old(history) + NewRecords(entries, insertFails)
      ensures blacklist == old(blacklist)
      ensures effects == TaskEffects(scans, blacklist, channelKnown)
    {
      CheckGiveaway(entries, insertFails);
      effects := [];
      for i := 0 to |scans|
        invariant effects == TaskEffects(scans[..i], blacklist, channelKnown)
        invariant history == old(history) + NewRecords(entries, insertFails)
        invariant blacklist == old(blacklist)
      {
        assert scans[..i + 1][..i] == scans[..i];
        var more := GuildTask(scans[i], channelKnown);
        effects := effects + more;
      }
      assert scans[..|scans|] == scans;
    }
  }

  /** What the giveaway loop does for the guilds in order. */
  function TaskEffects(scans: seq<GuildScan>, table: seq<BlacklistRow>, channelKnown: ChannelId -> bool): seq<TaskEffect> {
    if scans == [] then []
    else
      TaskEffects(scans[..|scans| - 1], table, channelKnown)
      + (var s := scans[|scans| - 1]; GuildEffects(s, GuildKeywords(table, s.guildId), channelKnown))
  }
}

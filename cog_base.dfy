/**
 * The shared base of the current slash-command cogs (src/cogs/_cog_base.py): the upload
 * size a guild allows, capped by the MAX_FILE_SIZE environment variable, and the per-user
 * command cooldown from which the bot owner is exempt.
 *
 * The process environment is a parameter (`env`); the chat platform's guild and
 * interaction objects are reduced to the fields read here.
 */
module CogBase {
  import opened Wrappers
  import PyText

  /** A guild, as far as upload sizes go: its number of server boosts. */
  datatype Guild = Guild(premiumSubscriptionCount: int)

  /** The user behind an interaction and the owner of the bot's application. */
  datatype Interaction = Interaction(userId: int, ownerId: int)

  /** `discord.app_commands.Cooldown(rate, per)`: `rate` uses per `per` seconds. */
  datatype Cooldown = Cooldown(rate: nat, per: nat)

  const NoGuildSize: nat := 25
  const DefaultMaxFileSize := "25"

  /** The upload limit in MiB of a guild's boost level. */
  function Tier(boosts: int): (mib: nat)
    ensures mib == 25 || mib == 50 || mib == 100
  {
    if boosts < 7 then 25 else if boosts < 14 then 50 else 100
  }

  /** More boosts never lower the limit, and the levels start at 7 and 14 boosts. */
  lemma TierMonotone(a: int, b: int)
    requires a <= b
    ensures Tier(a) <= Tier(b)
    ensures Tier(b) == 25 <==> b < 7
    ensures Tier(b) == 100 <==> b >= 14
  {
  }

  /**
   * `get_max_file_size`: 25 outside a guild; in a guild, the boost tier unless
   * `abs(int(MAX_FILE_SIZE))` is smaller (MAX_FILE_SIZE defaults to "25"); a value `int`
   * cannot read leaves the tier.
   */
  function GetMaxFileSize(guild: Option<Guild>, env: map<string, string>): (mib: nat)
    ensures guild.None? ==> mib == NoGuildSize
    ensures guild.Some? ==> mib <= Tier(guild.value.premiumSubscriptionCount)
    ensures guild.Some? ==>
              var raw := if "MAX_FILE_SIZE" in env then env["MAX_FILE_SIZE"] else DefaultMaxFileSize;
              && (PyText.ParseInt(raw).None? ==> mib == Tier(guild.value.premiumSubscriptionCount))
              && (PyText.ParseInt(raw).Some? ==>
                    mib == PyText.Min(Tier(guild.value.premiumSubscriptionCount), PyText.Abs(PyText.ParseInt(raw).value)))
  {
    match guild
    case None => NoGuildSize
    case Some(g) =>
      var tier := Tier(g.premiumSubscriptionCount);
      var raw := if "MAX_FILE_SIZE" in env then env["MAX_FILE_SIZE"] else DefaultMaxFileSize;
      match PyText.ParseInt(raw)
      case None => tier
      case Some(n) => PyText.Min(tier, PyText.Abs(n))
  }

  /** With MAX_FILE_SIZE unset the default "25" applies: every guild gets 25 MiB. */
  lemma UnsetMaxFileSizeGives25(guild: Option<Guild>, env: map<string, string>)
    requires "MAX_FILE_SIZE" !in env
    ensures GetMaxFileSize(guild, env) == 25
  {
    PyText.ParseIntOfIntToString(25);
    assert PyText.IntToString(25) == DefaultMaxFileSize;
  }

  /** A limit written as a decimal number applies as itself, or its magnitude, up to the tier. */
  lemma MaxFileSizeOfNumber(g: Guild, env: map<string, string>, n: int)
    requires "MAX_FILE_SIZE" in env && env["MAX_FILE_SIZE"] == PyText.IntToString(n)
    ensures GetMaxFileSize(Some(g), env) == PyText.Min(Tier(g.premiumSubscriptionCount), PyText.Abs(n))
  {
    PyText.ParseIntOfIntToString(n);
  }

  /**
   * `check_cooldown_factory(seconds)`: the check it returns exempts the bot owner (None)
   * and gives everyone else one use per `seconds` seconds.
   */
  function CheckCooldownFactory(seconds: nat): (check: Interaction -> Option<Cooldown>)
    ensures forall ia: Interaction :: check(ia).None? <==> ia.userId == ia.ownerId
    ensures forall ia: Interaction :: check(ia).Some? ==> check(ia).value == Cooldown(1, seconds)
  {
    (ia: Interaction) => if ia.userId == ia.ownerId then None else Some(Cooldown(1, seconds))
  }
}

/**
 * The upload-size rule of the earlier cog base (src/cogs/cog_base.py): a guild's limit
 * follows its boost count, capped by the MAX_FILE_SIZE environment variable, which here
 * has no default.
 *
 * The process environment is a parameter (`env`).
 */
module OldCogBase {
  import PyText

  /** The upload limit in MiB of a boost count: 8, 16 from 7 boosts, 100 from 14. */
  function Tier(nitroCount: int): (mib: nat)
    ensures mib == 8 || mib == 16 || mib == 100
  {
    if nitroCount < 7 then 8 else if nitroCount < 14 then 16 else 100
  }

  lemma TierMonotone(a: int, b: int)
    requires a <= b
    ensures Tier(a) <= Tier(b)
  {
  }

  /**
   * `getMaxFileSize(nitroCount)`: the tier unless `abs(int(MAX_FILE_SIZE))` is smaller; a
   * missing variable (`int(None)` raises) or one `int` cannot read leaves the tier.
   */
  function GetMaxFileSize(nitroCount: int, env: map<string, string>): (mib: nat)
    ensures mib <= Tier(nitroCount)
    ensures "MAX_FILE_SIZE" !in env ==> mib == Tier(nitroCount)
    ensures "MAX_FILE_SIZE" in env && PyText.ParseInt(env["MAX_FILE_SIZE"]).None? ==> mib == Tier(nitroCount)
    ensures "MAX_FILE_SIZE" in env && PyText.ParseInt(env["MAX_FILE_SIZE"]).Some? ==>
              mib == PyText.Min(Tier(nitroCount), PyText.Abs(PyText.ParseInt(env["MAX_FILE_SIZE"]).value))
  {
    var tier := Tier(nitroCount);
    if "MAX_FILE_SIZE" !in env then tier
    else match PyText.ParseInt(env["MAX_FILE_SIZE"])
         case None => tier
         case Some(n) => PyText.Min(tier, PyText.Abs(n))
  }

  /** The default argument: a call without a boost count is the unboosted tier. */
  lemma DefaultNitroCount(env: map<string, string>)
    ensures GetMaxFileSize(0, env) <= 8
  {
  }
}

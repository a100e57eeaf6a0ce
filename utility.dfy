/**
 * The configuration helpers of the first bot (scripts/utility.py): variables are read from
 * the `.env` file first and from the process environment otherwise, and the upload size
 * follows the guild's boost count (the tiers of OldCogBase.Tier) capped by MAX_FILE_SIZE.
 *
 * Both the parsed `.env` file and the process environment are parameters. A `.env` line
 * without `=` gives its key the value None.
 */
module Utility {
  import opened Wrappers
  import PyText
  import OldCogBase

  /**
   * `getEnvVar(name)`: the `.env` entry whenever the key is in the file, even when that
   * entry is None or empty; otherwise the process environment, None when unset there.
   */
  function GetEnvVar(dotenv: map<string, Option<string>>, osEnv: map<string, string>, name: string): (r: Option<string>)
    ensures name in dotenv ==> r == dotenv[name]
    ensures name !in dotenv && name in osEnv ==> r == Some(osEnv[name])
    ensures name !in dotenv && name !in osEnv ==> r.None?
  {
    if name in dotenv then dotenv[name]
    else if name in osEnv then Some(osEnv[name])
    else None
  }

  /**
   * `getMaxFileSize(nitroCount)`: the tier unless `abs(int(getEnvVar("MAX_FILE_SIZE")))`
   * is smaller; any failure (no value, or one `int` cannot read) leaves the tier.
   */
  function GetMaxFileSize(nitroCount: int, dotenv: map<string, Option<string>>, osEnv: map<string, string>): (mib: nat)
    ensures mib <= OldCogBase.Tier(nitroCount)
    ensures var v := GetEnvVar(dotenv, osEnv, "MAX_FILE_SIZE");
            && (v.None? || PyText.ParseInt(v.value).None? ==> mib == OldCogBase.Tier(nitroCount))
            && (v.Some? && PyText.ParseInt(v.value).Some? ==>
                  mib == PyText.Min(OldCogBase.Tier(nitroCount), PyText.Abs(PyText.ParseInt(v.value).value)))
  {
    var tier := OldCogBase.Tier(nitroCount);
    match GetEnvVar(dotenv, osEnv, "MAX_FILE_SIZE")
    case None => tier
    case Some(raw) =>
      match PyText.ParseInt(raw)
      case None => tier
      case Some(n) => PyText.Min(tier, PyText.Abs(n))
  }

  /** A key present in `.env` without a value hides the process environment's value. */
  lemma DotenvShadowsEnvironment(nitroCount: int, dotenv: map<string, Option<string>>, osEnv: map<string, string>)
    requires "MAX_FILE_SIZE" in dotenv && dotenv["MAX_FILE_SIZE"].None?
    ensures GetMaxFileSize(nitroCount, dotenv, osEnv) == OldCogBase.Tier(nitroCount)
  {
  }

  /**
   * With no `.env` entry the rule is the later cog base's: both revisions give the same
   * limit for every boost count and environment.
   */
  lemma AgreesWithCogBase(nitroCount: int, osEnv: map<string, string>)
    ensures GetMaxFileSize(nitroCount, map[], osEnv) == OldCogBase.GetMaxFileSize(nitroCount, osEnv)
  {
  }
}

/**
 * The two command callbacks of atc_del_simulator/cli.py that write to the
 * configuration. Each writes a key that `AdsConfig` never creates, so on a
 * configuration built by its constructor `route` always raises `KeyError`,
 * and `cli` does when it is given a database.
 */
module Cli {
  import opened Wrappers
  import opened Python
  import opened Config

  /**
   * The `cli` group callback: set both tokens and `verbose`, then, when a
   * database path is given, the `database` property. On a configuration with
   * the constructor's keys and sessions the first three steps cannot raise,
   * and the fourth always does.
   */
  method Cli(config: AdsConfig, aeroapiToken: PyValue, avwxToken: PyValue, database: PyValue, verbose: bool)
    returns (outcome: Outcome<PyError>)
    requires config.Valid() && SessionsIntact(config.conf)
    modifies config
    ensures config.Valid()
    ensures config.conf[AEROAPI_TOKEN] == aeroapiToken && config.conf[AVWX_TOKEN] == avwxToken
    ensures config.conf[VERBOSE] == PyBool(verbose)
    ensures config.conf[AEROAPI_SESSION] ==
      PySession(old(config.conf[AEROAPI_SESSION]).headers + ApiHeaders(AEROAPI_SESSION, aeroapiToken))
    ensures config.conf[AVWX_SESSION] == PySession(old(config.conf[AVWX_SESSION]).headers + ApiHeaders(AVWX_SESSION, avwxToken))
    ensures config.conf[RICH_CONSOLE] == old(config.conf[RICH_CONSOLE])
    ensures PyTruthy(database) ==> outcome == Fail(KeyError("database"))
    ensures !PyTruthy(database) ==> outcome == Pass
  {
    assert "database" !in CONF_KEYS;
    var aeroapiSet := config.SetApiToken(AEROAPI_SESSION, aeroapiToken);
    var avwxSet := config.SetApiToken(AVWX_SESSION, avwxToken);
    var verboseSet := config.SetProperty(VERBOSE, PyBool(verbose));
    assert aeroapiSet == Pass && avwxSet == Pass && verboseSet.Success?;
    outcome := Pass;
    if PyTruthy(database) {
      var databaseSet := config.SetProperty("database", database);
      if databaseSet.Failure? {
        return Fail(databaseSet.error);
      }
      // `start_db` is not defined by `AdsConfig` and is not part of this model.
    }
  }

  /**
   * The start of the `route` command: record the `use_cache` option. On a
   * configuration with the constructor's keys this raises `KeyError` and
   * changes nothing, so the rest of the command never runs.
   */
  method Route(config: AdsConfig, cache: bool) returns (outcome: Outcome<PyError>)
    modifies config
    ensures old(config.Valid()) ==> outcome == Fail(KeyError("use_cache")) && config.conf == old(config.conf)
    ensures "use_cache" in old(config.conf) ==>
      outcome == Pass && config.conf == old(config.conf)["use_cache" := PyBool(cache)]
  {
    var r := config.SetProperty("use_cache", PyBool(cache));
    if r.Failure? {
      return Fail(r.error);
    }
    outcome := Pass;
  }
}

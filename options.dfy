/**
 * Option resolution for the adapter: an explicit route option, then an
 * environment variable, then a hard-coded default. In Go an absent map key
 * and an unset environment variable both read as the empty string, and the
 * empty string counts as "not given".
 */
module Options {

  /** Go's `m[key]` on a `map[string]string` and `os.Getenv(key)`: a missing key reads as "". */
  function Lookup(m: map<string, string>, key: string): string
  {
    if key in m then m[key] else ""
  }

  /** The first non-empty candidate, or "" when all are empty: the reference definition of layered fallback. */
  function FirstNonEmpty(candidates: seq<string>): (r: string)
    ensures r == "" <==> forall i :: 0 <= i < |candidates| ==> candidates[i] == ""
    ensures r != "" ==> exists i :: 0 <= i < |candidates| && candidates[i] == r &&
                                    forall j :: 0 <= j < i ==> candidates[j] == ""
  {
    if candidates == [] then ""
    else if candidates[0] != "" then candidates[0]
    else
      var rest := FirstNonEmpty(candidates[1..]);
      assert forall i :: 1 <= i < |candidates| ==> candidates[i] == candidates[1..][i - 1];
      rest
  }

  /** `getopt`: the option value if non-empty, else the environment value if non-empty, else the default. */
  function Getopt(options: map<string, string>, optkey: string,
                  env: map<string, string>, envkey: string,
                  defaultValue: string): (value: string)
    ensures value == Lookup(options, optkey) || value == Lookup(env, envkey) || value == defaultValue
    ensures value == "" ==> defaultValue == ""
  {
    var value := Lookup(options, optkey);
    if value == "" then
      var fromEnv := Lookup(env, envkey);
      if fromEnv == "" then defaultValue else fromEnv
    else value
  }

  /** A non-empty option wins; the environment and the default are ignored. */
  lemma GetoptOptionWins(options: map<string, string>, optkey: string,
                         env: map<string, string>, envkey: string, defaultValue: string)
    requires optkey in options && options[optkey] != ""
    ensures Getopt(options, optkey, env, envkey, defaultValue) == options[optkey]
  {
  }

  /** With the option missing or empty, a non-empty environment value is returned. */
  lemma GetoptEnvFallback(options: map<string, string>, optkey: string,
                          env: map<string, string>, envkey: string, defaultValue: string)
    requires Lookup(options, optkey) == ""
    requires envkey in env && env[envkey] != ""
    ensures Getopt(options, optkey, env, envkey, defaultValue) == env[envkey]
  {
  }

  /** `getopt` is exactly "first non-empty of option, environment, default". */
  lemma GetoptIsFirstNonEmpty(options: map<string, string>, optkey: string,
                              env: map<string, string>, envkey: string, defaultValue: string)
    ensures Getopt(options, optkey, env, envkey, defaultValue)
         == FirstNonEmpty([Lookup(options, optkey), Lookup(env, envkey), defaultValue])
  {
    var c := [Lookup(options, optkey), Lookup(env, envkey), defaultValue];
    assert c[1..] == [Lookup(env, envkey), defaultValue];
    assert c[1..][1..] == [defaultValue];
    assert c[1..][1..][1..] == [];
    if c[0] == "" {
      if c[1] == "" {
        assert FirstNonEmpty(c[1..][1..]) == defaultValue;
      }
      assert FirstNonEmpty(c) == FirstNonEmpty(c[1..]);
    }
  }

  /**
   * The default is chosen exactly when both the option and the environment
   * value are empty; stated for a default that differs from both, so that
   * "the result equals the default" means "the default branch was taken".
   */
  lemma GetoptDefaultIff(options: map<string, string>, optkey: string,
                         env: map<string, string>, envkey: string, defaultValue: string)
    requires defaultValue != Lookup(options, optkey) && defaultValue != Lookup(env, envkey)
    ensures Getopt(options, optkey, env, envkey, defaultValue) == defaultValue
        <==> Lookup(options, optkey) == "" && Lookup(env, envkey) == ""
  {
  }

  /** With both the option and the environment value empty, the default is returned, whatever it is. */
  lemma GetoptBothEmpty(options: map<string, string>, optkey: string,
                        env: map<string, string>, envkey: string, defaultValue: string)
    ensures Lookup(options, optkey) == "" && Lookup(env, envkey) == "" ==>
              Getopt(options, optkey, env, envkey, defaultValue) == defaultValue
  {
  }

  /** With a non-empty default the resolved value is never empty. */
  lemma GetoptNeverEmpty(options: map<string, string>, optkey: string,
                         env: map<string, string>, envkey: string, defaultValue: string)
    requires defaultValue != ""
    ensures Getopt(options, optkey, env, envkey, defaultValue) != ""
  {
  }

  /** The adapter's settings as resolved at construction. */
  datatype Settings = Settings(db: string, table: string, debug: bool)

  const DefaultDb: string := "logs"
  const DefaultTable: string := "logs"
  const DefaultDebug: string := "false"

  /** The debug string as resolved from the `debug` option, the `DEBUG` variable and "false". */
  function DebugString(options: map<string, string>, env: map<string, string>): string
  {
    Getopt(options, "debug", env, "DEBUG", DefaultDebug)
  }

  /** The db/table/debug settings derived by the adapter's constructor. */
  function ResolveSettings(options: map<string, string>, env: map<string, string>): (s: Settings)
    ensures s.db != "" && s.table != ""
    ensures s.debug <==> DebugString(options, env) == "true"
  {
    Settings(Getopt(options, "rethinkdb_db", env, "RETHINKDB_DB", DefaultDb),
             Getopt(options, "rethinkdb_table", env, "RETHINKDB_TABLE", DefaultTable),
             DebugString(options, env) == "true")
  }

  /** With nothing configured, db and table are "logs" and debug is off. */
  lemma DefaultSettings(options: map<string, string>, env: map<string, string>)
    requires Lookup(options, "rethinkdb_db") == "" && Lookup(env, "RETHINKDB_DB") == ""
    requires Lookup(options, "rethinkdb_table") == "" && Lookup(env, "RETHINKDB_TABLE") == ""
    requires Lookup(options, "debug") == "" && Lookup(env, "DEBUG") == ""
    ensures ResolveSettings(options, env) == Settings("logs", "logs", false)
  {
  }

  /**
   * Debug is on exactly when the option says "true", or the option is
   * missing or empty and the environment says "true". Any other spelling
   * ("TRUE", "1", "yes") leaves it off.
   */
  lemma DebugIff(options: map<string, string>, env: map<string, string>)
    ensures ResolveSettings(options, env).debug
        <==> Lookup(options, "debug") == "true"
             || (Lookup(options, "debug") == "" && Lookup(env, "DEBUG") == "true")
  {
  }
}

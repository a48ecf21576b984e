/**
  Start-up configuration read from the process environment, which is a map
  from variable name to value. Durations are counted in nanoseconds, as Go's
  time.Duration counts them; time.ParseDuration is a function argument.
 */
module Configuration {
  import opened Text

  type Env = map<string, string>

  /** One second as a time.Duration. */
  const Second := 1_000_000_000

  datatype Config = Config(
    port: string,
    baseDomain: string,
    defaultEnv: string,
    allowedNamespaces: seq<string>,
    readTimeout: int,
    writeTimeout: int,
    idleTimeout: int)

  /** os.Getenv: the value of `key`, or "" when it is unset. */
  function Getenv(env: Env, key: string): string
  {
    if key in env then env[key] else ""
  }

  /** getEnv: the variable's value when it is non-empty, else the default. */
  function GetEnv(env: Env, key: string, defaultValue: string): string
  {
    var value := Getenv(env, key);
    if value != "" then value else defaultValue
  }

  /** getDurationEnv: the parsed value of a non-empty variable that parses, else the default. */
  function GetDurationEnv(env: Env, key: string, defaultValue: int, parseDuration: string -> Option<int>): int
  {
    var value := Getenv(env, key);
    if value != "" then
      match parseDuration(value)
      case Some(duration) => duration
      case None => defaultValue
    else defaultValue
  }

  function TrimEach(entries: seq<string>): seq<string>
  {
    seq(|entries|, i requires 0 <= i < |entries| => TrimSpace(entries[i]))
  }

  /** The allow-list read from ALLOWED_NAMESPACES: none when the value is empty,
      else its comma-separated entries, each trimmed. */
  function AllowList(raw: string): seq<string>
  {
    if raw == "" then [] else TrimEach(Split(raw, ','))
  }

  /** What LoadConfig returns for an environment. */
  function ConfigFrom(env: Env, parseDuration: string -> Option<int>): Config
  {
    Config(
      GetEnv(env, "PORT", "8080"),
      GetEnv(env, "BASE_DOMAIN", "code-craft.co.in"),
      GetEnv(env, "DEFAULT_ENV", "true"),
      AllowList(Getenv(env, "ALLOWED_NAMESPACES")),
      GetDurationEnv(env, "READ_TIMEOUT", 15 * Second, parseDuration),
      GetDurationEnv(env, "WRITE_TIMEOUT", 15 * Second, parseDuration),
      GetDurationEnv(env, "IDLE_TIMEOUT", 60 * Second, parseDuration))
  }

  /** Trims every entry of the slice in place. */
  method TrimInPlace(entries: array<string>)
    modifies entries
    ensures entries[..] == TrimEach(old(entries[..]))
  {
    ghost var original := entries[..];
    for i := 0 to entries.Length
      invariant forall k :: 0 <= k < i ==> entries[k] == TrimSpace(original[k])
      invariant forall k :: i <= k < entries.Length ==> entries[k] == original[k]
    {
      entries[i] := TrimSpace(entries[i]);
    }
  }

  /** Reads the configuration, splitting the allow-list on commas and trimming each entry in place. */
  method LoadConfig(env: Env, parseDuration: string -> Option<int>) returns (config: Config)
    ensures config == ConfigFrom(env, parseDuration)
  {
    var port := GetEnv(env, "PORT", "8080");
    var baseDomain := GetEnv(env, "BASE_DOMAIN", "code-craft.co.in");
    var defaultEnv := GetEnv(env, "DEFAULT_ENV", "true");
    var readTimeout := GetDurationEnv(env, "READ_TIMEOUT", 15 * Second, parseDuration);
    var writeTimeout := GetDurationEnv(env, "WRITE_TIMEOUT", 15 * Second, parseDuration);
    var idleTimeout := GetDurationEnv(env, "IDLE_TIMEOUT", 60 * Second, parseDuration);
    var allowed: seq<string> := [];
    var allowedNS := Getenv(env, "ALLOWED_NAMESPACES");
    if allowedNS != "" {
      var pieces := Split(allowedNS, ',');
      var entries := new string[|pieces|](i requires 0 <= i < |pieces| => pieces[i]);
      assert entries[..] == pieces;
      TrimInPlace(entries);
      allowed := entries[..];
    }
    config := Config(port, baseDomain, defaultEnv, allowed, readTimeout, writeTimeout, idleTimeout);
  }

  /** getEnv yields a non-empty value as it is; an unset variable and an empty one both yield the default. */
  lemma GetEnvRule(env: Env, key: string, defaultValue: string)
    ensures key in env && env[key] != "" ==> GetEnv(env, key, defaultValue) == env[key]
    ensures GetEnv(env - {key}, key, defaultValue) == defaultValue
    ensures GetEnv(env[key := ""], key, defaultValue) == defaultValue
  {
  }

  /** A duration variable that is set but does not parse leaves the default in force. */
  lemma UnparsableDurationFallsBack(env: Env, key: string, defaultValue: int, parseDuration: string -> Option<int>)
    requires parseDuration(Getenv(env, key)).None?
    ensures GetDurationEnv(env, key, defaultValue, parseDuration) == defaultValue
  {
  }

  /** With nothing set, the configuration is all defaults and the allow-list is empty. */
  lemma Defaults(parseDuration: string -> Option<int>)
    ensures ConfigFrom(map[], parseDuration)
         == Config("8080", "code-craft.co.in", "true", [], 15 * Second, 15 * Second, 60 * Second)
  {
  }

  /** An empty or unset ALLOWED_NAMESPACES leaves the allow-list empty: no restriction. */
  lemma NoAllowListWhenUnset(env: Env, parseDuration: string -> Option<int>)
    requires "ALLOWED_NAMESPACES" !in env || env["ALLOWED_NAMESPACES"] == ""
    ensures ConfigFrom(env, parseDuration).allowedNamespaces == []
  {
  }

  /** Trimming a comma-free piece leaves a comma-free entry without white space at either end. */
  lemma TrimmedPiece(piece: string)
    requires ',' !in piece
    ensures var r := TrimSpace(piece);
            && ',' !in r
            && (r != "" ==> !IsSpace(r[0]) && !IsSpace(r[|r| - 1]))
  {
    TrimSpaceInfix(piece);
    TrimSpaceEnds(piece);
    var r, k := TrimSpace(piece), LeadingSpace(piece);
    assert forall j :: 0 <= j < |r| ==> r[j] == piece[k + j];
  }

  /** A non-empty ALLOWED_NAMESPACES gives one entry per comma plus one, empty entries kept;
      each entry is the trimmed text between commas: no comma inside, no white space at either end. */
  lemma {:induction false} AllowListEntries(raw: string)
    requires raw != ""
    ensures var entries, pieces := AllowList(raw), Split(raw, ',');
            && |entries| == Count(raw, ',') + 1
            && (forall i :: 0 <= i < |entries| ==> entries[i] == TrimSpace(pieces[i]))
            && (forall i :: 0 <= i < |entries| ==> ',' !in entries[i])
            && (forall i :: 0 <= i < |entries| && entries[i] != "" ==>
                  !IsSpace(entries[i][0]) && !IsSpace(entries[i][|entries[i]| - 1]))
  {
    var pieces := Split(raw, ',');
    SplitCount(raw, ',');
    SplitPiecesSepFree(raw, ',');
    forall i | 0 <= i < |pieces|
      ensures var r := TrimSpace(pieces[i]);
              && ',' !in r
              && (r != "" ==> !IsSpace(r[0]) && !IsSpace(r[|r| - 1]))
    {
      TrimmedPiece(pieces[i]);
    }
  }

  /** A lone comma gives two empty entries. */
  lemma LoneCommaExample()
    ensures AllowList(",") == ["", ""]
  {
    SplitAfterFirst("", "", ',');
    assert "" + [','] + "" == ",";
    assert Split(",", ',') == ["", ""];
    assert TrimSpace("") == "";
    var entries := AllowList(",");
    assert |entries| == 2 && entries[0] == "" && entries[1] == "";
  }
}

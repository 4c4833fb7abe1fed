/** The pipeline's configuration (config.py): settings read from the process
    environment, with fixed defaults for the two optional ones, validated before
    either accessor bundle is handed out. */
module Config {
  import opened Wrappers
  import opened Strings

  /** The process environment, `os.environ`: variable names to their values. */
  type Environment = map<string, string>

  /** The fallback playlist locator, written as three literals joined: the
      playlist page, the playlist id and its share-link query string. */
  const DEFAULT_PLAYLIST_URL: string :=
    "https://open.spotify.com/playlist/" + "37i9dQZEVXbNG2KDcFcKOF" + "?si=1333723a6eff4b7f"
  const DEFAULT_AWS_REGION: string := "us-east-1"

  /** Key prefixes naming the zones of the bucket. */
  const RAW_DATA_PREFIX: string := "raw_data/to_processed/"
  const PROCESSED_DATA_PREFIX: string := "raw_data/processed/"
  const TRANSFORMED_DATA_PREFIX: string := "transformed_data/"

  /** The three settings without which the pipeline cannot run, in declared order. */
  const REQUIRED_VARS: seq<string> := ["SPOTIFY_CLIENT_ID", "SPOTIFY_CLIENT_SECRET", "S3_BUCKET_NAME"]

  const MISSING_PREFIX: string := "Missing required environment variables: "

  /** The class attributes of `Config`, resolved from the environment. The required
      ones may be absent; the optional ones always hold a value. */
  datatype Settings = Settings(
    spotifyClientId: Option<string>,
    spotifyClientSecret: Option<string>,
    spotifyPlaylistUrl: string,
    s3BucketName: Option<string>,
    awsRegion: string)

  /** `os.environ.get(name)`: the variable's value when it is set, None otherwise. */
  function EnvGet(env: Environment, name: string): (r: Option<string>)
    ensures r.Some? <==> name in env
    ensures r.Some? ==> r.value == env[name]
  {
    if name in env then Some(env[name]) else None
  }

  /** The settings `Config` reads from the environment. A variable that is set,
      even to the empty string, is taken as it is; the two optional ones fall
      back to their defaults only when unset. */
  function FromEnvironment(env: Environment): (s: Settings)
    ensures s.spotifyClientId.Some? <==> "SPOTIFY_CLIENT_ID" in env
    ensures s.spotifyClientSecret.Some? <==> "SPOTIFY_CLIENT_SECRET" in env
    ensures s.s3BucketName.Some? <==> "S3_BUCKET_NAME" in env
    ensures "SPOTIFY_CLIENT_ID" in env ==> s.spotifyClientId == Some(env["SPOTIFY_CLIENT_ID"])
    ensures "SPOTIFY_CLIENT_SECRET" in env ==> s.spotifyClientSecret == Some(env["SPOTIFY_CLIENT_SECRET"])
    ensures "S3_BUCKET_NAME" in env ==> s.s3BucketName == Some(env["S3_BUCKET_NAME"])
    ensures "SPOTIFY_PLAYLIST_URL" !in env ==> s.spotifyPlaylistUrl == DEFAULT_PLAYLIST_URL
    ensures "SPOTIFY_PLAYLIST_URL" in env ==> s.spotifyPlaylistUrl == env["SPOTIFY_PLAYLIST_URL"]
    ensures "AWS_REGION" !in env ==> s.awsRegion == DEFAULT_AWS_REGION
    ensures "AWS_REGION" in env ==> s.awsRegion == env["AWS_REGION"]
  {
    Settings(
      EnvGet(env, "SPOTIFY_CLIENT_ID"),
      EnvGet(env, "SPOTIFY_CLIENT_SECRET"),
      if "SPOTIFY_PLAYLIST_URL" in env then env["SPOTIFY_PLAYLIST_URL"] else DEFAULT_PLAYLIST_URL,
      EnvGet(env, "S3_BUCKET_NAME"),
      if "AWS_REGION" in env then env["AWS_REGION"] else DEFAULT_AWS_REGION)
  }

  /** `getattr(Config, name)` for a required setting. */
  function Attr(s: Settings, name: string): (r: Option<string>)
    requires name in REQUIRED_VARS
    ensures name == "SPOTIFY_CLIENT_ID" ==> r == s.spotifyClientId
    ensures name == "SPOTIFY_CLIENT_SECRET" ==> r == s.spotifyClientSecret
    ensures name == "S3_BUCKET_NAME" ==> r == s.s3BucketName
  {
    if name == "SPOTIFY_CLIENT_ID" then s.spotifyClientId
    else if name == "SPOTIFY_CLIENT_SECRET" then s.spotifyClientSecret
    else s.s3BucketName
  }

  /** Python truthiness of an optional string: None and "" are the only falsy values. */
  predicate Truthy(o: Option<string>): (b: bool)
    ensures !b <==> o == None || o == Some("")
  {
    o.Some? && o.value != ""
  }

  /** Where a required setting stands in the declared order. */
  function Position(name: string): nat
    requires name in REQUIRED_VARS
  {
    if name == "SPOTIFY_CLIENT_ID" then 0
    else if name == "SPOTIFY_CLIENT_SECRET" then 1
    else 2
  }

  predicate AllRequired(vars: seq<string>) {
    forall i :: 0 <= i < |vars| ==> vars[i] in REQUIRED_VARS
  }

  /** The names among `vars` whose setting is falsy, in the order of `vars`. */
  function MissingAmong(s: Settings, vars: seq<string>): (missing: seq<string>)
    requires AllRequired(vars)
    ensures AllRequired(missing) && |missing| <= |vars|
    decreases |vars|
  {
    if vars == [] then []
    else
      MissingAmong(s, vars[..|vars| - 1])
      + (if Truthy(Attr(s, Last(vars))) then [] else [Last(vars)])
  }

  /** Reads a validation message back into the names it lists. */
  function ParseMissingMessage(msg: string): Option<seq<string>> {
    if |MISSING_PREFIX| <= |msg| && msg[..|MISSING_PREFIX|] == MISSING_PREFIX
    then Some(Split(msg[|MISSING_PREFIX|..], ", "))
    else None
  }

  /** The error `validate_config` raises (a ValueError), naming the missing settings. */
  datatype ConfigError = MissingVariables(names: seq<string>) {
    /** The exception's text: the fixed prefix, then the names joined by ", ". It
        reads back to exactly the names, provided there is one and none holds a comma. */
    function Message(): (msg: string)
      ensures |MISSING_PREFIX| <= |msg| && msg[..|MISSING_PREFIX|] == MISSING_PREFIX
      ensures |names| >= 1 && (forall i :: 0 <= i < |names| ==> ',' !in names[i]) ==>
        ParseMissingMessage(msg) == Some(names)
    {
      var msg := MISSING_PREFIX + Join(names, ", ");
      assert msg[|MISSING_PREFIX|..] == Join(names, ", ");
      if |names| >= 1 && (forall i :: 0 <= i < |names| ==> ',' !in names[i]) then
        SplitJoin(names, ", ");
        msg
      else
        msg
    }
  }

  /** What `validate_config` does, as a value: true, or the error naming every
      required setting that is unset or empty. */
  function Validate(s: Settings): (r: Result<bool, ConfigError>)
    ensures r.Ok? <==>
      Truthy(s.spotifyClientId) && Truthy(s.spotifyClientSecret) && Truthy(s.s3BucketName)
    ensures r.Ok? ==> r.value
    ensures r.Err? ==> |r.error.names| >= 1
  {
    var missing := MissingAmong(s, REQUIRED_VARS);
    MissingMember(s, REQUIRED_VARS, "SPOTIFY_CLIENT_ID");
    MissingMember(s, REQUIRED_VARS, "SPOTIFY_CLIENT_SECRET");
    MissingMember(s, REQUIRED_VARS, "S3_BUCKET_NAME");
    if missing == [] then Ok(true)
    else
      MissingMember(s, REQUIRED_VARS, missing[0]);
      Err(MissingVariables(missing))
  }

  /** `Config.validate_config`: walks the required settings in declared order,
      collecting every one that is unset or empty, then fails if any was found. */
  method ValidateConfig(s: Settings) returns (r: Result<bool, ConfigError>)
    ensures r == Validate(s)
  {
    var missingVars: seq<string> := [];
    var i := 0;
    while i < |REQUIRED_VARS|
      invariant 0 <= i <= |REQUIRED_VARS|
      invariant missingVars == MissingAmong(s, REQUIRED_VARS[..i])
    {
      var name := REQUIRED_VARS[i];
      if !Truthy(Attr(s, name)) {
        missingVars := missingVars + [name];
      }
      assert REQUIRED_VARS[..i + 1][..i] == REQUIRED_VARS[..i];
      i := i + 1;
    }
    assert REQUIRED_VARS[..i] == REQUIRED_VARS;
    if missingVars != [] {
      r := Err(MissingVariables(missingVars));
      return;
    }
    r := Ok(true);
  }

  /** A name is reported missing exactly when it is one of those checked and its setting is falsy. */
  lemma {:induction false} MissingMember(s: Settings, vars: seq<string>, name: string)
    requires AllRequired(vars)
    ensures name in MissingAmong(s, vars) <==> name in vars && !Truthy(Attr(s, name))
    decreases |vars|
  {
    if vars != [] {
      var init := vars[..|vars| - 1];
      MissingMember(s, init, name);
      assert vars == init + [Last(vars)];
    }
  }

  /** Checked in declared order, the missing names come out in declared order, each once. */
  lemma {:induction false} MissingInDeclaredOrder(s: Settings, vars: seq<string>)
    requires AllRequired(vars)
    requires forall i, j :: 0 <= i < j < |vars| ==> Position(vars[i]) < Position(vars[j])
    ensures var m := MissingAmong(s, vars);
      forall i, j :: 0 <= i < j < |m| ==> Position(m[i]) < Position(m[j])
    decreases |vars|
  {
    if vars != [] {
      var init := vars[..|vars| - 1];
      MissingInDeclaredOrder(s, init);
      var m0 := MissingAmong(s, init);
      forall k | 0 <= k < |m0|
        ensures Position(m0[k]) < Position(Last(vars))
      {
        MissingMember(s, init, m0[k]);
        var idx :| 0 <= idx < |init| && init[idx] == m0[k];
        assert vars[idx] == m0[k] && vars[|vars| - 1] == Last(vars);
      }
    }
  }

  /** The validator's error lists the falsy required settings, in declared order,
      each once; no other name appears. */
  lemma ValidateReportsExactlyMissing(s: Settings)
    requires Validate(s).Err?
    ensures var names := Validate(s).error.names;
      (forall name :: name in names <==> name in REQUIRED_VARS && !Truthy(Attr(s, name)))
      && (forall i, j :: 0 <= i < j < |names| ==> Position(names[i]) < Position(names[j]))
  {
    forall name
      ensures name in Validate(s).error.names <==> name in REQUIRED_VARS && !Truthy(Attr(s, name))
    {
      MissingMember(s, REQUIRED_VARS, name);
    }
    assert Validate(s).error.names == MissingAmong(s, REQUIRED_VARS);
    assert forall i, j :: 0 <= i < j < |REQUIRED_VARS| ==>
      Position(REQUIRED_VARS[i]) < Position(REQUIRED_VARS[j]);
    MissingInDeclaredOrder(s, REQUIRED_VARS);
  }

  /** Only the required settings are consulted: two settings that agree on them
      have the same missing list. */
  lemma {:induction false} MissingIgnoresOptional(s: Settings, t: Settings, vars: seq<string>)
    requires AllRequired(vars)
    requires s.spotifyClientId == t.spotifyClientId
    requires s.spotifyClientSecret == t.spotifyClientSecret
    requires s.s3BucketName == t.s3BucketName
    ensures MissingAmong(s, vars) == MissingAmong(t, vars)
    decreases |vars|
  {
    if vars != [] {
      MissingIgnoresOptional(s, t, vars[..|vars| - 1]);
    }
  }

  /** The playlist URL and the region never affect validation. */
  lemma OptionalSettingsIrrelevant(s: Settings, url: string, region: string)
    ensures Validate(s.(spotifyPlaylistUrl := url, awsRegion := region)) == Validate(s)
  {
    MissingIgnoresOptional(s.(spotifyPlaylistUrl := url, awsRegion := region), s, REQUIRED_VARS);
  }

  /** Validation of the environment-derived settings passes exactly when all three
      required variables are set to non-empty values. */
  lemma ValidateEnvironment(env: Environment)
    ensures Validate(FromEnvironment(env)).Ok? <==>
      forall name :: name in REQUIRED_VARS ==> name in env && env[name] != ""
  {
  }

  /** The missing list of the three required settings, spelled out: each name in
      declared order, present exactly when its setting is falsy. */
  lemma MissingRequiredSpelledOut(s: Settings)
    ensures MissingAmong(s, REQUIRED_VARS) ==
      (if Truthy(s.spotifyClientId) then [] else ["SPOTIFY_CLIENT_ID"])
      + (if Truthy(s.spotifyClientSecret) then [] else ["SPOTIFY_CLIENT_SECRET"])
      + (if Truthy(s.s3BucketName) then [] else ["S3_BUCKET_NAME"])
  {
    var two := REQUIRED_VARS[..2];
    assert two == ["SPOTIFY_CLIENT_ID", "SPOTIFY_CLIENT_SECRET"];
    assert two[..1] == ["SPOTIFY_CLIENT_ID"];
    assert two[..1][..0] == [];
  }

  /** When exactly one required setting is falsy, the error names that one alone. */
  lemma OneMissingNamed(s: Settings, name: string)
    requires name in REQUIRED_VARS && !Truthy(Attr(s, name))
    requires forall other :: other in REQUIRED_VARS && other != name ==> Truthy(Attr(s, other))
    ensures Validate(s) == Err(MissingVariables([name]))
  {
    MissingRequiredSpelledOut(s);
    assert "SPOTIFY_CLIENT_ID" != name ==> Truthy(Attr(s, "SPOTIFY_CLIENT_ID"));
    assert "SPOTIFY_CLIENT_SECRET" != name ==> Truthy(Attr(s, "SPOTIFY_CLIENT_SECRET"));
    assert "S3_BUCKET_NAME" != name ==> Truthy(Attr(s, "S3_BUCKET_NAME"));
    assert MissingAmong(s, REQUIRED_VARS) == [name];
  }

  /** The message of a failed validation lists exactly the missing settings. */
  lemma ValidateMessageNamesMissing(s: Settings)
    requires Validate(s).Err?
    ensures ParseMissingMessage(Validate(s).error.Message()) == Some(MissingAmong(s, REQUIRED_VARS))
  {
    var names := Validate(s).error.names;
    forall i | 0 <= i < |names|
      ensures ',' !in names[i]
    {
      MissingMember(s, REQUIRED_VARS, names[i]);
    }
  }

  /** The bundle `get_spotify_config` returns. */
  datatype SpotifyConfig = SpotifyConfig(clientId: string, clientSecret: string, playlistUrl: string)

  /** The bundle `get_aws_config` returns. */
  datatype AwsConfig = AwsConfig(bucketName: string, region: string)

  /** `Config.get_spotify_config`: validates first, then hands out the credentials
      and the playlist locator unchanged. */
  function GetSpotifyConfig(s: Settings): (r: Result<SpotifyConfig, ConfigError>)
    ensures r.Ok? <==> Validate(s).Ok?
    ensures r.Err? ==> r.error == Validate(s).error
    ensures r.Ok? ==>
      Some(r.value.clientId) == s.spotifyClientId && r.value.clientId != ""
      && Some(r.value.clientSecret) == s.spotifyClientSecret && r.value.clientSecret != ""
      && r.value.playlistUrl == s.spotifyPlaylistUrl
  {
    match Validate(s)
    case Err(e) => Err(e)
    case Ok(_) => Ok(SpotifyConfig(s.spotifyClientId.value, s.spotifyClientSecret.value, s.spotifyPlaylistUrl))
  }

  /** `Config.get_aws_config`: validates first, then hands out the bucket and region unchanged. */
  function GetAwsConfig(s: Settings): (r: Result<AwsConfig, ConfigError>)
    ensures r.Ok? <==> Validate(s).Ok?
    ensures r.Err? ==> r.error == Validate(s).error
    ensures r.Ok? ==>
      Some(r.value.bucketName) == s.s3BucketName && r.value.bucketName != ""
      && r.value.region == s.awsRegion
  {
    match Validate(s)
    case Err(e) => Err(e)
    case Ok(_) => Ok(AwsConfig(s.s3BucketName.value, s.awsRegion))
  }
}

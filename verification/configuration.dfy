/**
  The configuration of a run (config.py): the command-line options, the
  settings read from the environment under a prefix named after the
  configuration type, and the check that decides whether the run exits,
  warns or proceeds.
*/
module Configuration {
  import opened Wrappers
  import opened Seqs
  import opened Text
  import opened Numerals

  /** The command-line options of `parse_args`. */
  datatype Args = Args(hours: int, limit: int, debug: bool, config: string)

  /** The process environment. */
  type Env = map<string, string>

  /** `os.getenv(key)` */
  function GetEnv(env: Env, key: string): Option<string>
  {
    if key in env then Some(env[key]) else None
  }

  /** `os.getenv(key, default)` */
  function GetEnvOr(env: Env, key: string, default: string): string
  {
    if key in env then env[key] else default
  }

  /** A setting is truthy when it is present and not the empty string. */
  predicate Truthy(v: Option<string>)
  {
    v.Some? && v.value != ""
  }

  function ChannelIdsKey(configType: string): string
  {
    configType + "_CHANNEL_IDS"
  }

  function OutputChannelIdKey(configType: string): string
  {
    configType + "_OUTPUT_CHANNEL_ID"
  }

  /** The two channel settings of a configuration type are different settings. */
  lemma ChannelKeysDiffer(configType: string)
    ensures ChannelIdsKey(configType) != OutputChannelIdKey(configType)
  {
    var n := |configType| + 1;
    assert ChannelIdsKey(configType)[n] == 'C';
    assert OutputChannelIdKey(configType)[n] == 'O';
  }

  /**
    The two channel settings are read independently: setting one of them
    leaves the text the other is read from, as `Load` reads it, unchanged.
  */
  lemma ChannelSettingsIndependent(env: Env, configType: string, v: string)
    ensures GetEnvOr(env[OutputChannelIdKey(configType) := v], ChannelIdsKey(configType), "")
         == GetEnvOr(env, ChannelIdsKey(configType), "")
    ensures GetEnvOr(env[ChannelIdsKey(configType) := v], OutputChannelIdKey(configType), "0")
         == GetEnvOr(env, OutputChannelIdKey(configType), "0")
  {
    ChannelKeysDiffer(configType);
  }

  // ---------------------------------------------------------------
  // Channel ids
  // ---------------------------------------------------------------

  /** `parse(f)` for every field, in order; `None` as soon as one of them fails. */
  function ParseAll(fields: seq<string>, parse: string -> Option<int>): (r: Option<seq<int>>)
    ensures r.Some? <==> forall k :: 0 <= k < |fields| ==> parse(fields[k]).Some?
    ensures r.Some? ==> |r.value| == |fields|
    ensures r.Some? ==> forall k :: 0 <= k < |fields| ==> parse(fields[k]) == Some(r.value[k])
  {
    if fields == [] then Some([])
    else
      var init := fields[..|fields| - 1];
      var front := ParseAll(init, parse);
      var last := parse(fields[|fields| - 1]);
      assert forall k :: 0 <= k < |init| ==> init[k] == fields[k];
      if front.None? || last.None? then None
      else Some(front.value + [last.value])
  }

  predicate NonEmptyField(f: string)
  {
    f != ""
  }

  /** `[int(cid) for cid in s.split(',') if cid]`; `None` for the `ValueError`. */
  function ParseChannelIds(s: string): Option<seq<int>>
  {
    ParseAll(Filter(SplitOn(s, ','), NonEmptyField), ParseInt)
  }

  lemma IntToStringNoComma(n: int)
    ensures IntToString(n) != "" && ',' !in IntToString(n)
  {
    var s := IntToString(n);
    if n < 0 {
      assert s == "-" + NatToString(-n);
      assert forall k :: 1 <= k < |s| ==> s[k] == NatToString(-n)[k - 1];
    }
  }

  /** The fields of ids written out with `str` and joined by commas are those texts. */
  lemma FieldsOfJoin(ids: seq<int>)
    ensures Filter(SplitOn(Join(Map(ids, IntToString), ","), ','), NonEmptyField) == Map(ids, IntToString)
  {
    var fields := Map(ids, IntToString);
    if ids == [] {
      assert SplitOn("", ',') == [""];
      FilterNone([""], NonEmptyField);
    } else {
      forall k | 0 <= k < |fields|
        ensures ',' !in fields[k] && fields[k] != ""
      {
        IntToStringNoComma(ids[k]);
      }
      SplitOnJoin(fields, ',');
      FilterAll(fields, NonEmptyField);
    }
  }

  /** Converting ids written out with `str` gives the ids back. */
  lemma ParseAllToString(ids: seq<int>)
    ensures ParseAll(Map(ids, IntToString), ParseInt) == Some(ids)
  {
    var fields := Map(ids, IntToString);
    forall k | 0 <= k < |fields|
      ensures ParseInt(fields[k]) == Some(ids[k])
    {
      ParseIntToString(ids[k]);
    }
    var r := ParseAll(fields, ParseInt);
    assert r.value == ids;
  }

  /** Ids written out with `str` and joined by commas read back as the same ids. */
  lemma ParseChannelIdsJoin(ids: seq<int>)
    ensures ParseChannelIds(Join(Map(ids, IntToString), ",")) == Some(ids)
  {
    FieldsOfJoin(ids);
    ParseAllToString(ids);
  }

  // ---------------------------------------------------------------
  // Config
  // ---------------------------------------------------------------

  /** Why `validate` ends the process. */
  datatype ExitReason =
    | MissingChannels(channelIdsMissing: bool, outputChannelMissing: bool)
    | MissingApiKey
    | MissingTokens

  /** The outcome of `validate`. */
  datatype Verdict = Exit(reason: ExitReason) | Warn | Proceed

  class Config {
    var args: Args
    var configType: string
    var token: Option<string>
    var botToken: Option<string>
    var apiKey: Option<string>
    var channelIds: seq<int>
    var outputChannelId: int

    /** The field assignments of `__init__`, given the two channel settings once converted. */
    constructor (args: Args, env: Env, channelIds: seq<int>, outputChannelId: int)
      ensures this.args == args && configType == ToUpper(args.config)
      ensures token == GetEnv(env, "DISCORD_TOKEN")
      ensures botToken == GetEnv(env, "BOT_TOKEN")
      ensures apiKey == GetEnv(env, "OPENROUTER_API_KEY")
      ensures this.channelIds == channelIds && this.outputChannelId == outputChannelId
    {
      this.args := args;
      configType := ToUpper(args.config);
      token := GetEnv(env, "DISCORD_TOKEN");
      botToken := GetEnv(env, "BOT_TOKEN");
      apiKey := GetEnv(env, "OPENROUTER_API_KEY");
      this.channelIds := channelIds;
      this.outputChannelId := outputChannelId;
    }

    /** `validate` */
    function Validate(): (v: Verdict)
      reads this
      ensures v.Exit? && v.reason.MissingChannels? <==> channelIds == [] || outputChannelId == 0
      ensures v.Exit? && v.reason.MissingChannels? ==>
        v.reason.channelIdsMissing == (channelIds == []) && v.reason.outputChannelMissing == (outputChannelId == 0)
      ensures v == Exit(MissingApiKey) <==>
        channelIds != [] && outputChannelId != 0 && !args.debug && !Truthy(apiKey)
      ensures v == Exit(MissingTokens) <==>
        channelIds != [] && outputChannelId != 0 && !args.debug && Truthy(apiKey) && !Truthy(botToken) && !Truthy(token)
      ensures !v.Exit? ==> (v == Warn <==> !Truthy(token))
      ensures args.debug ==> (v.Exit? <==> channelIds == [] || outputChannelId == 0)
    {
      if channelIds == [] || outputChannelId == 0 then
        Exit(MissingChannels(channelIds == [], outputChannelId == 0))
      else if !args.debug && !Truthy(apiKey) then
        Exit(MissingApiKey)
      else if !args.debug && !Truthy(botToken) && !Truthy(token) then
        Exit(MissingTokens)
      else if !Truthy(token) then
        Warn
      else
        Proceed
    }
  }

  /** What constructing a `Config` ends in. */
  datatype Loaded = ValueError | Constructed(config: Config, verdict: Verdict)

  /**
    `Config(args)`: read the settings, convert the channel settings (a
    conversion error escapes as `ValueError`) and validate; an `Exit`
    verdict ends the process.
  */
  method Load(args: Args, env: Env) returns (r: Loaded)
    ensures var configType := ToUpper(args.config);
      var ids := ParseChannelIds(GetEnvOr(env, ChannelIdsKey(configType), ""));
      var output := ParseInt(GetEnvOr(env, OutputChannelIdKey(configType), "0"));
      && (r.ValueError? <==> ids.None? || output.None?)
      && (r.Constructed? ==>
            && fresh(r.config)
            && r.config.args == args
            && r.config.configType == configType
            && r.config.token == GetEnv(env, "DISCORD_TOKEN")
            && r.config.botToken == GetEnv(env, "BOT_TOKEN")
            && r.config.apiKey == GetEnv(env, "OPENROUTER_API_KEY")
            && r.config.channelIds == ids.value
            && r.config.outputChannelId == output.value
            && r.verdict == r.config.Validate())
  {
    var configType := ToUpper(args.config);
    var ids := ParseChannelIds(GetEnvOr(env, ChannelIdsKey(configType), ""));
    if ids.None? {
      return ValueError;
    }
    var output := ParseInt(GetEnvOr(env, OutputChannelIdKey(configType), "0"));
    if output.None? {
      return ValueError;
    }
    var c := new Config(args, env, ids.value, output.value);
    r := Constructed(c, c.Validate());
  }

  /** Both channel settings absent: no channel ids and output channel 0, so the run exits. */
  lemma AbsentChannelSettings(env: Env, configType: string)
    requires ChannelIdsKey(configType) !in env && OutputChannelIdKey(configType) !in env
    ensures ParseChannelIds(GetEnvOr(env, ChannelIdsKey(configType), "")) == Some([])
    ensures ParseInt(GetEnvOr(env, OutputChannelIdKey(configType), "0")) == Some(0)
  {
    assert SplitOn("", ',') == [""];
    FilterNone([""], NonEmptyField);
    ParseIntToString(0);
  }
}

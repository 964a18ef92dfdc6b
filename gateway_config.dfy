/** `loadConfig` of the gateway (apps/gateway/src/config.ts): reads
    `config.json`, checks it and either returns the parsed object as it is
    or ends the process with status 1. The file system is an input: the
    outcome of reading the file and of `JSON.parse` on its text. */
module GatewayConfig {

  import opened JsValues

  /** The typed view the rest of the gateway uses (`BotConfig`). */
  datatype BotConfig = BotConfig(
    discordToken: string,
    botUserId: string,
    semsearchUrl: string,
    opencodeUrl: string,
    channels: seq<string>,
    allowedUsers: seq<string>)

  /** What reading `config.json` gave. */
  datatype ConfigFile =
    | NotFound                     // readFileSync threw with code ENOENT
    | Unreadable(message: string)  // readFileSync threw for another reason
    | Contents(parsed: ParseResult)

  /** Why loading stopped; each reason is one of the source's diagnostics. */
  datatype Reason =
    | FileNotFound
    | LoadFailed(message: string)

  /** What `loadConfig` ends with: the config, or the process exiting. */
  datatype Outcome = Loaded(config: JsonValue) | Exit(status: int, reason: Reason)

  const MissingFieldsMessage := "Missing required config fields: discordToken, botUserId, semsearchUrl, opencodeUrl"
  const NoChannelsMessage := "Config must include at least one channel in the channels array"
  const NoAllowedUsersMessage := "Config must include at least one user in the allowedUsers array"

  /** `!!config[key]`, for a config that is not `null`. */
  predicate FieldTruthy(config: JsonValue, key: string)
    requires !config.JNull?
  {
    TruthyField(Property(config, key).value)
  }

  /** `Array.isArray(config[key]) && config[key].length !== 0`. */
  predicate NonEmptyArrayField(config: JsonValue, key: string)
    requires !config.JNull?
  {
    var f := Property(config, key).value;
    f.Some? && f.value.JArray? && |f.value.items| > 0
  }

  /** None of the four required string fields is missing or falsy. */
  predicate HasRequiredFields(config: JsonValue)
    requires !config.JNull?
  {
    && FieldTruthy(config, "discordToken")
    && FieldTruthy(config, "botUserId")
    && FieldTruthy(config, "semsearchUrl")
    && FieldTruthy(config, "opencodeUrl")
  }

  /** Every check of `loadConfig` passes. */
  predicate Acceptable(config: JsonValue) {
    && !config.JNull?
    && HasRequiredFields(config)
    && NonEmptyArrayField(config, "channels")
    && NonEmptyArrayField(config, "allowedUsers")
  }

  /** The checks of `loadConfig`, in order, on a parsed config: the first
      that fails decides the message; a config passing all of them comes
      back unchanged. Reading a field of `null` throws a TypeError, which
      the surrounding `catch` turns into a load failure like the others;
      the wording of its message belongs to the JavaScript engine, so
      `typeErrorText` gives it. */
  function Validate(config: JsonValue, typeErrorText: TypeError -> string): (r: Result<JsonValue, string>)
    ensures r.Ok? <==> Acceptable(config)
    ensures config.JNull? ==> r == Err(typeErrorText(NullPropertyRead("discordToken")))
    ensures r.Ok? ==> r.value == config
    ensures !config.JNull? && !HasRequiredFields(config)
            ==> r == Err(MissingFieldsMessage)
    ensures !config.JNull? && HasRequiredFields(config)
            && !NonEmptyArrayField(config, "channels")
            ==> r == Err(NoChannelsMessage)
    ensures !config.JNull? && HasRequiredFields(config)
            && NonEmptyArrayField(config, "channels") && !NonEmptyArrayField(config, "allowedUsers")
            ==> r == Err(NoAllowedUsersMessage)
  {
    if config.JNull? then Err(typeErrorText(NullPropertyRead("discordToken")))
    else if !FieldTruthy(config, "discordToken") || !FieldTruthy(config, "botUserId")
         || !FieldTruthy(config, "semsearchUrl") || !FieldTruthy(config, "opencodeUrl") then
      Err(MissingFieldsMessage)
    else if !NonEmptyArrayField(config, "channels") then Err(NoChannelsMessage)
    else if !NonEmptyArrayField(config, "allowedUsers") then Err(NoAllowedUsersMessage)
    else Ok(config)
  }

  /** `loadConfig`: every failure, a missing file included, ends in exit
      status 1; the only way to get a config back is a file that parses to
      an acceptable config, which is returned unchanged. */
  function LoadConfig(file: ConfigFile, typeErrorText: TypeError -> string): (r: Outcome)
    ensures r.Loaded? <==> file.Contents? && file.parsed.Ok? && Acceptable(file.parsed.value)
    ensures r.Loaded? ==> r.config == file.parsed.value
    ensures r.Exit? ==> r.status == 1
    ensures r.Exit? && file.NotFound? ==> r.reason == FileNotFound
    ensures r.Exit? && !file.NotFound? ==> r.reason.LoadFailed?
    ensures file.Contents? && file.parsed.Ok? && !Acceptable(file.parsed.value)
            ==> r == Exit(1, LoadFailed(Validate(file.parsed.value, typeErrorText).error))
  {
    match file
    case NotFound => Exit(1, FileNotFound)
    case Unreadable(message) => Exit(1, LoadFailed(message))
    case Contents(Err(message)) => Exit(1, LoadFailed(message))
    case Contents(Ok(config)) =>
      match Validate(config, typeErrorText)
      case Ok(c) => Loaded(c)
      case Err(message) => Exit(1, LoadFailed(message))
  }
}

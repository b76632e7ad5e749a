/**
 * Connection options handed to the MQTT library by `connectMqtt`: the
 * adapter's defaults, overridden key by key by whatever the caller supplies
 * (the object spread `{ ...defaults, ...options }`).
 */
module ClientConfig {

  datatype Option<T> = None | Some(value: T)

  /**
   * The option keys this model tracks. A `None` field is a key the options
   * object does not contain.
   */
  datatype ClientOptions = ClientOptions(
    clientId: Option<string>,
    clean: Option<bool>,
    reconnectPeriod: Option<int>,
    username: Option<string>,
    password: Option<string>)

  /** An options object with no keys at all (the caller's `{}` default). */
  const NoOptions: ClientOptions := ClientOptions(None, None, None, None, None)

  const ClientIdPrefix: string := "web_client_"
  const DefaultClean: bool := true
  const DefaultReconnectPeriodMs: int := 3000

  /**
   * The adapter's own defaults; `randomSuffix` stands for the hexadecimal
   * digits drawn from the random number generator.
   */
  function Defaults(randomSuffix: string): ClientOptions
  {
    ClientOptions(Some(ClientIdPrefix + randomSuffix), Some(DefaultClean), Some(DefaultReconnectPeriodMs), None, None)
  }

  /** One key of an object spread: a key present on the right wins. */
  function Pick<T>(base: Option<T>, over: Option<T>): Option<T>
  {
    if over.Some? then over else base
  }

  /** `{ ...base, ...over }` restricted to the tracked keys. */
  function Spread(base: ClientOptions, over: ClientOptions): ClientOptions
  {
    ClientOptions(
      Pick(base.clientId, over.clientId),
      Pick(base.clean, over.clean),
      Pick(base.reconnectPeriod, over.reconnectPeriod),
      Pick(base.username, over.username),
      Pick(base.password, over.password))
  }

  /**
   * The options a new connection is opened with: every caller-supplied key
   * overrides its default, every missing key takes the default, and the
   * three defaulted keys are always set.
   */
  function EffectiveOptions(randomSuffix: string, options: ClientOptions): (eff: ClientOptions)
    ensures eff.clientId.Some? && eff.clean.Some? && eff.reconnectPeriod.Some?
    ensures eff.clientId == (if options.clientId.Some? then options.clientId else Some(ClientIdPrefix + randomSuffix))
    ensures eff.clean == (if options.clean.Some? then options.clean else Some(DefaultClean))
    ensures eff.reconnectPeriod == (if options.reconnectPeriod.Some? then options.reconnectPeriod else Some(DefaultReconnectPeriodMs))
    ensures eff.username == options.username && eff.password == options.password
  {
    Spread(Defaults(randomSuffix), options)
  }

  /** With no caller options the connection uses exactly the defaults. */
  lemma NoOptionsGiveDefaults(randomSuffix: string)
    ensures EffectiveOptions(randomSuffix, NoOptions) == Defaults(randomSuffix)
  {
  }
}

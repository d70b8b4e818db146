/**
 * Construction of the Keeper client from the process environment, and the
 * fetch of one record. The environment variables, the file system, the
 * library's decoding of a configuration text and the remote vault are all
 * parameters: the model sees only what they return.
 */
module KsmClient {
  import opened Wrappers
  import opened Errors
  import opened KeeperRecord

  /** Environment variable naming a configuration file; it takes precedence. */
  const ConfigFileEnvKey := "KEEPER_CONFIG_FILE"
  /** Environment variable holding the configuration text itself. */
  const ConfigEnvKey := "KSM_CONFIG"

  /** Configuration keys the library needs and does not check itself. */
  const AppKey := "appKey"
  const ClientIdKey := "clientId"
  const PrivateKeyKey := "privateKey"

  /** The library's in-memory key-value configuration storage. */
  datatype ClientOptions = ClientOptions(config: map<string, string>)

  /** `Config.Get(key)`: "" for a key that is not stored. */
  function ConfigGet(options: ClientOptions, key: string): string {
    if key in options.config then options.config[key] else ""
  }

  /** The vault's answer to a request for the records with one uid. */
  type Vault = string -> Result<seq<Record>, Error>

  /** What the process sees of its surroundings. */
  datatype Environment = Environment(
    /** `os.LookupEnv`: a variable is set exactly when it is a key, possibly with value "". */
    vars: map<string, string>,
    /** `os.ReadFile` succeeds exactly for the paths that are keys. */
    files: map<string, string>,
    /** The library's decoding of a configuration text into stored keys. */
    parseConfig: string -> map<string, string>,
    /** The remote vault a client built here talks to. */
    vault: Vault)

  /** A client of the vault: its validated options and the vault it reaches. */
  datatype KSMClient = KSMClient(options: ClientOptions, vault: Vault)

  /**
   * `getClientOptions`: the configuration file named by KEEPER_CONFIG_FILE
   * when that variable is set (failing when the file cannot be read), else the
   * text of KSM_CONFIG when that is set, else NoConfig.
   */
  function GetClientOptions(env: Environment): (r: Result<ClientOptions, Error>)
    ensures r.Err? ==> r.error == NoConfig || r.error.ConfigFileUnreadable?
    ensures r.Err? && r.error == NoConfig <==> ConfigFileEnvKey !in env.vars && ConfigEnvKey !in env.vars
  {
    if ConfigFileEnvKey in env.vars then
      var path := env.vars[ConfigFileEnvKey];
      if path in env.files then Ok(ClientOptions(env.parseConfig(env.files[path])))
      else Err(ConfigFileUnreadable(path))
    else if ConfigEnvKey in env.vars then
      Ok(ClientOptions(env.parseConfig(env.vars[ConfigEnvKey])))
    else
      Err(NoConfig)
  }

  /** When the file variable is set, the inline configuration is never consulted. */
  lemma ConfigFileTakesPrecedence(env: Environment, inline: string)
    requires ConfigFileEnvKey in env.vars
    ensures GetClientOptions(env) == GetClientOptions(env.(vars := env.vars[ConfigEnvKey := inline]))
    ensures GetClientOptions(env) == GetClientOptions(env.(vars := env.vars - {ConfigEnvKey}))
  {
  }

  /**
   * With the file variable set, the named file's text is decoded; a file that
   * cannot be read is ConfigFileUnreadable, whatever KSM_CONFIG holds.
   */
  lemma FileConfigUsed(env: Environment, inline: string)
    requires ConfigFileEnvKey in env.vars
    ensures var path := env.vars[ConfigFileEnvKey];
      && (path in env.files ==> GetClientOptions(env) == Ok(ClientOptions(env.parseConfig(env.files[path]))))
      && (path !in env.files ==> GetClientOptions(env) == Err(ConfigFileUnreadable(path)))
    ensures var path := env.vars[ConfigFileEnvKey];
      path !in env.files ==> GetClientOptions(env.(vars := env.vars[ConfigEnvKey := inline])) == Err(ConfigFileUnreadable(path))
  {
  }

  /** The inline configuration is used when the file variable is unset. */
  lemma InlineConfigUsed(env: Environment)
    requires ConfigFileEnvKey !in env.vars && ConfigEnvKey in env.vars
    ensures GetClientOptions(env) == Ok(ClientOptions(env.parseConfig(env.vars[ConfigEnvKey])))
  {
  }

  /** The keys a configuration must hold with non-empty values. */
  const RequiredKeys := {AppKey, ClientIdKey, PrivateKeyKey}

  /** `validateClientOptions`: None (Go's nil) or InvalidCredentials. */
  function ValidateClientOptions(options: ClientOptions): (r: Option<Error>)
    ensures r.None? <==> forall k :: k in RequiredKeys ==> ConfigGet(options, k) != ""
    ensures r.Some? ==> r.value == InvalidCredentials
  {
    if ConfigGet(options, AppKey) == "" || ConfigGet(options, ClientIdKey) == "" || ConfigGet(options, PrivateKeyKey) == "" then
      Some(InvalidCredentials)
    else
      None
  }

  /** A stored key with an empty value is as bad as a missing one. */
  lemma EmptyValueInvalid(options: ClientOptions, k: string)
    requires k in RequiredKeys && k in options.config && options.config[k] == ""
    ensures ValidateClientOptions(options) == Some(InvalidCredentials)
  {
  }

  /** `NewKeeperSecretClient`. */
  function NewKeeperSecretClient(env: Environment): (r: Result<KSMClient, Error>)
    ensures r.Ok? <==> GetClientOptions(env).Ok? && ValidateClientOptions(GetClientOptions(env).value).None?
    ensures GetClientOptions(env).Err? ==> r == Err(GetClientOptions(env).error)
    ensures GetClientOptions(env).Ok? && r.Err? ==> r.error == InvalidCredentials
    ensures r.Ok? ==> forall k :: k in RequiredKeys ==> ConfigGet(r.value.options, k) != ""
    ensures r.Ok? ==> r.value == KSMClient(GetClientOptions(env).value, env.vault)
  {
    var options :- GetClientOptions(env);
    match ValidateClientOptions(options)
    case Some(e) => Err(e)
    case None => Ok(KSMClient(options, env.vault))
  }

  /**
   * `GetSecret`: the first record the vault returns for `uid`. An error of the
   * vault passes through unchanged; an empty answer is NoRecords.
   */
  function GetSecret(k: KSMClient, uid: string): (r: Result<Record, Error>)
    ensures k.vault(uid).Err? ==> r == Err(k.vault(uid).error)
    ensures k.vault(uid).Ok? && |k.vault(uid).value| == 0 ==> r == Err(NoRecords(uid))
    ensures k.vault(uid).Ok? && |k.vault(uid).value| > 0 ==> r == Ok(k.vault(uid).value[0])
  {
    match k.vault(uid)
    case Err(e) => Err(e)
    case Ok(records) =>
      if |records| == 0 then Err(NoRecords(uid)) else Ok(records[0])
  }

  /**
   * A fetch succeeds exactly when the vault answers with at least one record,
   * and what it yields is one of the records the vault returned.
   */
  lemma GetSecretSucceedsIff(k: KSMClient, uid: string)
    ensures GetSecret(k, uid).Ok? <==> k.vault(uid).Ok? && |k.vault(uid).value| > 0
    ensures GetSecret(k, uid).Ok? ==> GetSecret(k, uid).value in k.vault(uid).value
    ensures GetSecret(k, uid).Err? && k.vault(uid).Ok? ==> GetSecret(k, uid).error == NoRecords(uid)
  {
  }
}

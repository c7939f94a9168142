/** The application configuration (`pkg/config/config.go`): the GitHub token, the
    Azure storage settings and the Sentry DSN, each looked up by key and checked in
    that order, and the organization set afterwards on the built object.

    The settings source (the `.env` file merged with the process environment) is a
    map from key to value; a missing key reads as the empty string. */
module Config {
  import opened Common

  const AzureStorageAccountNameKey := "AZURE_STORAGE_ACCOUNT_NAME"
  const AzureStorageApiKeyKey := "AZURE_STORAGE_API_KEY"
  const AzureStorageAccountUrlKey := "AZURE_STORAGE_ACCOUNT_URL"
  const AzureStorageContainerNameKey := "AZURE_STORAGE_CONTAINER_NAME"
  const GitHubTokenKey := "CLI_GITHUB_TOKEN"
  const SentryDsnKey := "SENTRY_DSN"

  const AzureIncomplete := Message("azure Storage configuration is incomplete")
  const SentryIncomplete := Message("sentry config is incomplete")
  const TokenMissing := Message("github token is not set in the configuration file")

  datatype AzureStorageConfig = AzureStorageConfig(accountName: string, apiKey: string, accountUrl: string, containerName: string)

  const ZeroAzureStorageConfig := AzureStorageConfig("", "", "", "")

  datatype SentryConfig = SentryConfig(dsn: string)

  const ZeroSentryConfig := SentryConfig("")

  /** viper.GetString: the value under `key`, or "" when there is none. */
  function GetString(env: map<string, string>, key: string): (v: string)
    ensures key in env ==> v == env[key]
    ensures key !in env ==> v == ""
  {
    if key in env then env[key] else ""
  }

  /** NewAzureStorageConfig: the four Azure settings, all required. On failure the
      zero-valued config comes with the error. */
  function NewAzureStorageConfig(env: map<string, string>): (r: (AzureStorageConfig, Option<Error>))
    ensures r.1.None? ==> r.0.accountName != "" && r.0.apiKey != "" && r.0.accountUrl != "" && r.0.containerName != ""
    ensures r.1.Some? ==> r == (ZeroAzureStorageConfig, Some(AzureIncomplete))
  {
    var accountName := GetString(env, AzureStorageAccountNameKey);
    var apiKey := GetString(env, AzureStorageApiKeyKey);
    var accountUrl := GetString(env, AzureStorageAccountUrlKey);
    var containerName := GetString(env, AzureStorageContainerNameKey);
    if accountName == "" || apiKey == "" || accountUrl == "" || containerName == "" then
      (ZeroAzureStorageConfig, Some(AzureIncomplete))
    else
      (AzureStorageConfig(accountName, apiKey, accountUrl, containerName), None)
  }

  /** The four Azure settings are all present and non-empty. */
  predicate AzureComplete(env: map<string, string>) {
    forall key :: key in [AzureStorageAccountNameKey, AzureStorageApiKeyKey, AzureStorageAccountUrlKey, AzureStorageContainerNameKey] ==>
      key in env && env[key] != ""
  }

  /** NewSentryConfig: the DSN, required. */
  function NewSentryConfig(env: map<string, string>): (r: (SentryConfig, Option<Error>))
    ensures r.1.None? <==> r.0.dsn != ""
    ensures r.1.Some? ==> r == (ZeroSentryConfig, Some(SentryIncomplete))
  {
    var dsn := GetString(env, SentryDsnKey);
    if dsn == "" then (ZeroSentryConfig, Some(SentryIncomplete)) else (SentryConfig(dsn), None)
  }

  /** What reading the configuration file gave. */
  datatype ReadOutcome =
    | Loaded                // the file was read
    | NotFound              // there is no file: the environment alone is used
    | ReadFailed(e: Error)  // any other read error

  /** The validated settings a Config is built from. */
  datatype Settings = Settings(azure: AzureStorageConfig, sentry: SentryConfig, gitHubToken: string)

  /** The checks of New, in order: the file read, the token, Azure, Sentry. */
  function Validate(env: map<string, string>, read: ReadOutcome): (r: Result<Settings>)
    ensures read.ReadFailed? ==> r.Err? && r.error.Is(read.e)
    ensures r.Ok? ==> r.value.gitHubToken != "" && r.value.sentry.dsn != "" && r.value.azure.accountName != "" &&
                      r.value.azure.apiKey != "" && r.value.azure.accountUrl != "" && r.value.azure.containerName != ""
  {
    if read.ReadFailed? then Err(Wrap("error reading config file", read.e))
    else
      var token := GetString(env, GitHubTokenKey);
      if token == "" then Err(TokenMissing)
      else
        var azure := NewAzureStorageConfig(env);
        if azure.1.Some? then Err(azure.1.value)
        else
          var sentry := NewSentryConfig(env);
          if sentry.1.Some? then Err(sentry.1.value)
          else Ok(Settings(azure.0, sentry.0, token))
  }

  class Config {
    var azureStorageConfig: AzureStorageConfig
    var sentryConfig: SentryConfig
    var gitHubToken: string
    var organization: string

    /** The `&Config{...}` literal of New: no organization yet. */
    constructor (s: Settings)
      ensures azureStorageConfig == s.azure && sentryConfig == s.sentry && gitHubToken == s.gitHubToken
      ensures organization == ""
    {
      azureStorageConfig := s.azure;
      sentryConfig := s.sentry;
      gitHubToken := s.gitHubToken;
      organization := "";
    }

    /** Sets the organization, and nothing else, and returns the same object. */
    method WithOrganization(org: string) returns (c: Config)
      modifies this
      ensures c == this && organization == org
      ensures azureStorageConfig == old(azureStorageConfig) && sentryConfig == old(sentryConfig)
      ensures gitHubToken == old(gitHubToken)
    {
      organization := org;
      c := this;
    }

    /** The stored Sentry settings. */
    function GetSentryConfig(): (s: SentryConfig)
      reads this
      ensures s == sentryConfig
    {
      sentryConfig
    }
  }

  /** New: a fresh Config holding the validated settings, or the first failing
      check's error. */
  method New(env: map<string, string>, read: ReadOutcome) returns (r: Result<Config>)
    ensures r.Ok? <==> Validate(env, read).Ok?
    ensures r.Err? ==> r.error == Validate(env, read).error
    ensures r.Ok? ==> fresh(r.value) && r.value.organization == "" &&
                      r.value.azureStorageConfig == Validate(env, read).value.azure &&
                      r.value.sentryConfig == Validate(env, read).value.sentry &&
                      r.value.gitHubToken == Validate(env, read).value.gitHubToken
  {
    var v := Validate(env, read);
    if v.Err? {
      return Err(v.error);
    }
    var c := new Config(v.value);
    r := Ok(c);
  }

  /** The Azure check succeeds exactly when all four settings are non-empty, and
      then copies them field for field; otherwise it returns the zero config. */
  lemma AzureConfigIff(env: map<string, string>)
    ensures NewAzureStorageConfig(env).1.None? <==> AzureComplete(env)
    ensures NewAzureStorageConfig(env).1.None? ==>
              NewAzureStorageConfig(env).0 == AzureStorageConfig(env[AzureStorageAccountNameKey], env[AzureStorageApiKeyKey],
                                                                 env[AzureStorageAccountUrlKey], env[AzureStorageContainerNameKey])
    ensures NewAzureStorageConfig(env).1.Some? ==>
              NewAzureStorageConfig(env) == (ZeroAzureStorageConfig, Some(AzureIncomplete))
  {
    var keys := [AzureStorageAccountNameKey, AzureStorageApiKeyKey, AzureStorageAccountUrlKey, AzureStorageContainerNameKey];
    if !AzureComplete(env) {
      var key :| key in keys && !(key in env && env[key] != "");
      assert key == keys[0] || key == keys[1] || key == keys[2] || key == keys[3];
    }
  }

  /** The Sentry check succeeds exactly when the DSN is non-empty. */
  lemma SentryConfigIff(env: map<string, string>)
    ensures NewSentryConfig(env).1.None? <==> SentryDsnKey in env && env[SentryDsnKey] != ""
    ensures NewSentryConfig(env).1.None? ==> NewSentryConfig(env).0.dsn == env[SentryDsnKey]
    ensures NewSentryConfig(env).1.Some? ==> NewSentryConfig(env) == (ZeroSentryConfig, Some(SentryIncomplete))
  {
  }

  /** A missing token fails New with the token error, whatever the Azure and
      Sentry settings are. */
  lemma TokenCheckedFirst(env: map<string, string>, read: ReadOutcome)
    requires !read.ReadFailed?
    requires GitHubTokenKey !in env || env[GitHubTokenKey] == ""
    ensures Validate(env, read) == Err(TokenMissing)
  {
  }

  /** With a token, incomplete Azure settings fail New with the Azure error before
      Sentry is looked at. */
  lemma AzureCheckedBeforeSentry(env: map<string, string>, read: ReadOutcome)
    requires !read.ReadFailed? && GitHubTokenKey in env && env[GitHubTokenKey] != ""
    requires !AzureComplete(env)
    ensures Validate(env, read) == Err(AzureIncomplete)
  {
    AzureConfigIff(env);
  }

  /** New succeeds exactly when the file read did not fail and the token, the four
      Azure settings and the DSN are all non-empty; the result then holds them. */
  lemma ValidateIff(env: map<string, string>, read: ReadOutcome)
    ensures Validate(env, read).Ok? <==>
              !read.ReadFailed? && GitHubTokenKey in env && env[GitHubTokenKey] != "" &&
              AzureComplete(env) && SentryDsnKey in env && env[SentryDsnKey] != ""
    ensures Validate(env, read).Ok? ==>
              Validate(env, read).value.gitHubToken == env[GitHubTokenKey] &&
              Validate(env, read).value.azure == AzureStorageConfig(env[AzureStorageAccountNameKey], env[AzureStorageApiKeyKey],
                                                                    env[AzureStorageAccountUrlKey], env[AzureStorageContainerNameKey]) &&
              Validate(env, read).value.sentry.dsn == env[SentryDsnKey]
  {
    AzureConfigIff(env);
  }
}

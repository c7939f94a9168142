/** The storage-backend settings (`pkg/config/storage.go`): the Azure and the
    object-storage validators and the dispatch on the backend name, which fills in
    the chosen backend's settings and leaves the other one zero-valued.

    The settings source is a map from key to value, as in `Config`. The names of
    the object-storage keys are not part of this model's source, so they are a
    parameter. */
module StorageConfig {
  import opened Common
  import opened Config

  const StorageBackendAzure := "azure"
  const StorageBackendObject := "object"

  const ObjectIncomplete := Message("object storage configuration is incomplete")

  datatype ObjectStorageConfig = ObjectStorageConfig(endpoint: string, accessKey: string, secretKey: string, bucketName: string, useSSL: bool)

  const ZeroObjectStorageConfig := ObjectStorageConfig("", "", "", "", false)

  /** The keys the object-storage settings are read from. */
  datatype ObjectStorageKeys = ObjectStorageKeys(endpoint: string, accessKey: string, secretKey: string, bucketName: string, useSSL: string)

  /** viper.GetBool on a string setting: the spellings strconv.ParseBool reads as
      true; anything else, and a missing key, is false. */
  function GetBool(env: map<string, string>, key: string): (b: bool)
    ensures b ==> key in env
  {
    GetString(env, key) in {"1", "t", "T", "TRUE", "true", "True"}
  }

  /** Endpoint, access key, secret key and bucket are all non-empty. */
  predicate ObjectComplete(env: map<string, string>, keys: ObjectStorageKeys) {
    GetString(env, keys.endpoint) != "" && GetString(env, keys.accessKey) != "" &&
    GetString(env, keys.secretKey) != "" && GetString(env, keys.bucketName) != ""
  }

  /** newObjectStorageConfig: four settings required, UseSSL optional. */
  function NewObjectStorageConfig(env: map<string, string>, keys: ObjectStorageKeys): (r: (ObjectStorageConfig, Option<Error>))
    ensures r.1.None? ==> r.0.endpoint != "" && r.0.accessKey != "" && r.0.secretKey != "" && r.0.bucketName != ""
    ensures r.1.Some? ==> r == (ZeroObjectStorageConfig, Some(ObjectIncomplete))
  {
    var endpoint := GetString(env, keys.endpoint);
    var accessKey := GetString(env, keys.accessKey);
    var secretKey := GetString(env, keys.secretKey);
    var bucketName := GetString(env, keys.bucketName);
    var useSSL := GetBool(env, keys.useSSL);
    if endpoint == "" || accessKey == "" || secretKey == "" || bucketName == "" then
      (ZeroObjectStorageConfig, Some(ObjectIncomplete))
    else
      (ObjectStorageConfig(endpoint, accessKey, secretKey, bucketName, useSSL), None)
  }

  const UnsupportedPrefix := "unsupported storage backend: "
  const UnsupportedSuffix := " (supported: " + StorageBackendAzure + ", " + StorageBackendObject + ")"

  /** The error for a backend name other than the two supported ones. */
  function Unsupported(backend: string): (e: Error)
  {
    Message(UnsupportedPrefix + backend + UnsupportedSuffix)
  }

  /** createStorageConfigs: the settings of the named backend (the other one zero),
      or an error saying which validation failed or that the name is unknown. */
  function CreateStorageConfigs(backend: string, env: map<string, string>, keys: ObjectStorageKeys)
    : (r: (AzureStorageConfig, ObjectStorageConfig, Option<Error>))
    ensures r.2.None? ==> backend == StorageBackendAzure || backend == StorageBackendObject
    ensures backend != StorageBackendAzure ==> r.0 == ZeroAzureStorageConfig
    ensures backend != StorageBackendObject ==> r.1 == ZeroObjectStorageConfig
  {
    if backend == StorageBackendAzure then
      var azure := NewAzureStorageConfig(env);
      match azure.1
      case Some(e) => (azure.0, ZeroObjectStorageConfig, Some(Wrap("failed to create Azure storage config", e)))
      case None => (azure.0, ZeroObjectStorageConfig, None)
    else if backend == StorageBackendObject then
      var objectStorage := NewObjectStorageConfig(env, keys);
      match objectStorage.1
      case Some(e) => (ZeroAzureStorageConfig, objectStorage.0, Some(Wrap("failed to create object storage config", e)))
      case None => (ZeroAzureStorageConfig, objectStorage.0, None)
    else
      (ZeroAzureStorageConfig, ZeroObjectStorageConfig, Some(Unsupported(backend)))
  }

  /** The object-storage check succeeds exactly when the four required settings
      are non-empty, copies them, and otherwise returns the zero config. */
  lemma ObjectConfigIff(env: map<string, string>, keys: ObjectStorageKeys)
    ensures NewObjectStorageConfig(env, keys).1.None? <==> ObjectComplete(env, keys)
    ensures NewObjectStorageConfig(env, keys).1.None? ==>
              var c := NewObjectStorageConfig(env, keys).0;
              c.endpoint == env[keys.endpoint] && c.accessKey == env[keys.accessKey] &&
              c.secretKey == env[keys.secretKey] && c.bucketName == env[keys.bucketName]
    ensures NewObjectStorageConfig(env, keys).1.Some? ==>
              NewObjectStorageConfig(env, keys) == (ZeroObjectStorageConfig, Some(ObjectIncomplete))
  {
  }

  /** The UseSSL setting never decides validity: changing it (to anything, or
      removing it) keeps the check's outcome, and changes only the flag. */
  lemma UseSslIrrelevant(env: map<string, string>, keys: ObjectStorageKeys, v: string)
    requires keys.useSSL !in {keys.endpoint, keys.accessKey, keys.secretKey, keys.bucketName}
    ensures NewObjectStorageConfig(env[keys.useSSL := v], keys).1 == NewObjectStorageConfig(env, keys).1
    ensures NewObjectStorageConfig(env[keys.useSSL := v], keys).0.(useSSL := false) ==
            NewObjectStorageConfig(env, keys).0.(useSSL := false)
    ensures NewObjectStorageConfig(env - {keys.useSSL}, keys).1 == NewObjectStorageConfig(env, keys).1
  {
  }

  /** Backend "azure" fills in only the Azure settings: the object settings stay zero. */
  lemma AzureBackendOnly(env: map<string, string>, keys: ObjectStorageKeys)
    ensures var r := CreateStorageConfigs(StorageBackendAzure, env, keys);
            r.1 == ZeroObjectStorageConfig &&
            (r.2.None? <==> AzureComplete(env)) &&
            (r.2.None? ==> r.0 == NewAzureStorageConfig(env).0) &&
            (r.2.Some? ==> r.0 == ZeroAzureStorageConfig && r.2.value.Is(AzureIncomplete))
  {
    AzureConfigIff(env);
  }

  /** Backend "object" fills in only the object settings: the Azure settings stay zero. */
  lemma ObjectBackendOnly(env: map<string, string>, keys: ObjectStorageKeys)
    ensures var r := CreateStorageConfigs(StorageBackendObject, env, keys);
            r.0 == ZeroAzureStorageConfig &&
            (r.2.None? <==> ObjectComplete(env, keys)) &&
            (r.2.None? ==> r.1 == NewObjectStorageConfig(env, keys).0) &&
            (r.2.Some? ==> r.1 == ZeroObjectStorageConfig && r.2.value.Is(ObjectIncomplete))
  {
  }

  /** Any other backend name fails, naming itself and both supported backends, and
      fills in neither config. */
  lemma UnknownBackendFails(backend: string, env: map<string, string>, keys: ObjectStorageKeys)
    requires backend != StorageBackendAzure && backend != StorageBackendObject
    ensures CreateStorageConfigs(backend, env, keys) == (ZeroAzureStorageConfig, ZeroObjectStorageConfig, Some(Unsupported(backend)))
    ensures OccursAt(Unsupported(backend).text, backend, |UnsupportedPrefix|)
    ensures EndsWith(Unsupported(backend).text, UnsupportedSuffix)
    ensures UnsupportedSuffix == " (supported: azure, object)"
  {
    ConcatParts(UnsupportedPrefix, backend, UnsupportedSuffix);
  }
}

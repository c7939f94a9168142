/** The blob-repository factory (`context/storageFactory.go`): picks the storage
    backend by name and builds its repository from that backend's client. The
    construct-once client getters are oracles: their answer (a client, or an
    error) is given. */
module StorageFactory {
  import opened Common
  import opened Config
  import opened StorageConfig

  /** A constructed SDK client, opaque to this model. */
  datatype Client = Client(handle: nat)

  /** The repository the factory returns: which backend it uploads to, with the
      client and the settings it uses. */
  datatype BlobRepository =
    | MinioRepository(objectStorage: ObjectStorageConfig, client: Client)
    | AzureRepository(azureStorage: AzureStorageConfig, client: Client)

  /** NewBlobRepository: "object" gives the MinIO repository, "azure" the Azure one,
      each wrapping its client's construction error; other names are refused. */
  function NewBlobRepository(backend: string, objectStorage: ObjectStorageConfig, azureStorage: AzureStorageConfig,
                             minioClient: Result<Client>, azureClient: Result<Client>): (r: Result<BlobRepository>)
    ensures r.Ok? ==> (r.value.MinioRepository? && backend == StorageBackendObject) ||
                      (r.value.AzureRepository? && backend == StorageBackendAzure)
  {
    if backend == StorageBackendObject then
      match minioClient
      case Err(e) => Err(Wrap("failed to get MinIO client", e))
      case Ok(c) => Ok(MinioRepository(objectStorage, c))
    else if backend == StorageBackendAzure then
      match azureClient
      case Err(e) => Err(Wrap("failed to get Azure client", e))
      case Ok(c) => Ok(AzureRepository(azureStorage, c))
    else
      Err(Unsupported(backend))
  }

  /** The repository returned is always the named backend's, built from that
      backend's client; the other backend's client is never consulted. */
  lemma DispatchesOnBackend(backend: string, objectStorage: ObjectStorageConfig, azureStorage: AzureStorageConfig,
                            minioClient: Result<Client>, azureClient: Result<Client>)
    ensures var r := NewBlobRepository(backend, objectStorage, azureStorage, minioClient, azureClient);
            r.Ok? <==> (backend == StorageBackendObject && minioClient.Ok?) || (backend == StorageBackendAzure && azureClient.Ok?)
    ensures var r := NewBlobRepository(backend, objectStorage, azureStorage, minioClient, azureClient);
            r.Ok? && r.value.MinioRepository? ==> backend == StorageBackendObject && r.value == MinioRepository(objectStorage, minioClient.value)
    ensures var r := NewBlobRepository(backend, objectStorage, azureStorage, minioClient, azureClient);
            r.Ok? && r.value.AzureRepository? ==> backend == StorageBackendAzure && r.value == AzureRepository(azureStorage, azureClient.value)
    ensures forall other :: (backend == StorageBackendObject ==>
              NewBlobRepository(backend, objectStorage, azureStorage, minioClient, other) ==
              NewBlobRepository(backend, objectStorage, azureStorage, minioClient, azureClient))
    ensures forall other :: (backend == StorageBackendAzure ==>
              NewBlobRepository(backend, objectStorage, azureStorage, other, azureClient) ==
              NewBlobRepository(backend, objectStorage, azureStorage, minioClient, azureClient))
  {
  }

  /** A client that cannot be built gives no repository and an error wrapping its cause. */
  lemma ClientErrorWrapped(backend: string, objectStorage: ObjectStorageConfig, azureStorage: AzureStorageConfig,
                           minioClient: Result<Client>, azureClient: Result<Client>)
    requires (backend == StorageBackendObject && minioClient.Err?) || (backend == StorageBackendAzure && azureClient.Err?)
    ensures var r := NewBlobRepository(backend, objectStorage, azureStorage, minioClient, azureClient);
            r.Err? && r.error.Is(if backend == StorageBackendObject then minioClient.error else azureClient.error)
  {
  }

  /** Any other backend name is refused with the error that names it and both
      supported backends. */
  lemma UnknownBackendRefused(backend: string, objectStorage: ObjectStorageConfig, azureStorage: AzureStorageConfig,
                              minioClient: Result<Client>, azureClient: Result<Client>)
    requires backend != StorageBackendAzure && backend != StorageBackendObject
    ensures NewBlobRepository(backend, objectStorage, azureStorage, minioClient, azureClient) == Err(Unsupported(backend))
    ensures OccursAt(Unsupported(backend).text, backend, |UnsupportedPrefix|)
    ensures EndsWith(Unsupported(backend).text, " (supported: azure, object)")
  {
    UnknownBackendFails(backend, map[], ObjectStorageKeys("", "", "", "", ""));
  }
}

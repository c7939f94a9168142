/** The MinIO blob repository (`pkg/storage/minio/blob.go`): measures the input
    stream by seeking to its end and back to its start, uploads it with PutObject
    under the configured bucket, and answers the object's URL,
    `http[s]://<endpoint>/<bucket>/<blob name>`. */
module MinioBlob {
  import opened Common
  import opened StorageConfig

  const ContentType := "application/octet-stream"

  /** An input stream: its bytes, whether it can seek, and the read position. */
  class Stream {
    const data: seq<byte>
    const seekable: bool
    var pos: int

    constructor (data: seq<byte>, seekable: bool)
      ensures this.data == data && this.seekable == seekable && pos == 0
    {
      this.data := data;
      this.seekable := seekable;
      pos := 0;
    }

    /** Seek(0, io.SeekEnd) (`toEnd`) or Seek(0, io.SeekStart): the new offset, or the
        seek's error with the position unchanged. */
    method Seek(toEnd: bool, fault: Option<Error>) returns (offset: int, err: Option<Error>)
      requires seekable
      modifies this
      ensures err == fault
      ensures fault.Some? ==> pos == old(pos) && offset == 0
      ensures fault.None? ==> offset == pos == (if toEnd then |data| else 0)
    {
      err := fault;
      if fault.Some? {
        offset := 0;
        return;
      }
      pos := if toEnd then |data| else 0;
      offset := pos;
    }
  }

  /** The answers of the foreign steps of one upload. */
  datatype UploadAnswers = UploadAnswers(
    seekEnd: Option<Error>,   // Seek(0, io.SeekEnd)
    seekStart: Option<Error>, // Seek(0, io.SeekStart)
    put: Option<Error>,       // PutObject
    join: Option<Error>)      // url.JoinPath

  /** The arguments of one PutObject call. */
  datatype PutRequest = PutRequest(bucket: string, name: string, body: seq<byte>, size: int, contentType: string)

  const NotSeekable := Message("cannot cast reader to seeker")

  /** getSize's answer for a stream, and the position it leaves the stream at. */
  function Size(data: seq<byte>, seekable: bool, pos: int, a: UploadAnswers): (r: (Result<int>, int))
    ensures r.0.Ok? <==> seekable && a.seekEnd.None? && a.seekStart.None?
    ensures r.0.Ok? ==> r == (Ok(|data|), 0)
  {
    if !seekable then (Err(NotSeekable), pos)
    else if a.seekEnd.Some? then (Err(a.seekEnd.value), pos)
    else if a.seekStart.Some? then (Err(a.seekStart.value), |data|)
    else (Ok(|data|), 0)
  }

  /** getSize: the end offset, with the stream rewound to its start. */
  method GetSize(stream: Stream, a: UploadAnswers) returns (size: int, err: Option<Error>)
    modifies stream
    ensures var expected := Size(stream.data, stream.seekable, old(stream.pos), a);
            stream.pos == expected.1 &&
            (expected.0.Ok? ==> err.None? && size == expected.0.value) &&
            (expected.0.Err? ==> err == Some(expected.0.error) && size == 0)
  {
    if !stream.seekable {
      return 0, Some(NotSeekable);
    }
    size, err := stream.Seek(true, a.seekEnd);
    if err.Some? {
      return 0, err;
    }
    var _, err2 := stream.Seek(false, a.seekStart);
    if err2.Some? {
      return 0, err2;
    }
  }

  /** getUrl: the scheme follows UseSSL; endpoint, bucket and name are joined by "/". */
  function GetUrl(cfg: ObjectStorageConfig, blobName: string, join: Option<Error>): (r: Result<string>)
    ensures r.Ok? <==> join.None?
    ensures r.Err? ==> r.error.Is(join.value)
  {
    var scheme := if cfg.useSSL then "https" else "http";
    var baseUrl := scheme + "://" + cfg.endpoint;
    match join
    case Some(e) => Err(Wrap("failed to construct MinIO URL", e))
    case None => Ok(baseUrl + "/" + cfg.bucketName + "/" + blobName)
  }

  /** Upload's answer and the PutObject calls it makes. */
  function UploadSpec(cfg: ObjectStorageConfig, blobName: string, data: seq<byte>, seekable: bool, pos: int, a: UploadAnswers)
    : (r: (Result<string>, seq<PutRequest>))
    ensures |r.1| <= 1
    ensures r.0.Ok? ==> r.1 == [PutRequest(cfg.bucketName, blobName, data, |data|, ContentType)]
  {
    var size := Size(data, seekable, pos, a).0;
    match size
    case Err(e) => (Err(Wrap("failed to get size of input stream", e)), [])
    case Ok(n) =>
      var put := [PutRequest(cfg.bucketName, blobName, data, n, ContentType)];
      match a.put
      case Some(e) => (Err(Wrap("failed to upload object to object storage", e)), put)
      case None => (GetUrl(cfg, blobName, a.join), put)
  }

  /** defaultBlobRepository.Upload: measure, upload what remains to be read, answer the URL.
      A failed probe leaves the stream where the probe did; PutObject reads it to its end. */
  method Upload(cfg: ObjectStorageConfig, blobName: string, stream: Stream, a: UploadAnswers)
    returns (result: Result<string>, puts: seq<PutRequest>)
    modifies stream
    ensures (result, puts) == UploadSpec(cfg, blobName, stream.data, stream.seekable, old(stream.pos), a)
    ensures puts == [] ==> stream.pos == Size(stream.data, stream.seekable, old(stream.pos), a).1
    ensures puts != [] ==> stream.pos == |stream.data|
  {
    var size, err := GetSize(stream, a);
    puts := [];
    if err.Some? {
      result := Err(Wrap("failed to get size of input stream", err.value));
      return;
    }
    puts := [PutRequest(cfg.bucketName, blobName, stream.data[stream.pos..], size, ContentType)];
    assert stream.data[stream.pos..] == stream.data;
    stream.pos := |stream.data|;
    if a.put.Some? {
      result := Err(Wrap("failed to upload object to object storage", a.put.value));
      return;
    }
    result := GetUrl(cfg, blobName, a.join);
  }

  /** The scheme is "https" exactly when UseSSL is set, and the URL is the scheme,
      then the endpoint, bucket and blob name in that order. */
  lemma UrlShape(cfg: ObjectStorageConfig, blobName: string)
    ensures GetUrl(cfg, blobName, None).Ok?
    ensures var u := GetUrl(cfg, blobName, None).value;
            var scheme := if cfg.useSSL then "https" else "http";
            |u| == |scheme| + 3 + |cfg.endpoint| + 1 + |cfg.bucketName| + 1 + |blobName| &&
            u[..|scheme| + 3] == scheme + "://" &&
            OccursAt(u, cfg.endpoint, |scheme| + 3) &&
            OccursAt(u, "/" + cfg.bucketName + "/", |scheme| + 3 + |cfg.endpoint|) &&
            EndsWith(u, blobName)
    ensures (GetUrl(cfg, blobName, None).value[..5] == "https") <==> cfg.useSSL
  {
    var scheme := if cfg.useSSL then "https" else "http";
    var u := GetUrl(cfg, blobName, None).value;
    var head := scheme + "://";
    assert u == head + cfg.endpoint + ("/" + cfg.bucketName + "/") + blobName;
    ConcatParts(head, cfg.endpoint, "/" + cfg.bucketName + "/" + blobName);
    ConcatParts(head + cfg.endpoint, "/" + cfg.bucketName + "/", blobName);
    assert u[..5] == head[..5];
    if !cfg.useSSL {
      assert u[4] == ':';
    }
  }

  /** A stream that cannot seek fails the upload before PutObject is called. */
  lemma NotSeekableNeverPuts(cfg: ObjectStorageConfig, blobName: string, data: seq<byte>, pos: int, a: UploadAnswers)
    ensures UploadSpec(cfg, blobName, data, false, pos, a).0 == Err(Wrap("failed to get size of input stream", NotSeekable))
    ensures UploadSpec(cfg, blobName, data, false, pos, a).1 == []
  {
  }

  /** A successful size probe gives the stream's length and rewinds it; a failing
      seek's error is the probe's error. */
  lemma SizeProbe(data: seq<byte>, pos: int, a: UploadAnswers)
    ensures Size(data, true, pos, a).0.Ok? <==> a.seekEnd.None? && a.seekStart.None?
    ensures Size(data, true, pos, a).0.Ok? ==> Size(data, true, pos, a) == (Ok(|data|), 0)
    ensures a.seekEnd.Some? ==> Size(data, true, pos, a).0 == Err(a.seekEnd.value)
    ensures a.seekEnd.None? && a.seekStart.Some? ==> Size(data, true, pos, a).0 == Err(a.seekStart.value)
  {
  }

  /** A PutObject error is wrapped and gives no URL; on success the upload sent the
      whole stream with its size and answers the object's URL. */
  lemma UploadOutcome(cfg: ObjectStorageConfig, blobName: string, data: seq<byte>, pos: int, a: UploadAnswers)
    requires a.seekEnd.None? && a.seekStart.None?
    ensures UploadSpec(cfg, blobName, data, true, pos, a).1 == [PutRequest(cfg.bucketName, blobName, data, |data|, ContentType)]
    ensures a.put.Some? ==> UploadSpec(cfg, blobName, data, true, pos, a).0.Err? &&
                            UploadSpec(cfg, blobName, data, true, pos, a).0.error.Is(a.put.value)
    ensures a.put.None? ==> UploadSpec(cfg, blobName, data, true, pos, a).0 == GetUrl(cfg, blobName, a.join)
  {
  }
}

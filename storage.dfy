/**
 * The S3 storage gateway (backend/jamflow/services/storage/s3.py) over an
 * in-memory stand-in for the S3 endpoint. The endpoint keeps its buckets as
 * lists of objects, records every call made to it, and fails an operation with
 * the provider error injected for it, so that the gateway's error wrapping can
 * be stated.
 */
module Storage {
  import opened Wrappers
  import opened Streams

  /** The `Error` part of a provider response: `Code` and `Message`, each possibly missing. */
  datatype ErrorInfo = ErrorInfo(code: Option<string>, message: Option<string>)

  /** botocore's `ClientError` (with or without an `Error` part in its response) and `BotoCoreError`. */
  datatype ProviderError = ClientError(error: Option<ErrorInfo>) | CoreError

  datatype Op = Connect | HeadBucket | CreateBucket | PutObject | GetObject | ListObjects | DeleteObjects | Presign

  datatype StoredObject = StoredObject(key: string, body: seq<bv8>, contentType: string)

  /** One request the gateway sent to the endpoint, with its arguments. */
  datatype Call =
    | HeadBucketCall(bucket: string)
    | CreateBucketCall(bucket: string)
    | PutObjectCall(bucket: string, key: string, body: seq<bv8>, contentType: string)
    | GetObjectCall(bucket: string, key: string)
    | ListObjectsCall(bucket: string)
    | DeleteObjectsCall(bucket: string, keys: seq<string>)
    | PresignCall(bucket: string, key: string, expiresIn: int)
    | CloseCall

  /** S3 lists at most this many keys per `list_objects_v2` response. */
  const MAX_KEYS := 1000

  /** A `HEAD` on a missing bucket has no body, so the provider reports the bare status as the code. */
  const BUCKET_NOT_FOUND := ClientError(Some(ErrorInfo(Some("404"), Some("Not Found"))))
  const NO_SUCH_BUCKET := ClientError(Some(ErrorInfo(Some("NoSuchBucket"), Some("The specified bucket does not exist"))))
  const NO_SUCH_KEY := ClientError(Some(ErrorInfo(Some("NoSuchKey"), Some("The specified key does not exist."))))
  const BUCKET_EXISTS := ClientError(Some(ErrorInfo(Some("BucketAlreadyOwnedByYou"), Some("Your previous request to create the named bucket succeeded and you already own it."))))

  function Keys(objs: seq<StoredObject>): (ks: seq<string>)
    ensures |ks| == |objs| && forall i :: 0 <= i < |objs| ==> ks[i] == objs[i].key
  {
    seq(|objs|, i requires 0 <= i < |objs| => objs[i].key)
  }

  /** The first object stored under `key`, if any. */
  function Lookup(objs: seq<StoredObject>, key: string): (r: Option<StoredObject>)
    ensures r.Some? ==> r.value.key == key && r.value in objs
    ensures r.None? ==> forall i :: 0 <= i < |objs| ==> objs[i].key != key
  {
    if objs == [] then None
    else if objs[0].key == key then Some(objs[0])
    else Lookup(objs[1..], key)
  }

  /** The bucket after storing `obj`: it replaces an object with its key, or is appended. */
  function Put(objs: seq<StoredObject>, obj: StoredObject): (r: seq<StoredObject>)
    ensures Lookup(r, obj.key) == Some(obj)
    ensures forall k :: k != obj.key ==> Lookup(r, k) == Lookup(objs, k)
  {
    if objs == [] then [obj]
    else if objs[0].key == obj.key then [obj] + objs[1..]
    else [objs[0]] + Put(objs[1..], obj)
  }

  /** The bucket after deleting every object whose key is listed. */
  function Without(objs: seq<StoredObject>, keys: seq<string>): (r: seq<StoredObject>)
    ensures forall k :: Lookup(r, k) == if k in keys then None else Lookup(objs, k)
    ensures |r| <= |objs|
    ensures objs != [] && objs[0].key in keys ==> |r| < |objs|
  {
    if objs == [] then []
    else if objs[0].key in keys then Without(objs[1..], keys)
    else [objs[0]] + Without(objs[1..], keys)
  }

  /** The bucket exists and holds `obj` under its key. */
  predicate Holds(buckets: map<string, seq<StoredObject>>, bucket: string, obj: StoredObject)
  {
    bucket in buckets && Lookup(buckets[bucket], obj.key) == Some(obj)
  }

  /**
   * No object was put between `before` and `after`: every bucket keeps its
   * objects, and a bucket that appeared meanwhile is empty.
   */
  predicate NothingStored(before: map<string, seq<StoredObject>>, after: map<string, seq<StoredObject>>)
  {
    (forall b :: b in before ==> b in after && after[b] == before[b])
    && (forall b :: b in after && b !in before ==> after[b] == [])
  }

  /** When nothing was stored, every object held afterwards was held before. */
  lemma NothingStoredHolds(before: map<string, seq<StoredObject>>, after: map<string, seq<StoredObject>>,
                           bucket: string, obj: StoredObject)
    requires NothingStored(before, after)
    ensures Holds(after, bucket, obj) <==> Holds(before, bucket, obj)
  {
    if bucket in after && bucket !in before {
      assert after[bucket] == [];
    }
  }

  /** `store_file`'s keyword-only parameter for the object's MIME type. */
  const CONTENT_TYPE_PARAMETER := "content_type"

  /**
   * A service's `async with <storage> as storage: await storage.store_file(path=..., file=...)`
   * as written: the call leaves out the keyword-only `content_type`, so it
   * raises `TypeError` inside the opened session, before any `put_object`,
   * and leaving the `async with` closes the client. `failure` is the
   * session's own failure when it could not be opened; `None` means the
   * store call raised.
   */
  method StoreOmittingContentType(backend: Backend, bucket: string) returns (failure: Option<StorageFailure>)
    modifies backend
    ensures NothingStored(old(backend.buckets), backend.buckets)
    ensures |old(backend.calls)| <= |backend.calls|
    ensures forall i :: |old(backend.calls)| <= i < |backend.calls| ==> !backend.calls[i].PutObjectCall?
  {
    var storage := new S3StorageService(bucket);
    failure := storage.Enter(backend);
    if failure.Some? {
      return;
    }
    storage.Exit();
  }

  /** The keys one listing returns: the first `MAX_KEYS` of the bucket. */
  function FirstPage(objs: seq<StoredObject>): (ks: seq<string>)
    ensures |ks| <= MAX_KEYS && |ks| <= |objs|
    ensures objs != [] ==> ks != [] && ks[0] == objs[0].key
    ensures forall i :: 0 <= i < |ks| ==> ks[i] == objs[i].key
  {
    Keys(objs)[..MinNat(MAX_KEYS, |objs|)]
  }

  /** The S3 endpoint the gateway's client talks to. */
  class Backend {
    var buckets: map<string, seq<StoredObject>>
    var calls: seq<Call>
    const faults: map<Op, ProviderError>
    const endpointUrl: string
    const accessKey: string
    /** Presigned-URL signing, whose internals are not modelled. */
    const sign: (string, string, int) -> string

    constructor (buckets0: map<string, seq<StoredObject>>, faults0: map<Op, ProviderError>,
                 endpointUrl0: string, accessKey0: string, sign0: (string, string, int) -> string)
      ensures buckets == buckets0 && calls == [] && faults == faults0
      ensures endpointUrl == endpointUrl0 && accessKey == accessKey0 && sign == sign0
    {
      buckets := buckets0;
      calls := [];
      faults := faults0;
      endpointUrl := endpointUrl0;
      accessKey := accessKey0;
      sign := sign0;
    }

    function Fault(op: Op): Option<ProviderError>
    {
      if op in faults then Some(faults[op]) else None
    }

    function HeadResult(bucket: string): Option<ProviderError>
      reads this
    {
      if Fault(HeadBucket).Some? then Fault(HeadBucket)
      else if bucket !in buckets then Some(BUCKET_NOT_FOUND)
      else None
    }

    function CreateResult(bucket: string): Option<ProviderError>
      reads this
    {
      if Fault(CreateBucket).Some? then Fault(CreateBucket)
      else if bucket in buckets then Some(BUCKET_EXISTS)
      else None
    }

    function PutResult(bucket: string): Option<ProviderError>
      reads this
    {
      if Fault(PutObject).Some? then Fault(PutObject)
      else if bucket !in buckets then Some(NO_SUCH_BUCKET)
      else None
    }

    function GetResult(bucket: string, key: string): (r: Result<seq<bv8>, ProviderError>)
      reads this
      ensures r.Ok? ==> (bucket in buckets && Lookup(buckets[bucket], key).Some?
        && r.value == Lookup(buckets[bucket], key).value.body)
    {
      if Fault(GetObject).Some? then Err(Fault(GetObject).value)
      else if bucket !in buckets then Err(NO_SUCH_BUCKET)
      else match Lookup(buckets[bucket], key)
        case None => Err(NO_SUCH_KEY)
        case Some(obj) => Ok(obj.body)
    }

    /** A listing: `None` when the response has no `Contents` (an empty bucket), else the first page of keys. */
    function ListResult(bucket: string): (r: Result<Option<seq<string>>, ProviderError>)
      reads this
      ensures r.Ok? ==> bucket in buckets && (r.value.None? <==> buckets[bucket] == [])
      ensures r.Ok? && r.value.Some? ==> r.value.value == FirstPage(buckets[bucket])
    {
      if Fault(ListObjects).Some? then Err(Fault(ListObjects).value)
      else if bucket !in buckets then Err(NO_SUCH_BUCKET)
      else if buckets[bucket] == [] then Ok(None)
      else Ok(Some(FirstPage(buckets[bucket])))
    }

    function DeleteResult(bucket: string): Option<ProviderError>
      reads this
    {
      if Fault(DeleteObjects).Some? then Fault(DeleteObjects)
      else if bucket !in buckets then Some(NO_SUCH_BUCKET)
      else None
    }

    method HeadBucketRequest(bucket: string) returns (e: Option<ProviderError>)
      modifies this`calls
      ensures e == HeadResult(bucket)
      ensures calls == old(calls) + [HeadBucketCall(bucket)]
    {
      e := HeadResult(bucket);
      calls := calls + [HeadBucketCall(bucket)];
    }

    method CreateBucketRequest(bucket: string) returns (e: Option<ProviderError>)
      modifies this
      ensures e == old(CreateResult(bucket))
      ensures calls == old(calls) + [CreateBucketCall(bucket)]
      ensures buckets == if e.None? then old(buckets)[bucket := []] else old(buckets)
    {
      e := CreateResult(bucket);
      calls := calls + [CreateBucketCall(bucket)];
      if e.None? {
        buckets := buckets[bucket := []];
      }
    }

    method PutObjectRequest(bucket: string, key: string, body: seq<bv8>, contentType: string) returns (e: Option<ProviderError>)
      modifies this
      ensures e == old(PutResult(bucket))
      ensures calls == old(calls) + [PutObjectCall(bucket, key, body, contentType)]
      ensures buckets == if e.None? then old(buckets)[bucket := Put(old(buckets)[bucket], StoredObject(key, body, contentType))]
                         else old(buckets)
    {
      e := PutResult(bucket);
      calls := calls + [PutObjectCall(bucket, key, body, contentType)];
      if e.None? {
        buckets := buckets[bucket := Put(buckets[bucket], StoredObject(key, body, contentType))];
      }
    }

    /** `get_object`; on success the response body is a fresh stream over the object's bytes. */
    method GetObjectRequest(bucket: string, key: string) returns (r: Result<ByteStream, ProviderError>)
      modifies this`calls
      ensures calls == old(calls) + [GetObjectCall(bucket, key)]
      ensures r.Err? <==> GetResult(bucket, key).Err?
      ensures r.Err? ==> r.error == GetResult(bucket, key).error
      ensures r.Ok? ==> (fresh(r.value) && r.value.Valid() && r.value.pos == 0
        && r.value.data == GetResult(bucket, key).value)
    {
      calls := calls + [GetObjectCall(bucket, key)];
      match GetResult(bucket, key)
      case Err(e) => r := Err(e);
      case Ok(body) =>
        var stream := new ByteStream(body);
        r := Ok(stream);
    }

    method ListObjectsRequest(bucket: string) returns (r: Result<Option<seq<string>>, ProviderError>)
      modifies this`calls
      ensures r == ListResult(bucket)
      ensures calls == old(calls) + [ListObjectsCall(bucket)]
    {
      r := ListResult(bucket);
      calls := calls + [ListObjectsCall(bucket)];
    }

    method DeleteObjectsRequest(bucket: string, keys: seq<string>) returns (e: Option<ProviderError>)
      modifies this
      ensures e == old(DeleteResult(bucket))
      ensures calls == old(calls) + [DeleteObjectsCall(bucket, keys)]
      ensures buckets == if e.None? then old(buckets)[bucket := Without(old(buckets)[bucket], keys)] else old(buckets)
    {
      e := DeleteResult(bucket);
      calls := calls + [DeleteObjectsCall(bucket, keys)];
      if e.None? {
        buckets := buckets[bucket := Without(buckets[bucket], keys)];
      }
    }

    method PresignRequest(bucket: string, key: string, expiresIn: int) returns (r: Result<string, ProviderError>)
      modifies this`calls
      ensures r == if Fault(Presign).Some? then Err(Fault(Presign).value) else Ok(sign(bucket, key, expiresIn))
      ensures calls == old(calls) + [PresignCall(bucket, key, expiresIn)]
    {
      r := if Fault(Presign).Some? then Err(Fault(Presign).value) else Ok(sign(bucket, key, expiresIn));
      calls := calls + [PresignCall(bucket, key, expiresIn)];
    }

    method Close()
      modifies this`calls
      ensures calls == old(calls) + [CloseCall]
    {
      calls := calls + [CloseCall];
    }
  }

  /** A value in a `StorageError`'s context: a string, a number, or Python's `None`. */
  datatype ContextValue = Text(s: string) | Number(n: int) | NoneValue

  type Context = map<string, ContextValue>

  /** What a gateway operation raises: a `StorageError`, or a provider error that is not caught. */
  datatype StorageFailure = StorageError(message: string, context: Context) | Unwrapped(cause: ProviderError)

  function OptionalText(o: Option<string>): ContextValue
  {
    if o.Some? then Text(o.value) else NoneValue
  }

  /** `_get_error_context`: the provider's code and message when its response carries an `Error` part, else nothing. */
  function ErrorContext(e: ProviderError): (ctx: Context)
    ensures e.ClientError? && e.error.Some? ==> (ctx.Keys == {"s3_error_code", "s3_error_message"}
      && ctx["s3_error_code"] == OptionalText(e.error.value.code)
      && ctx["s3_error_message"] == OptionalText(e.error.value.message))
    ensures !(e.ClientError? && e.error.Some?) ==> ctx == map[]
  {
    match e
    case ClientError(Some(info)) =>
      map["s3_error_code" := OptionalText(info.code), "s3_error_message" := OptionalText(info.message)]
    case _ => map[]
  }

  /** An operation that catches every provider error: a `StorageError` whose context is the base merged with the error context. */
  function Wrapped(message: string, base: Context, e: ProviderError): (f: StorageFailure)
    ensures f.StorageError? && f.message == message
    ensures base.Keys <= f.context.Keys
    ensures forall k :: k in base && k !in ErrorContext(e) ==> f.context[k] == base[k]
  {
    StorageError(message, base + ErrorContext(e))
  }

  /** An operation that catches only `ClientError`: a `BotoCoreError` escapes unwrapped. */
  function ClientWrapped(message: string, base: Context, e: ProviderError): (f: StorageFailure)
    ensures e.CoreError? <==> f == Unwrapped(e)
    ensures e.ClientError? ==> f == Wrapped(message, base, e)
  {
    if e.ClientError? then Wrapped(message, base, e) else Unwrapped(e)
  }

  predicate Is404(e: ProviderError) {
    e.ClientError? && e.error.Some? && e.error.value.code == Some("404")
  }

  const DEFAULT_EXPIRATION := 3600

  /** The context of a failed client creation: the endpoint and the access key from the settings. */
  function ConnectContext(backend: Backend): Context
  {
    map["endpoint_url" := Text(backend.endpointUrl), "access_key" := Text(backend.accessKey)]
  }

  class S3StorageService {
    const bucketName: string
    var client: Backend?

    constructor (storageName: string)
      ensures bucketName == storageName && client == null
    {
      bucketName := storageName;
      client := null;
    }

    function BucketContext(): Context
    {
      map["bucket_name" := Text(bucketName)]
    }

    /**
     * `__aenter__`: connects, then creates the bucket exactly when `head_bucket`
     * fails with code "404". Any other `head_bucket` client error is
     * "Failed to access bucket" and nothing is created.
     */
    method Enter(backend: Backend) returns (failure: Option<StorageFailure>)
      modifies this, backend
      ensures backend.Fault(Connect) == Some(CoreError) ==>
        failure == Some(StorageError("Failed to create storage client", ConnectContext(backend)))
      ensures backend.Fault(Connect).Some? && backend.Fault(Connect).value.ClientError? ==>
        failure == Some(Unwrapped(backend.Fault(Connect).value))
      ensures backend.Fault(Connect).Some? ==> backend.calls == old(backend.calls) && backend.buckets == old(backend.buckets)
      ensures backend.Fault(Connect).None? ==> client == backend
      ensures backend.Fault(Connect).None? && old(backend.HeadResult(bucketName)).None? ==>
        failure.None? && backend.calls == old(backend.calls) + [HeadBucketCall(bucketName)] && backend.buckets == old(backend.buckets)
      ensures backend.Fault(Connect).None? && old(backend.HeadResult(bucketName)).Some? && !Is404(old(backend.HeadResult(bucketName)).value) ==>
        failure == Some(ClientWrapped("Failed to access bucket", BucketContext(), old(backend.HeadResult(bucketName)).value))
        && backend.calls == old(backend.calls) + [HeadBucketCall(bucketName)] && backend.buckets == old(backend.buckets)
      ensures backend.Fault(Connect).None? && old(backend.HeadResult(bucketName)).Some? && Is404(old(backend.HeadResult(bucketName)).value) ==>
        backend.calls == old(backend.calls) + [HeadBucketCall(bucketName), CreateBucketCall(bucketName)]
        && (old(backend.CreateResult(bucketName)).None? ==> failure.None?)
        && (old(backend.CreateResult(bucketName)).Some? ==>
              failure == Some(ClientWrapped("Failed to create bucket", BucketContext(), old(backend.CreateResult(bucketName)).value)))
      ensures failure.None? ==> client == backend && bucketName in backend.buckets
      ensures backend.buckets == old(backend.buckets)
        || (bucketName !in old(backend.buckets) && backend.buckets == old(backend.buckets)[bucketName := []])
    {
      var connect := backend.Fault(Connect);
      if connect.Some? {
        if connect.value.CoreError? {
          return Some(StorageError("Failed to create storage client", ConnectContext(backend)));
        }
        return Some(Unwrapped(connect.value));
      }
      client := backend;
      var head := backend.HeadBucketRequest(bucketName);
      if head.Some? {
        if !Is404(head.value) {
          return Some(ClientWrapped("Failed to access bucket", BucketContext(), head.value));
        }
        var created := backend.CreateBucketRequest(bucketName);
        if created.Some? {
          return Some(ClientWrapped("Failed to create bucket", BucketContext(), created.value));
        }
      }
      failure := None;
    }

    /** `__aexit__`: closes the client when one is set. */
    method Exit()
      modifies client
      ensures client != null ==> client.calls == old(client.calls) + [CloseCall] && client.buckets == old(client.buckets)
    {
      if client != null {
        client.Close();
      }
    }

    function StoreContext(path: string, contentType: string): Context
    {
      BucketContext()["path" := Text(path)]["content_type" := Text(contentType)]
    }

    /** `store_file`: one `put_object` with the bucket, path, body and content type unchanged; the content type is not checked. */
    method StoreFile(body: seq<bv8>, path: string, contentType: string) returns (failure: Option<StorageFailure>)
      requires client != null
      modifies client
      ensures client.calls == old(client.calls) + [PutObjectCall(bucketName, path, body, contentType)]
      ensures failure.None? <==> old(client.PutResult(bucketName)).None?
      ensures failure.Some? ==> failure.value == Wrapped("Failed to store file", StoreContext(path, contentType), old(client.PutResult(bucketName)).value)
      ensures failure.Some? ==> client.buckets == old(client.buckets)
      ensures failure.None? ==> (bucketName in old(client.buckets)
        && client.buckets == old(client.buckets)[bucketName := Put(old(client.buckets)[bucketName], StoredObject(path, body, contentType))])
    {
      var e := client.PutObjectRequest(bucketName, path, body, contentType);
      failure := if e.Some? then Some(Wrapped("Failed to store file", StoreContext(path, contentType), e.value)) else None;
    }

    function PathContext(path: string): Context
    {
      BucketContext()["path" := Text(path)]
    }

    /**
     * `get_file`: reads the object's body in chunks of 1 MiB into a temporary
     * file until a read returns nothing, then rewinds the file.
     */
    method GetFile(path: string) returns (r: Result<ByteStream, StorageFailure>)
      requires client != null
      modifies client
      ensures client.calls == old(client.calls) + [GetObjectCall(bucketName, path)]
      ensures client.buckets == old(client.buckets)
      ensures r.Err? <==> old(client.GetResult(bucketName, path)).Err?
      ensures r.Err? ==> r.error == Wrapped("Failed to get file", PathContext(path), old(client.GetResult(bucketName, path)).error)
      ensures r.Ok? ==> (fresh(r.value) && r.value.Valid() && r.value.pos == 0
        && r.value.data == old(client.GetResult(bucketName, path)).value)
    {
      var response := client.GetObjectRequest(bucketName, path);
      if response.Err? {
        return Err(Wrapped("Failed to get file", PathContext(path), response.error));
      }
      var stream := response.value;
      ghost var body := stream.data;
      var temp := new ByteStream([]);
      var chunk := stream.Read(CHUNK_SIZE);
      while chunk != []
        invariant stream.Valid() && temp.Valid() && fresh(temp) && fresh(stream)
        invariant stream.data == body
        invariant client.calls == old(client.calls) + [GetObjectCall(bucketName, path)]
        invariant client.buckets == old(client.buckets)
        invariant temp.data + chunk == stream.data[..stream.pos]
        invariant temp.pos == |temp.data|
        invariant chunk == [] ==> stream.pos == |stream.data|
        decreases |stream.data| - stream.pos, |chunk|
      {
        temp.Write(chunk);
        assert temp.data == stream.data[..stream.pos];
        chunk := stream.Read(CHUNK_SIZE);
      }
      temp.Rewind();
      r := Ok(temp);
    }

    /**
     * `purge`: lists the bucket once; when the listing has `Contents`, issues
     * one delete covering every listed key, and otherwise deletes nothing.
     */
    method Purge() returns (failure: Option<StorageFailure>)
      requires client != null
      modifies client
      ensures old(client.ListResult(bucketName)).Err? ==>
        failure == Some(Wrapped("Failed to purge bucket", BucketContext(), old(client.ListResult(bucketName)).error))
        && client.calls == old(client.calls) + [ListObjectsCall(bucketName)] && client.buckets == old(client.buckets)
      ensures old(client.ListResult(bucketName)) == Ok(None) ==>
        failure.None? && client.calls == old(client.calls) + [ListObjectsCall(bucketName)] && client.buckets == old(client.buckets)
      ensures old(client.ListResult(bucketName)).Ok? && old(client.ListResult(bucketName)).value.Some? ==>
        var keys := old(client.ListResult(bucketName)).value.value;
        client.calls == old(client.calls) + [ListObjectsCall(bucketName), DeleteObjectsCall(bucketName, keys)]
        && (failure.None? <==> old(client.DeleteResult(bucketName)).None?)
        && (failure.Some? ==> failure == Some(Wrapped("Failed to purge bucket", BucketContext(), old(client.DeleteResult(bucketName)).value))
                              && client.buckets == old(client.buckets))
        && (failure.None? ==> client.buckets == old(client.buckets)[bucketName := Without(old(client.buckets)[bucketName], keys)])
    {
      var listing := client.ListObjectsRequest(bucketName);
      if listing.Err? {
        return Some(Wrapped("Failed to purge bucket", BucketContext(), listing.error));
      }
      if listing.value.Some? {
        var e := client.DeleteObjectsRequest(bucketName, listing.value.value);
        if e.Some? {
          return Some(Wrapped("Failed to purge bucket", BucketContext(), e.value));
        }
      }
      failure := None;
    }

    /**
     * Purging as the interface describes it ("delete all files"): list and
     * delete page by page until a listing has no `Contents`.
     */
    method PurgeAll() returns (failure: Option<StorageFailure>)
      requires client != null
      modifies client
      ensures failure.None? ==> bucketName in client.buckets && client.buckets[bucketName] == []
      ensures failure.Some? ==> failure.value.StorageError? && failure.value.message == "Failed to purge bucket"
      ensures forall b :: b != bucketName ==> (b in client.buckets <==> b in old(client.buckets))
      ensures forall b :: b != bucketName && b in client.buckets ==> client.buckets[b] == old(client.buckets)[b]
    {
      while true
        invariant forall b :: b != bucketName ==> (b in client.buckets <==> b in old(client.buckets))
        invariant forall b :: b != bucketName && b in client.buckets ==> client.buckets[b] == old(client.buckets)[b]
        decreases if bucketName in client.buckets then |client.buckets[bucketName]| else 0
      {
        var listing := client.ListObjectsRequest(bucketName);
        if listing.Err? {
          return Some(Wrapped("Failed to purge bucket", BucketContext(), listing.error));
        }
        if listing.value.None? {
          return None;
        }
        var e := client.DeleteObjectsRequest(bucketName, listing.value.value);
        if e.Some? {
          return Some(Wrapped("Failed to purge bucket", BucketContext(), e.value));
        }
      }
    }

    function UrlContext(path: string, expiration: int): Context
    {
      BucketContext()["path" := Text(path)]["expiration" := Number(expiration)]
    }

    /** `generate_expiring_url`: a presigned `get_object` URL, valid for an hour unless told otherwise. */
    method GenerateExpiringUrl(path: string, expiration: int := DEFAULT_EXPIRATION) returns (r: Result<string, StorageFailure>)
      requires client != null
      modifies client`calls
      ensures client.calls == old(client.calls) + [PresignCall(bucketName, path, expiration)]
      ensures client.Fault(Presign).None? ==> r == Ok(client.sign(bucketName, path, expiration))
      ensures client.Fault(Presign).Some? ==> r == Err(Wrapped("Failed to generate presigned URL", UrlContext(path, expiration), client.Fault(Presign).value))
    {
      var signed := client.PresignRequest(bucketName, path, expiration);
      r := if signed.Ok? then Ok(signed.value) else Err(Wrapped("Failed to generate presigned URL", UrlContext(path, expiration), signed.error));
    }
  }

  /**
   * `purge` as written deletes only the first listing page: in a bucket with
   * more than `MAX_KEYS` objects, the object after the first page survives.
   */
  lemma PurgeLeavesLaterPages(objs: seq<StoredObject>)
    requires |objs| > MAX_KEYS
    requires objs[MAX_KEYS].key !in FirstPage(objs)
    ensures Lookup(Without(objs, FirstPage(objs)), objs[MAX_KEYS].key).Some?
    ensures Without(objs, FirstPage(objs)) != []
  {
    var key := objs[MAX_KEYS].key;
    assert Lookup(objs, key).Some?;
  }
}

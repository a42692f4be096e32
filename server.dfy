/**
 * The HTTP side of the service (`server.go`): server construction with
 * size-limit defaults, the `/generate` decision chain, the `/health` check,
 * and the template and data fetches built on the bounded blob fetch.
 */
module Server {
  import opened Wrappers
  import opened Values
  import opened BlobStore
  import opened Typst

  /** 1 MiB. */
  const DefaultMaxTemplateSize: int := 1048576
  /** 10 MiB. */
  const DefaultMaxDataSize: int := 10485760

  datatype ServerConfig = ServerConfig(bucketURL: GoString, maxTemplateSize: int, maxDataSize: int)

  /** Both size limits are in force. */
  predicate HasLimits(c: ServerConfig) {
    c.maxTemplateSize > 0 && c.maxDataSize > 0
  }

  /**
   * The configuration `NewServer` keeps: a size limit that is not positive
   * is replaced by its default, a positive one and the bucket URL are kept.
   */
  function WithDefaults(c: ServerConfig): (r: ServerConfig)
    ensures HasLimits(r)
    ensures r.bucketURL == c.bucketURL
    ensures c.maxTemplateSize > 0 ==> r.maxTemplateSize == c.maxTemplateSize
    ensures c.maxTemplateSize <= 0 ==> r.maxTemplateSize == DefaultMaxTemplateSize
    ensures c.maxDataSize > 0 ==> r.maxDataSize == c.maxDataSize
    ensures c.maxDataSize <= 0 ==> r.maxDataSize == DefaultMaxDataSize
  {
    var t := if c.maxTemplateSize <= 0 then DefaultMaxTemplateSize else c.maxTemplateSize;
    var d := if c.maxDataSize <= 0 then DefaultMaxDataSize else c.maxDataSize;
    ServerConfig(c.bucketURL, t, d)
  }

  /** Applying the defaults twice changes nothing more, and a configuration with both limits set is left alone. */
  lemma DefaultsIdempotent(c: ServerConfig)
    ensures WithDefaults(WithDefaults(c)) == WithDefaults(c)
    ensures HasLimits(c) <==> WithDefaults(c) == c
  {
  }

  // ---------------------------------------------------------------------
  // Requests, JSON and responses

  /** The body of `POST /generate`. An absent or null `data` is `None`; an absent `dataKey` is empty. */
  datatype GenerateRequest = GenerateRequest(templateKey: GoString, data: Option<JsonObject>, dataKey: GoString)

  /** The uses of `encoding/json` in the pipeline. */
  datatype JsonCodec = JsonCodec(
    // `json.NewDecoder(body).Decode(&req)`; `None` when it returns an error
    decodeRequest: GoString -> Option<GenerateRequest>,
    // `json.Unmarshal(raw, &data)` into a map: the map (nil for `null`) or the parser's error
    unmarshalObject: GoString -> Result<Option<JsonObject>, GoString>,
    // `json.MarshalIndent(data, "", "  ")`
    marshalIndent: Marshaller)

  const StatusOK: int := 200
  const StatusBadRequest: int := 400
  const StatusInternalServerError: int := 500
  const StatusServiceUnavailable: int := 503

  const ContentTypeHeader: GoString := Ascii("Content-Type")
  const ContentDispositionHeader: GoString := Ascii("Content-Disposition")
  const ContentLengthHeader: GoString := Ascii("Content-Length")
  const ContentTypeOptionsHeader: GoString := Ascii("X-Content-Type-Options")
  const PlainText: GoString := Ascii("text/plain; charset=utf-8")
  const NoSniff: GoString := Ascii("nosniff")
  const ApplicationPdf: GoString := Ascii("application/pdf")
  const InlineOutputPdf: GoString := Ascii("inline; filename=\"output.pdf\"")

  const InvalidRequest: GoString := Ascii("invalid request")
  const TemplateKeyRequired: GoString := Ascii("templateKey is required")
  const BothDataSources: GoString := Ascii("cannot specify both 'data' and 'dataKey'")
  const FetchDataPrefix: GoString := Ascii("failed to fetch data: ")
  const FetchTemplatePrefix: GoString := Ascii("failed to fetch template: ")
  const InvalidJsonPrefix: GoString := Ascii("invalid JSON: ")
  const TypstNotFound: GoString := Ascii("typst not found")
  const FailedToOpenBucket: GoString := Ascii("failed to open bucket")
  const HealthyBody: GoString := Ascii("OK")
  const Newline: GoString := Ascii("\n")

  /** What the client receives. */
  datatype Reply = Reply(status: int, header: map<GoString, GoString>, body: GoString)

  /** An `http.ResponseWriter` that records what the handler does to it. */
  class ResponseRecorder {
    var header: map<GoString, GoString>
    /** The status passed to the first `WriteHeader`, or 0 while there was none. */
    var code: int
    var body: GoString

    constructor ()
      ensures header == map[] && code == 0 && body == []
    {
      header, code, body := map[], 0, [];
    }

    /** The response as sent: a handler that never sets a status answers 200. */
    function Sent(): Reply
      reads this
    {
      Reply(if code == 0 then StatusOK else code, header, body)
    }

    /** `w.Header().Set(key, value)`. */
    method SetHeader(key: GoString, value: GoString)
      modifies this`header
      ensures header == old(header)[key := value]
    {
      header := header[key := value];
    }

    /** `w.Header().Del(key)`. */
    method DelHeader(key: GoString)
      modifies this`header
      ensures header == old(header) - {key}
    {
      header := header - {key};
    }

    /** `w.WriteHeader(status)`: only the first status counts. */
    method WriteHeader(status: int)
      modifies this`code
      ensures code == if old(code) == 0 then status else old(code)
    {
      if code == 0 {
        code := status;
      }
    }

    /** `w.Write(b)`: writes the status 200 first when none was written. */
    method Write(b: GoString)
      modifies this`code, this`body
      ensures code == if old(code) == 0 then StatusOK else old(code)
      ensures body == old(body) + b
    {
      if code == 0 {
        code := StatusOK;
      }
      body := body + b;
    }
  }

  /** `http.Error(w, msg, status)`: a plain-text error message followed by a newline. */
  method HttpError(w: ResponseRecorder, msg: GoString, status: int)
    requires 100 <= status <= 999
    modifies w
    ensures w.header == (old(w.header) - {ContentLengthHeader})[ContentTypeHeader := PlainText][ContentTypeOptionsHeader := NoSniff]
    ensures w.code == if old(w.code) == 0 then status else old(w.code)
    ensures w.body == old(w.body) + msg + Newline
    ensures old(w.header) == map[] && old(w.code) == 0 && old(w.body) == [] ==>
      w.Sent() == ReplyFor(Rejected(status, msg))
  {
    w.DelHeader(ContentLengthHeader);
    w.SetHeader(ContentTypeHeader, PlainText);
    w.SetHeader(ContentTypeOptionsHeader, NoSniff);
    w.WriteHeader(status);
    w.Write(msg + Newline);
  }

  /** How a request ends. */
  datatype Outcome = Rejected(status: int, message: GoString) | Document(pdf: GoString)

  /** The reply a fresh response writer carries once the outcome is written. */
  function ReplyFor(o: Outcome): Reply {
    match o
    case Rejected(status, message) =>
      Reply(status, map[ContentTypeHeader := PlainText, ContentTypeOptionsHeader := NoSniff], message + Newline)
    case Document(pdf) =>
      Reply(StatusOK, map[ContentTypeHeader := ApplicationPdf, ContentDispositionHeader := InlineOutputPdf], pdf)
  }

  /**
   * A successful request answers 200 with the PDF content type, an inline
   * disposition named `output.pdf`, and exactly the compiled bytes; a
   * rejected one answers its status with the message and a newline as plain text.
   */
  lemma ReplyShape(o: Outcome)
    ensures o.Document? ==>
      && ReplyFor(o).status == StatusOK
      && ReplyFor(o).header[ContentTypeHeader] == ApplicationPdf
      && ReplyFor(o).header[ContentDispositionHeader] == InlineOutputPdf
      && ReplyFor(o).body == o.pdf
    ensures o.Rejected? ==>
      && ReplyFor(o).status == o.status
      && ReplyFor(o).header[ContentTypeHeader] == PlainText
      && ReplyFor(o).body[..|o.message|] == o.message
  {
  }

  // ---------------------------------------------------------------------
  // The /generate decision chain, as functions

  /** `fetchData`: the fetched bytes parsed as a JSON object, which may be nil. */
  function DataFrom(codec: JsonCodec, fetched: Result<GoString, GoString>): Result<Option<JsonObject>, GoString> {
    match fetched
    case Failure(e) => Failure(e)
    case Success(raw) =>
      match codec.unmarshalObject(raw)
      case Failure(e) => Failure(InvalidJsonPrefix + e)
      case Success(data) => Success(data)
  }

  /** Where the data for a validated request comes from. */
  function ResolveData(cfg: ServerConfig, store: Store, codec: JsonCodec, req: GenerateRequest): Result<Option<JsonObject>, GoString> {
    if req.dataKey != [] then DataFrom(codec, Fetched(store, req.dataKey, cfg.maxDataSize))
    else Success(req.data)
  }

  /** The request fails one of the three checks made before the store is touched. */
  predicate Invalid(codec: JsonCodec, body: GoString) {
    match codec.decodeRequest(body)
    case None => true
    case Some(req) => req.templateKey == [] || (req.data.Some? && req.dataKey != [])
  }

  /** `handleGenerate`: how a request with this body ends. */
  function Decide(cfg: ServerConfig, store: Store, codec: JsonCodec, fs: FileSystem, compiler: Compiler, body: GoString): Outcome {
    match codec.decodeRequest(body)
    case None => Rejected(StatusBadRequest, InvalidRequest)
    case Some(req) =>
      if req.templateKey == [] then Rejected(StatusBadRequest, TemplateKeyRequired)
      else if req.data.Some? && req.dataKey != [] then Rejected(StatusBadRequest, BothDataSources)
      else Pipeline(cfg, store, codec, fs, compiler, req)
  }

  /** How a request that passed validation ends: data, then template, then compilation. */
  function Pipeline(cfg: ServerConfig, store: Store, codec: JsonCodec, fs: FileSystem, compiler: Compiler, req: GenerateRequest): Outcome {
    match ResolveData(cfg, store, codec, req)
    case Failure(e) => Rejected(StatusInternalServerError, FetchDataPrefix + e)
    case Success(data) =>
      match Fetched(store, req.templateKey, cfg.maxTemplateSize)
      case Failure(e) => Rejected(StatusInternalServerError, FetchTemplatePrefix + e)
      case Success(source) =>
        match Compile(fs, compiler, codec.marshalIndent, source, data).result
        case Failure(e) => Rejected(StatusInternalServerError, e)
        case Success(pdf) => Document(pdf)
  }

  /** `handleGenerate`: the bucket and reader handles it opens and closes, in order. */
  function GenerateTrace(cfg: ServerConfig, store: Store, codec: JsonCodec, body: GoString): seq<Event> {
    if Invalid(codec, body) then [] else PipelineTrace(cfg, store, codec, codec.decodeRequest(body).value)
  }

  /** The handles opened and closed after validation: the data fetch, if any, then the template fetch. */
  function PipelineTrace(cfg: ServerConfig, store: Store, codec: JsonCodec, req: GenerateRequest): seq<Event> {
    var dataTrace := DataTrace(store, req);
    if ResolveData(cfg, store, codec, req).Failure? then dataTrace
    else dataTrace + FetchTrace(store, req.templateKey)
  }

  /** The handles the data resolution opens and closes. */
  function DataTrace(store: Store, req: GenerateRequest): seq<Event> {
    if req.dataKey != [] then FetchTrace(store, req.dataKey) else []
  }

  /**
   * The checks made before the store is touched, in order: an undecodable
   * body, then a missing template key, then both data sources at once. Each
   * answers 400 with its own message and opens nothing; and these are the
   * only requests answered 400.
   */
  lemma ValidationOrder(cfg: ServerConfig, store: Store, codec: JsonCodec, fs: FileSystem, compiler: Compiler, body: GoString)
    ensures codec.decodeRequest(body).None? ==>
      Decide(cfg, store, codec, fs, compiler, body) == Rejected(StatusBadRequest, InvalidRequest)
    ensures codec.decodeRequest(body).Some? && codec.decodeRequest(body).value.templateKey == [] ==>
      Decide(cfg, store, codec, fs, compiler, body) == Rejected(StatusBadRequest, TemplateKeyRequired)
    ensures codec.decodeRequest(body).Some? && codec.decodeRequest(body).value.templateKey != [] &&
            codec.decodeRequest(body).value.data.Some? && codec.decodeRequest(body).value.dataKey != [] ==>
      Decide(cfg, store, codec, fs, compiler, body) == Rejected(StatusBadRequest, BothDataSources)
    ensures Invalid(codec, body) ==> GenerateTrace(cfg, store, codec, body) == []
    ensures Invalid(codec, body) <==>
      Decide(cfg, store, codec, fs, compiler, body).Rejected? && Decide(cfg, store, codec, fs, compiler, body).status == StatusBadRequest
  {
  }

  /**
   * With a data key, the data is fetched first, bounded by the data size
   * limit, and parsed as JSON; when that fails the request answers 500
   * "failed to fetch data: ..." and the template is never opened.
   */
  lemma DataFetchedFirst(cfg: ServerConfig, store: Store, codec: JsonCodec, fs: FileSystem, compiler: Compiler, body: GoString)
    requires !Invalid(codec, body) && codec.decodeRequest(body).value.dataKey != []
    ensures var req := codec.decodeRequest(body).value;
      && ResolveData(cfg, store, codec, req) == DataFrom(codec, Fetched(store, req.dataKey, cfg.maxDataSize))
      && var t := GenerateTrace(cfg, store, codec, body);
         |FetchTrace(store, req.dataKey)| <= |t| && t[..|FetchTrace(store, req.dataKey)|] == FetchTrace(store, req.dataKey)
    ensures var req := codec.decodeRequest(body).value;
      ResolveData(cfg, store, codec, req).Failure? ==>
        && Decide(cfg, store, codec, fs, compiler, body)
           == Rejected(StatusInternalServerError, FetchDataPrefix + ResolveData(cfg, store, codec, req).error)
        && GenerateTrace(cfg, store, codec, body) == FetchTrace(store, req.dataKey)
  {
    var req := codec.decodeRequest(body).value;
    var d := FetchTrace(store, req.dataKey);
    var t := GenerateTrace(cfg, store, codec, body);
    if ResolveData(cfg, store, codec, req).Success? {
      assert t == d + FetchTrace(store, req.templateKey);
      assert t[..|d|] == d;
    } else {
      assert t == d;
      assert t[..|d|] == d;
    }
  }

  /**
   * Without a data key, the inline data, nil or not, is what gets compiled,
   * and the only handles opened are those of the template fetch.
   */
  lemma InlineDataPassesThrough(cfg: ServerConfig, store: Store, codec: JsonCodec, fs: FileSystem, compiler: Compiler, body: GoString)
    requires !Invalid(codec, body) && codec.decodeRequest(body).value.dataKey == []
    ensures var req := codec.decodeRequest(body).value;
      && ResolveData(cfg, store, codec, req) == Success(req.data)
      && GenerateTrace(cfg, store, codec, body) == FetchTrace(store, req.templateKey)
      && (Fetched(store, req.templateKey, cfg.maxTemplateSize).Success? ==>
            var source := Fetched(store, req.templateKey, cfg.maxTemplateSize).value;
            Decide(cfg, store, codec, fs, compiler, body) ==
              match Compile(fs, compiler, codec.marshalIndent, source, req.data).result
              case Failure(e) => Rejected(StatusInternalServerError, e)
              case Success(pdf) => Document(pdf))
  {
    var req := codec.decodeRequest(body).value;
    assert [] + FetchTrace(store, req.templateKey) == FetchTrace(store, req.templateKey);
  }

  /**
   * Once the data is resolved: the template is fetched bounded by the
   * template size limit; a failed fetch answers 500 "failed to fetch
   * template: ...", a compile error answers 500 with the compiler's message
   * unchanged, and a success answers the compiled bytes.
   */
  lemma TemplateThenCompile(cfg: ServerConfig, store: Store, codec: JsonCodec, fs: FileSystem, compiler: Compiler, body: GoString)
    requires !Invalid(codec, body)
    requires ResolveData(cfg, store, codec, codec.decodeRequest(body).value).Success?
    ensures var req := codec.decodeRequest(body).value;
      var data := ResolveData(cfg, store, codec, req).value;
      var o := Decide(cfg, store, codec, fs, compiler, body);
      match Fetched(store, req.templateKey, cfg.maxTemplateSize)
      case Failure(e) => o == Rejected(StatusInternalServerError, FetchTemplatePrefix + e)
      case Success(source) =>
        var c := Compile(fs, compiler, codec.marshalIndent, source, data).result;
        && (c.Failure? ==> o == Rejected(StatusInternalServerError, c.error))
        && (c.Success? ==> o == Document(c.value))
  {
  }

  /** Every request, however it ends, releases every bucket and reader it opened. */
  lemma RequestReleasesHandles(cfg: ServerConfig, store: Store, codec: JsonCodec, body: GoString)
    ensures Released(GenerateTrace(cfg, store, codec, body))
  {
    if !Invalid(codec, body) {
      var req := codec.decodeRequest(body).value;
      var d: seq<Event> := if req.dataKey != [] then FetchTrace(store, req.dataKey) else [];
      if req.dataKey != [] {
        FetchReleases(store, req.dataKey);
      } else {
        assert Replay([], d) == Some([]);
      }
      if ResolveData(cfg, store, codec, req).Success? {
        FetchReleases(store, req.templateKey);
        ReleasedAppend(d, FetchTrace(store, req.templateKey));
      }
    }
  }

  /**
   * Stored data that does not parse as JSON answers 500, and the message
   * carries "failed to fetch data: invalid JSON: " followed by the parser's error.
   */
  lemma InvalidStoredJson(cfg: ServerConfig, store: Store, codec: JsonCodec, fs: FileSystem, compiler: Compiler, body: GoString)
    requires !Invalid(codec, body)
    requires var key := codec.decodeRequest(body).value.dataKey;
      && key != [] && Fetched(store, key, cfg.maxDataSize).Success?
      && codec.unmarshalObject(Fetched(store, key, cfg.maxDataSize).value).Failure?
    ensures var key := codec.decodeRequest(body).value.dataKey;
      Decide(cfg, store, codec, fs, compiler, body) == Rejected(StatusInternalServerError,
        FetchDataPrefix + InvalidJsonPrefix + codec.unmarshalObject(Fetched(store, key, cfg.maxDataSize).value).error)
  {
    assert FetchDataPrefix + (InvalidJsonPrefix + codec.unmarshalObject(Fetched(store, codec.decodeRequest(body).value.dataKey, cfg.maxDataSize).value).error)
        == FetchDataPrefix + InvalidJsonPrefix + codec.unmarshalObject(Fetched(store, codec.decodeRequest(body).value.dataKey, cfg.maxDataSize).value).error;
  }

  // ---------------------------------------------------------------------
  // The /health check, as functions

  /** `handleHealth`: the reply. */
  function HealthReply(typstOnPath: bool, store: Store): Reply {
    if !typstOnPath then ReplyFor(Rejected(StatusServiceUnavailable, TypstNotFound))
    else if store.openError.Some? then ReplyFor(Rejected(StatusServiceUnavailable, FailedToOpenBucket))
    else Reply(StatusOK, map[], HealthyBody)
  }

  /** `handleHealth`: the handles it opens and closes. */
  function HealthTrace(typstOnPath: bool, store: Store): seq<Event> {
    if typstOnPath && store.openError.None? then [Opened(BucketHandle), Closed(BucketHandle)] else []
  }

  /**
   * The health check answers 200 "OK" exactly when the typst binary is
   * found and the bucket opens. The binary is checked first: when it is
   * missing the answer is 503 "typst not found" and the store is not
   * touched; otherwise an unreachable store answers 503 "failed to open
   * bucket". A bucket that opens is closed again.
   */
  lemma HealthOrder(typstOnPath: bool, store: Store)
    ensures HealthReply(typstOnPath, store).status == StatusOK <==> typstOnPath && store.openError.None?
    ensures !typstOnPath ==>
      HealthReply(typstOnPath, store).status == StatusServiceUnavailable &&
      HealthReply(typstOnPath, store).body == TypstNotFound + Newline && HealthTrace(typstOnPath, store) == []
    ensures typstOnPath && store.openError.Some? ==>
      HealthReply(typstOnPath, store).status == StatusServiceUnavailable &&
      HealthReply(typstOnPath, store).body == FailedToOpenBucket + Newline && HealthTrace(typstOnPath, store) == []
    ensures typstOnPath && store.openError.None? ==> HealthReply(typstOnPath, store).body == HealthyBody
  {
  }

  /** The health check releases the bucket it opens, and opens one only when the binary is found. */
  lemma HealthReleases(typstOnPath: bool, store: Store)
    ensures Released(HealthTrace(typstOnPath, store))
    ensures HealthTrace(typstOnPath, store) != [] ==> typstOnPath
  {
    var t := HealthTrace(typstOnPath, store);
    if t != [] {
      var none: seq<Handle> := [];
      assert none + [BucketHandle] == [BucketHandle];
      assert Replay([], t) == Replay([BucketHandle], t[1..]);
      assert Replay([BucketHandle], t[1..]) == Replay([], t[2..]);
    } else {
      assert Replay([], t) == Some([]);
    }
  }

  // ---------------------------------------------------------------------
  // The server

  class Server {
    const config: ServerConfig
    /** The bucket at `config.bucketURL`. */
    const conn: Connector

    /** `NewServer`: takes the configuration with its defaults applied. */
    constructor (config: ServerConfig, conn: Connector)
      ensures this.config == WithDefaults(config) && this.conn == conn
    {
      var c := config;
      if c.maxTemplateSize <= 0 {
        c := c.(maxTemplateSize := DefaultMaxTemplateSize);
      }
      if c.maxDataSize <= 0 {
        c := c.(maxDataSize := DefaultMaxDataSize);
      }
      this.config := c;
      this.conn := conn;
    }

    /** `fetchTemplate`: the bucket's bytes for `key`, bounded by the template size limit, unchanged. */
    method FetchTemplate(key: GoString) returns (r: Result<GoString, GoString>)
      modifies conn
      ensures r == Fetched(conn.store, key, config.maxTemplateSize)
      ensures conn.log == old(conn.log) + FetchTrace(conn.store, key)
    {
      r := conn.Fetch(key, config.maxTemplateSize);
    }

    /** `fetchData`: the bucket's bytes for `key`, bounded by the data size limit, parsed as a JSON object. */
    method FetchData(codec: JsonCodec, key: GoString) returns (r: Result<Option<JsonObject>, GoString>)
      modifies conn
      ensures r == DataFrom(codec, Fetched(conn.store, key, config.maxDataSize))
      ensures conn.log == old(conn.log) + FetchTrace(conn.store, key)
    {
      var raw := conn.Fetch(key, config.maxDataSize);
      if raw.Failure? {
        return Failure(raw.error);
      }
      var parsed := codec.unmarshalObject(raw.value);
      if parsed.Failure? {
        return Failure(InvalidJsonPrefix + parsed.error);
      }
      return Success(parsed.value);
    }

    /** `handleHealth`, with `exec.LookPath("typst")` given as whether the binary is found. */
    method HandleHealth(typstOnPath: bool, w: ResponseRecorder)
      requires w.header == map[] && w.code == 0 && w.body == []
      modifies w, conn
      ensures w.Sent() == HealthReply(typstOnPath, conn.store)
      ensures conn.log == old(conn.log) + HealthTrace(typstOnPath, conn.store)
    {
      if !typstOnPath {
        HttpError(w, TypstNotFound, StatusServiceUnavailable);
        return;
      }
      var err := conn.OpenBucket();
      if err.Some? {
        HttpError(w, FailedToOpenBucket, StatusServiceUnavailable);
        return;
      }
      conn.CloseBucket();
      w.Write(HealthyBody);
    }

    /** The data of a validated request: fetched and parsed when it names a data key, inline otherwise. */
    method ResolveRequestData(codec: JsonCodec, req: GenerateRequest) returns (r: Result<Option<JsonObject>, GoString>)
      modifies conn
      ensures r == ResolveData(config, conn.store, codec, req)
      ensures conn.log == old(conn.log) + DataTrace(conn.store, req)
    {
      if req.dataKey != [] {
        r := FetchData(codec, req.dataKey);
      } else {
        r := Success(req.data);
        assert conn.log == old(conn.log) + [];
      }
    }

    /** `handleGenerate` from data resolution on, for a request that passed validation. */
    method RunPipeline(codec: JsonCodec, fs: FileSystem, typst: Files -> ProcessRun, req: GenerateRequest, w: ResponseRecorder)
      requires w.header == map[] && w.code == 0 && w.body == []
      modifies w, conn
      ensures w.Sent() == ReplyFor(Pipeline(config, conn.store, codec, fs, LocalTypst(typst), req))
      ensures conn.log == old(conn.log) + PipelineTrace(config, conn.store, codec, req)
    {
      var data := ResolveRequestData(codec, req);
      if data.Failure? {
        HttpError(w, FetchDataPrefix + data.error, StatusInternalServerError);
        return;
      }
      var source := FetchTemplate(req.templateKey);
      if source.Failure? {
        HttpError(w, FetchTemplatePrefix + source.error, StatusInternalServerError);
        return;
      }
      var pdf, _ := CompileTypstWith(fs, LocalTypst(typst), codec.marshalIndent, source.value, data.value);
      if pdf.Failure? {
        HttpError(w, pdf.error, StatusInternalServerError);
        return;
      }
      w.SetHeader(ContentTypeHeader, ApplicationPdf);
      w.SetHeader(ContentDispositionHeader, InlineOutputPdf);
      w.Write(pdf.value);
    }

    /**
     * `handleGenerate`. `compileTypst` runs the local typst binary, whose
     * behaviour is `typst`, in a workspace on file system `fs`.
     */
    method HandleGenerate(codec: JsonCodec, fs: FileSystem, typst: Files -> ProcessRun, body: GoString, w: ResponseRecorder)
      requires w.header == map[] && w.code == 0 && w.body == []
      modifies w, conn
      ensures w.Sent() == ReplyFor(Decide(config, conn.store, codec, fs, LocalTypst(typst), body))
      ensures conn.log == old(conn.log) + GenerateTrace(config, conn.store, codec, body)
    {
      var decoded := codec.decodeRequest(body);
      if decoded.None? {
        HttpError(w, InvalidRequest, StatusBadRequest);
        assert conn.log == old(conn.log) + [];
        return;
      }
      var req := decoded.value;
      if req.templateKey == [] {
        HttpError(w, TemplateKeyRequired, StatusBadRequest);
        assert conn.log == old(conn.log) + [];
        return;
      }
      if req.data.Some? && req.dataKey != [] {
        HttpError(w, BothDataSources, StatusBadRequest);
        assert conn.log == old(conn.log) + [];
        return;
      }
      RunPipeline(codec, fs, typst, req, w);
    }
  }
}

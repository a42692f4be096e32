# givetypst document pipeline, modelled in Dafny

givetypst is a small HTTP service. `POST /generate` names a Typst template held in a blob-store bucket and, optionally, JSON data, given inline or by the key of a JSON object in the same bucket. The service fetches the template, compiles it with the `typst` binary inside a temporary directory and answers with the PDF. `GET /health` checks that the binary is installed and that the bucket can be opened. At startup, `main.go` reads the bucket URL, the port and two size limits from the flags and the environment.

The model covers:

- `blobstore.dfy` (module `BlobStore`): the bucket as a `Store` value, meaning a map from keys to bytes plus the ways it fails. These are a bucket that does not open, a key that does not open, and a stream that breaks at a given offset. `Connector.Fetch` is `fetchFromBucket`. It drains the reader through an `io.LimitReader` in a loop, including the extra read that asks for the end of file when the object is shorter than the limit, and it logs every bucket and reader handle it opens and closes. `Released` replays such a log and accepts it only when every handle is closed in last-in, first-out order, which is the order of Go's deferred calls.
- `typst.dfy` (module `Typst`): the `TypstCompiler` interface as the `Compiler` datatype. `LocalTypst` wraps the process's failure as `compile failed: <output>`. `Injected` is any other implementation. The temporary directory is a `Workspace` class with its files, a `removed` flag and a history of steps. `CompileTypstWith` is `compileTypstWith` and is proved against the function `Compile`. That function gives the result and the exact sequence of steps on the directory.
- `server.dfy` (module `Server`): the `NewServer` defaults, the `handleGenerate` decision chain (`Decide`, `Pipeline`), `handleHealth`, `fetchTemplate` and `fetchData`. There is also a `ResponseRecorder` class and `http.Error`. Each handler method is proved to leave exactly the reply that the decision functions give, and to add exactly the given handle log to the connector.
- `startup.dfy` (module `Startup`): the configuration prefix of `run()`, with `strconv.ParseInt(s, 10, 64)` as `ParseInt64`.
- `values.dfy`, `wrappers.dfy`: Go byte strings (`GoString = seq<byte>`), JSON values, `Option` and `Result`.

Go strings are byte sequences, so keys, messages, template sources and environment values are all `GoString`. A nil `map[string]any` is `None` and a non-nil one, even an empty one, is `Some`.

Points where the code's behaviour is easy to misread; the model follows the code:

- The `data`/`dataKey` conflict is raised when `data` is non-nil, which includes an empty object `{}`. It is not raised only when the data is "non-empty".
- The two health checks are ordered. When the binary is missing, the store is not touched.
- The "invalid JSON" error does not name the key. Only the "open key" error carries the key. The "open bucket" and "read" errors do not.
- Stored data that is the JSON literal `null` parses without error to a nil map. The template is then compiled without `data.json`.

## Model

| member | source | states |
|---|---|---|
| `BlobStore.Limit` | server.go:176 | the limit reader passes at most `maxSize` bytes and never more than the object, and nothing at all for a limit of zero or less; the whole object when it fits, exactly `maxSize` bytes when it does not |
| `BlobStore.Connector.Fetch` | server.go:160-182 | the fetch returns exactly `Fetched(store, key, maxSize)` and logs exactly the bucket and reader opens and closes of `FetchTrace` on every return path; the read loop keeps the buffer equal to the object's prefix and reads the end of file only while the limit is not used up |
| `BlobStore.FetchRoundTrip` | server.go:176 | a readable object comes back byte-identical when it fits the limit, and as exactly its first `maxSize` bytes when it does not; an oversized object is never an error |
| `BlobStore.FetchBounded` | server.go:164-181 | a successful fetch is a prefix of the stored object of at most `maxSize` bytes (none for a limit of zero or less); a fetch fails if and only if the bucket or the key cannot be opened, or the stream breaks before the limit or in place of an end of file that is read |
| `BlobStore.FailureAtEof` | server.go:176-178 | a stream that fails in place of the end of file fails the fetch with `read: <cause>` exactly when the object is shorter than the limit, and otherwise goes unnoticed |
| `BlobStore.FetchErrors` | server.go:164-173 | an unopenable bucket gives `open bucket: <cause>`; an unopenable or missing key gives `open key <key>: <cause>`, in that order of checks |
| `BlobStore.FetchReleases` | server.go:164-174 | every path of the fetch releases what it opened, the reader before the bucket; the bucket is opened exactly when the store is reachable, the reader exactly when the key opens |
| `BlobStore.ReleasedAppend` | server.go:125-142 | two runs that each release their handles release them all together (used for a request's data and template fetches) |
| `Typst.LocalTypstReportsOutput` | typst.go:37-49 | the local compiler reports no error exactly when the process succeeds, and otherwise `compile failed: ` followed by the process's combined output verbatim |
| `Typst.CompileFromSource` | typst.go:81-99 | writing `main.typ`, compiling and reading `output.pdf` give exactly the result and steps of `FromSource`, and leave the directory holding `main.typ` plus any output the compiler left |
| `Typst.CompileTypstWith` | typst.go:60-100 | the result is `Compile(...).result`; a workspace exists exactly when the temporary directory could be made, is fresh, and is removed and empty on return with history `Compile(...).steps` |
| `Typst.MkdirFailureShortCircuits` | typst.go:63-66 | when the temporary directory cannot be made, the error is `failed to create temp dir: <cause>`, nothing is written and the compiler is not run |
| `Typst.CleanupOnEveryPath` | typst.go:67 | once made, the directory is removed as the very last step on every path (success, marshal, write, compile and read errors), and at no other step |
| `Typst.DataFileIffData` | typst.go:70-79 | `data.json` is written if and only if data is non-nil (an empty map included), marshals and the write succeeds; it holds the indented JSON with mode 0600; without data no step touches `data.json` |
| `Typst.CompilerSeesInputs` | typst.go:70-90 | the compiler runs exactly when the directory is made and every write succeeds, and it then sees only `main.typ` holding exactly the source and, with data, `data.json`, both mode 0600 |
| `Typst.WriteOrder` | typst.go:70-94 | `data.json` is written before `main.typ`, every write happens before the compiler runs, and `output.pdf` is read after it |
| `Typst.CompileOutcome` | typst.go:88-99 | a compiler error is returned unchanged; otherwise the result is exactly the `output.pdf` the compiler left, or `failed to read output PDF: <cause>` when it left none or the file cannot be read |
| `Typst.EarlyFailures` | typst.go:70-85 | marshal and write failures are reported as `failed to marshal data`, `failed to write data file`, `failed to write source file` and the compiler is not run |
| `Server.WithDefaults` | server.go:47-52 | a non-positive template limit becomes 1048576 and a non-positive data limit 10485760; positive limits and the bucket URL are kept |
| `Server.DefaultsIdempotent` | server.go:47-52 | applying the defaults is idempotent and leaves a configuration with both limits positive unchanged |
| `Server.Server.constructor` | server.go:45-58 | `NewServer` holds exactly the configuration with defaults applied |
| `Server.ReplyShape` | server.go:151-156 | a success answers 200 with `Content-Type: application/pdf`, `Content-Disposition: inline; filename="output.pdf"` and exactly the compiled bytes; a rejection answers its status with the message as plain text |
| `Server.ValidationOrder` | server.go:107-122 | an undecodable body answers 400 `invalid request`, else an empty template key 400 `templateKey is required`, else data with a data key 400 `cannot specify both 'data' and 'dataKey'`; none of them opens anything, and these are the only 400 answers |
| `Server.DataFetchedFirst` | server.go:124-132 | with a data key the data is fetched under the data limit before anything else is opened; a fetch or parse failure answers 500 `failed to fetch data: ...` and the template is never opened |
| `Server.InlineDataPassesThrough` | server.go:133-135 | without a data key the inline data, nil or not, is what gets compiled, and only the template fetch opens handles |
| `Server.TemplateThenCompile` | server.go:137-149 | the template is fetched under the template limit; its failure answers 500 `failed to fetch template: ...`, a compile error answers 500 with the compiler's message verbatim, a success the compiled bytes |
| `Server.RequestReleasesHandles` | server.go:125-142 | every request, however it ends, releases every bucket and reader it opened, in last-in, first-out order |
| `Server.InvalidStoredJson` | server.go:194-206 | stored data that does not parse answers 500 `failed to fetch data: invalid JSON: <parser error>` |
| `Server.HealthOrder` | server.go:73-90 | the health check answers 200 `OK` exactly when the binary is found and the bucket opens; a missing binary answers 503 `typst not found` and touches no store; else an unreachable store answers 503 `failed to open bucket` |
| `Server.HealthReleases` | server.go:80-85 | the health check closes the bucket it opens, and opens one only when the binary is found |
| `Server.Server.FetchTemplate` | server.go:185-191 | `fetchTemplate` returns the fetched bytes unchanged under the template limit |
| `Server.Server.FetchData` | server.go:194-206 | `fetchData` fetches under the data limit and returns the parsed object, the fetch error unchanged, or `invalid JSON: <parser error>` |
| `Server.Server.ResolveRequestData` | server.go:124-135 | the data of a validated request is the fetched and parsed object when there is a data key, the inline data otherwise, and only the data fetch opens handles |
| `Server.Server.RunPipeline` | server.go:124-156 | after validation, the response is exactly `ReplyFor(Pipeline(...))` and the handle log grows by `PipelineTrace(...)` |
| `Server.Server.HandleGenerate` | server.go:103-157 | the response is exactly `ReplyFor(Decide(...))` for the local typst compiler, and the handle log grows by exactly `GenerateTrace(...)` |
| `Server.Server.HandleHealth` | server.go:73-90 | the response is exactly `HealthReply(...)` and the handle log grows by exactly `HealthTrace(...)` |
| `Startup.ParseInt64` | main.go:85 | a parsed value always lies in the int64 range |
| `Startup.FormatParseRoundTrip` | main.go:76-79 | every int64 written in decimal parses back to itself |
| `Startup.ParseRejectsNonDigit` | main.go:76-80 | text with a non-digit after the first byte never parses |
| `Startup.EnvLimit` | main.go:83-96 | a size limit from the environment is positive exactly when the variable parses as a positive int64, and is then that value; otherwise it is 0 |
| `Startup.ResolveStartup` | main.go:58-103 | the outcome is `Resolve(...)`: `-version` prints `givetypst version <v>` and exits 0 before anything is read; an empty `BUCKET_URL` exits 1; otherwise it serves, with a `PORT` that parses overriding the `-port` flag, and with the size limits of `EnvLimit` |
| `Startup.EffectiveLimits` | main.go:83-103 | the server's limits are the environment's value when it parses as a positive int64, and otherwise the 1 MiB / 10 MiB defaults |
| `Startup.PortOverridesFlag` | main.go:66-80 | with `BUCKET_URL` set, a `PORT` of `19001` makes the server listen on 19001 although `-port 19099` was given |
| `Startup.BadPortFallsBack` | main.go:45-80 | with `BUCKET_URL` set, a `PORT` of `not-a-number` does not parse, so the server listens on the default `-port` of 8080 |

## Left out

- Blob-store I/O (`blob.OpenBucket`, `NewReader`, the s3 and file drivers) is not modelled. The store is a value with failure flags, and the wording of driver errors is the constant cause `NotFoundCause`.
- The 30-second `fetchTimeout` and every `context` are not modelled: they are timing.
- Running the typst process (`exec.CommandContext`, `CombinedOutput`) is not modelled. Its behaviour is the function `typst` given to `LocalTypst`. `exec.LookPath` is the boolean `typstOnPath`.
- `ContainerTypstCompiler` and the container setup in the integration tests are not part of this model. Any such implementation fits `Injected`.
- `encoding/json` is not modelled. Decoding and encoding are the function fields of `JsonCodec`, and numbers are not converted to float64.
- HTTP routing (`Handler`), the `http.Server` timeouts and content sniffing of a reply that sets no `Content-Type` (the health check's `OK`) are not modelled.
- In `main.go`, the server goroutine, signal handling, graceful shutdown, `setupLogger`, `printUsage` and `flag` parsing are left out. The flags arrive already parsed. Logging is left out everywhere, including the message logged before exit code 1.
- `Typst.Workspace.RemoveAll`: a removal that fails is not modelled. The source ignores that error, and the model always removes the directory.
- OS file errors carry a cause chosen by the `FileSystem` value (per file for writes and for reads of a file that exists), and reading a missing file gives the constant `NoSuchFile`. Partial writes are not modelled.
- `PORT` is read with `strconv.Atoi`, which the model takes to be `ParseInt64`; the two agree only where Go's `int` is 64 bits wide, and a 32-bit platform's narrower range is not modelled.
- Concurrency between requests is not modelled. Each compilation gets its own `fresh` workspace object.

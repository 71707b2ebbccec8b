# Telescope hook: a Dafny model

Telescope is a debugging pipeline for Go web services. A logrus hook
(`telescopeHook.Fire`) turns every log entry into a row of
`telescope_entries`. The row's type is taken from the entry's `"type"`
field, its batch id is the id registered for the calling goroutine, and its
tags go into `telescope_entries_tags`. This project models the following
parts of the hook and of its helpers:

- classification and content building in `Fire`. The "log", "query" and
  "redis" content shapes are modelled in full. "request" and "job" get
  their context as an input.
- tag derivation and the tag writes in `CreateTag`.
- the goroutine-to-batch correlation registry (`TelescopeUUID`,
  `TelescopeStart`, `TelescopeClose`), with the `getGoId` stack-header
  parser.
- the response writers:
  - `ResponseWriter`, which tracks size and status and emits the header at
    most once;
  - `TelescopeResponseWriter`, which copies the body into a buffer.
- the once-only `Providers.Boot` guard.
- `Query.Handler`, which finds the business call site by walking the stack
  text past the model layer (`/app/entity/`).

## Module layout

| module | file | contents |
|---|---|---|
| `Outcomes` | `outcomes.dfy` | `Option` and `Result`; `Result.Panic` stands for a Go panic |
| `GoStrings` | `go_strings.dfy` | the `strings`, `bytes` and `strconv` pieces the code calls |
| `GoId` | `go_id.dfy` | `getGoId`, with strconv's `ParseUint` and its 64-bit overflow rule |
| `Correlation` | `correlation.dfy` | the registry as class `CidRegistry` over a `map<nat, string>` |
| `TelescopeHook` | `hook.dfy` | content builders, tag derivation, the write plans, class `Store` (the database) and class `Hook` (`Fire`, `CreateTag`) |
| `FireProperties` | `fire_properties.dfy` | lemmas about `FirePlan`, the writes `Fire` issues |
| `TypeQuery` | `type_query.dfy` | the stack walk as a function (`Walk`) and as the source's loop (`WalkStack`), and `Handler` |
| `ResponseWriters` | `response_writer.dfy` | the stream, `ResponseWriter`, `TelescopeResponseWriter` |
| `Bootstrap` | `providers.dfy` | `Providers` with `Init`, `Boot`, `SetLog` |

### How the model is built

- **Storage.** The database is class `Store`.
  - Its `accepts` oracle is the database's verdict on each `Create`.
  - A ghost `attempts` log records every row in the order it was issued.
- **Fire.** `Hook.Fire` is proved to issue exactly the writes
  `FirePlan(...).writes`, and to end with `FirePlan(...).outcome`. The lemmas
  in `FireProperties` then state the ordering and the gating rules over that
  plan.
- **The stack walk.** `TypeQuery.WalkStack` is the source's loop, with its
  `break` and its inner index loop (`AppendTail`). It is proved equal to the
  recursive `Walk`, and the lemmas about the walk are stated over `Walk`.

### Behaviour worth knowing

- **Unknown types.** An entry whose type the switch does not name is not
  dropped. It falls into the `default` branch, gets log content and is
  written under its own type name. See telescope_provider.go:92-94 and
  `FireProperties.FireUnnamedTypeAsLog`.
- **getGoId can panic.** It slices at the result of `IndexByte`, so a
  header with no space within the 64-byte buffer panics instead of giving
  an id. This happens when the stack ends before a space, and also when the
  id field runs past byte 64. See telescope_provider.go:306-309,
  `GoId.GetGoIdNoSpacePanics` and `GoId.GetGoIdLongFieldPanics`.
- **Only one gate.** The only filter on entries is the self-logging query
  guard.

## Model

| member | source | states |
|---|---|---|
| `GoStrings.IndexOfSpec` | telescope_provider.go:130 | `strings.Index` returns -1 exactly when `sub` does not occur; otherwise it returns an occurrence with none before it |
| `GoStrings.IndexByte` | telescope_provider.go:309 | `bytes.IndexByte` returns -1 exactly when the byte is absent; otherwise it returns its first position |
| `GoStrings.TrimPrefix` | telescope_provider.go:308 | the prefix is removed when present, and the text is unchanged otherwise |
| `GoStrings.Split` | type_query.go:40 | at least one piece; no piece holds the separator; joining the pieces gives the text back |
| `GoStrings.SplitJoin` | type_query.go:51 | splitting undoes joining when no piece holds the separator |
| `GoId.ParseUint` | telescope_provider.go:310 | the parsed value never exceeds maxUint64, and empty input gives 0 (the error is dropped) |
| `GoId.ParseDigitsExact` | telescope_provider.go:310 | while the value fits in 64 bits, the parse is the exact decimal value |
| `GoId.ParseFormatRoundTrip` | telescope_provider.go:310 | parsing the decimal text of any uint64 gives the number back |
| `GoId.ParseDigitsNonDigit` | telescope_provider.go:310 | a field that meets a non-digit before overflowing parses to 0 |
| `GoId.FormatNatLength` | telescope_provider.go:306-307 | a number below 10^d has at most d digits, so a goroutine id fits the 64-byte buffer |
| `GoId.GetGoId` | telescope_provider.go:305-312 | the id is a uint64, or the call panics |
| `GoId.TrimmedHeader` | telescope_provider.go:306-308 | truncating the header to the buffer and trimming the prefix leaves the id field, then a space |
| `GoId.GetGoIdField` | telescope_provider.go:305-312 | a header "goroutine <field> ..." that fits the buffer gives the parse of the field |
| `GoId.GetGoIdHeader` | telescope_provider.go:305-312 | the header of goroutine n gives n |
| `GoId.GetGoIdExample` | telescope_provider.go:305-312 | "goroutine 17 [running]:..." gives 17 |
| `GoId.GetGoIdNonNumeric` | telescope_provider.go:310 | an id field that starts with a non-digit gives 0 |
| `GoId.GetGoIdNoSpacePanics` | telescope_provider.go:306-309 | a stack that ends inside the buffer with no space after the prefix makes the slice panic |
| `GoId.GetGoIdLongFieldPanics` | telescope_provider.go:306-309 | an id field without a space that runs past the 64-byte buffer makes the slice panic, whatever follows it |
| `GoId.ParseDigitsOverflow` | telescope_provider.go:310 | once the exact value of an all-digit field exceeds 64 bits, the parse loop saturates at maxUint64 |
| `GoId.ParseUintOverflow` | telescope_provider.go:310 | a decimal field too large for 64 bits parses to maxUint64, because the range error is dropped |
| `GoId.ItoaReadsBack` | telescope_provider.go:137 | `strconv.Itoa` text of a line number reads back through ParseUint; a negative is '-' then the digits of its magnitude |
| `Correlation.Lookup` | telescope_provider.go:281-288 | the stored batch id when the key is present, the clock text otherwise |
| `Correlation.CidRegistry.Uuid` | telescope_provider.go:279-289 | TelescopeUUID is the lookup with clock fallback for the caller's goroutine, and panics exactly when getGoId does |
| `Correlation.CidRegistry.Start` | telescope_provider.go:291-295 | stores the fresh id under the caller's goroutine and replaces any earlier one; the rest of the map is unchanged |
| `Correlation.CidRegistry.Close` | telescope_provider.go:297-301 | deletes the caller's key and nothing else; Close on a goroutine with no mapping leaves the map unchanged; a getGoId panic changes nothing |
| `Correlation.Lifecycle` | telescope_provider.go:279-301 | Start then lookup gives the id; a second Start overwrites it; another goroutine keeps its own id; after Close the lookup gives the clock; a second Close changes nothing |
| `TelescopeHook.LevelName` | telescope_provider.go:235 | logrus level names are non-empty |
| `TelescopeHook.LevelNameInjective` | telescope_provider.go:235 | distinct levels have distinct names, so the level tag identifies the level |
| `TelescopeHook.Store.Create` | telescope_provider.go:110 | a row write succeeds exactly when the database accepts it, and every attempt is logged in order |
| `TelescopeHook.ResolveType` | telescope_provider.go:71-75 | an absent "type" gives "log"; a string gives itself; any other value panics the assertion |
| `TelescopeHook.LogContent` | telescope_provider.go:117-127 | keys level/message/context/hostname; an error-or-worse entry gets the stack under "debug" in its data, other entries keep their data |
| `TelescopeHook.QueryContent` | telescope_provider.go:129-150 | dropped exactly when the message contains "telescope_"; otherwise the nine keys, sql = message, slow = false, file and line from the caller ("" without one), and no "show" key |
| `TelescopeHook.RedisContent` | telescope_provider.go:213-220 | keys connection/command/time/hostname, with command = message on the "cache" connection |
| `TelescopeHook.RequestContent` | telescope_provider.go:152-211 | panics exactly when the gin context is missing; otherwise uri = message and response_status = the writer's status |
| `TelescopeHook.JobContent` | telescope_provider.go:222-228 | panics exactly when the job map is missing; otherwise it is that map with the hostname added |
| `TelescopeHook.DispatchRules` | telescope_provider.go:77-94 | only a self-logging query is dropped; every type the switch does not name gets log content |
| `TelescopeHook.DerivedTagRules` | telescope_provider.go:231-258 | log gives its level's name; query gives "show" only when content["show"] is true; request gives the URI's path; job gives "failed" only when the status is "failed"; other types give "" |
| `TelescopeHook.TagRows` | telescope_provider.go:266-276 | one tag row per user tag, in list order, all for the record's uuid |
| `TelescopeHook.TagPlan` | telescope_provider.go:230-277 | CreateTag panics exactly when deriving the tag panics, and then writes nothing; otherwise it writes the derived tag if non-empty, then every user tag; every write is a tag row for the uuid |
| `TelescopeHook.FirePlan` | telescope_provider.go:70-115 | the first write is the entry row with the fresh uuid, and every later write is a tag row for that uuid |
| `TelescopeHook.PersistPlan` | telescope_provider.go:99-113 | the first write is the record of this type and content, and the rest are its tag rows |
| `TelescopeHook.RecordPlan` | telescope_provider.go:110-113 | the record is always written first; a refused record ends with nil and no other write; the rest are tag rows for the record |
| `TelescopeHook.Hook.CreateTag` | telescope_provider.go:230-277 | the writes issued are exactly TagPlan's, and so is the outcome |
| `TelescopeHook.Hook.CreateUserTags` | telescope_provider.go:266-276 | one write per user tag, in order, whatever each write returned |
| `TelescopeHook.Hook.Fire` | telescope_provider.go:70-115 | the writes issued are exactly FirePlan's, and so is the outcome |
| `TelescopeHook.Hook.Persist` | telescope_provider.go:99-113 | the writes issued are exactly PersistPlan's for the goroutine's batch id |
| `TelescopeHook.Hook.WriteRecord` | telescope_provider.go:110-113 | the writes issued are exactly RecordPlan's |
| `FireProperties.FireUntypedIsLog` | telescope_provider.go:71-74 | an entry without "type" is written as a "log" record with log content, whenever getGoId succeeds |
| `FireProperties.FireDropsSelfQuery` | telescope_provider.go:78-82 | a query containing "telescope_" makes Fire return nil with no write |
| `FireProperties.FirePlanShape` | telescope_provider.go:70-113 | any write means the type resolved, the handler built content, the batch id was found and the record was planned |
| `FireProperties.FireFailedRecordNoTags` | telescope_provider.go:110-113 | a refused record write means no tag write at all |
| `FireProperties.FireTagOrder` | telescope_provider.go:110-113 | after an accepted record come the derived tag (if non-empty), then the user tags in list order, and nothing else |
| `FireProperties.RecordPlanTags` | telescope_provider.go:111-112 | an accepted record is followed by exactly CreateTag's writes and outcome |
| `FireProperties.HandlersKeepTags` | telescope_provider.go:77-94 | no content builder changes entry.Data["tags"] |
| `FireProperties.FireIgnoresTagOutcomes` | telescope_provider.go:259-276 | the writes depend on the database only through its verdict on the record; no tag write depends on an earlier tag write succeeding |
| `FireProperties.FireBatchId` | telescope_provider.go:102 | the record's batch id is the id registered for the goroutine, or the clock text when none is registered |
| `FireProperties.FireSameUnitSameBatch` | telescope_provider.go:102 | two entries fired from one registered goroutine share a batch id |
| `FireProperties.FireLogTaggedWithLevel` | telescope_provider.go:233-236 | an accepted log record's first tag is its level's name |
| `FireProperties.FireQueryOnlyUserTags` | telescope_provider.go:237-242 | a query record gets no derived tag, only the user tags |
| `FireProperties.FireUnnamedTypeAsLog` | telescope_provider.go:92-94 | a type the switch does not name is written under its own name with log content, and only user tags |
| `TypeQuery.AppendLast4` | type_query.go:51-54 | the inner loop panics exactly when the line has fewer than four '/'-pieces |
| `TypeQuery.WalkHead` | type_query.go:43-48 | helper for WalkPrefix: below two model frames, one line only counts and sets Connection |
| `TypeQuery.WalkPrefix` | type_query.go:42-48 | while at most one model frame has been seen, the walk only counts frames and tracks Connection |
| `TypeQuery.WalkFewMarkers` | type_query.go:42-57 | with at most one model frame in the stack, File is left unchanged |
| `TypeQuery.WalkSecondMarker` | type_query.go:42-48 | everything up to the second model frame only sets the counter to 2 and Connection to that frame's suffix |
| `TypeQuery.WalkCallSite` | type_query.go:49-56 | after two frames, further model frames are skipped, and the first other line ends the walk and sets File |
| `TypeQuery.WalkOnlyMarkers` | type_query.go:42-57 | when no non-model line follows the second frame, File is left unchanged |
| `TypeQuery.SlashedIsJoin` | type_query.go:52-54 | the appended text is "/" followed by the pieces joined with '/' |
| `TypeQuery.CallSiteSegments` | type_query.go:51-54 | the added part of File starts with '/' and splits into "" and exactly the line's last four pieces |
| `TypeQuery.CallSiteIsLineTail` | type_query.go:51-54 | the added part of File is a tail of the call-site line with a '/' in front |
| `TypeQuery.WalkStep` | type_query.go:43-56 | helper for WalkStack: one turn of the loop equals one step of the recursive walk |
| `TypeQuery.AppendTail` | type_query.go:52-54 | the index loop computes AppendLast4, including its panic |
| `TypeQuery.WalkStack` | type_query.go:40-57 | the loop with its break computes the walk `Walk` |
| `TypeQuery.Handler` | type_query.go:34-77 | a self-logging message gives (nil, nil); otherwise File is from the walk and Connection is the call file and line. Also: Sql = message; Time changes only when "t" is present; the entry has type "query", display flag 1, nil family hash, the goroutine's batch id and no tags. Panics come from the walk or getGoId |
| `ResponseWriters.ResponseWriter.Written` | telescope_provider.go:376-378 | written exactly when Size is not -1; by Observations, exactly when Size >= 0, and an unwritten response has sent no body byte and no header |
| `ResponseWriters.ResponseWriter.Status` | telescope_provider.go:368-370 | the current status; by Observations it is always a positive code |
| `ResponseWriters.ResponseWriter.Size` | telescope_provider.go:372-374 | the current size; by Observations it is -1 before anything is written, and then the number of body bytes since the reset |
| `ResponseWriters.ResponseWriter.Observations` | telescope_provider.go:368-378 | on a valid writer, Written holds exactly when Size >= 0. Size is then the body bytes the stream received since the reset. An unwritten response has sent no byte and no header, and Status is positive |
| `ResponseWriters.ResponseWriter.constructor` | telescope_provider.go:335-339 | a new writer has nothing written and status 200 |
| `ResponseWriters.ResponseWriter.Reset` | telescope_provider.go:335-339 | reset gives size -1, status 200 and Written() false |
| `ResponseWriters.ResponseWriter.WriteHeader` | telescope_provider.go:341-345 | the status changes only for a positive code |
| `ResponseWriters.ResponseWriter.WriteHeaderNow` | telescope_provider.go:347-352 | the first call sets size 0 and emits the status once; later calls change nothing |
| `ResponseWriters.ResponseWriter.Write` | telescope_provider.go:354-359 | emits the header if needed, forwards the bytes, and adds n to size; the stream holds exactly the body written since the reset |
| `ResponseWriters.ResponseWriter.WriteString` | telescope_provider.go:361-366 | same as Write for a string |
| `ResponseWriters.ResponseWriter.Flush` | telescope_provider.go:394-397 | emits the header if needed, and nothing else |
| `ResponseWriters.ResponseWriter.Hijack` | telescope_provider.go:381-384 | an unwritten response gets size 0; any other size is kept |
| `ResponseWriters.TelescopeResponseWriter.constructor` | telescope_provider.go:314-317 | wraps a writer with an empty body buffer |
| `ResponseWriters.TelescopeResponseWriter.Write` | telescope_provider.go:319-322 | the bytes are appended to Body and forwarded unchanged through the wrapped writer |
| `ResponseWriters.TelescopeResponseWriter.WriteString` | telescope_provider.go:324-327 | same as Write for a string |
| `ResponseWriters.CaptureTwoWrites` | telescope_provider.go:319-327 | writing "abc" then "def" leaves "abcdef" in Body and in the stream. With this file's ResponseWriter as the wrapped writer, there is also one 200 header and size 6 |
| `ResponseWriters.StatusThenWrite` | telescope_provider.go:341-359 | the header carries the status set before the first write; a later WriteHeader changes the status but emits nothing |
| `Bootstrap.Providers.constructor` | telescope_provider.go:26-31 | a new provider is closed, not initialised, with no hook |
| `Bootstrap.Providers.Init` | telescope_provider.go:33-37 | debug mode opens the telescope |
| `Bootstrap.Providers.Boot` | telescope_provider.go:39-44 | SetLog runs exactly when the provider is open and not yet initialised; afterwards it is initialised |
| `Bootstrap.Providers.SetLog` | telescope_provider.go:51-57 | one hook, labelled "home-server@" + hostname, is added |
| `Bootstrap.Providers.IsEnable` | telescope_provider.go:46-48 | whether Init opened the telescope; BootTwice shows it is true exactly in debug mode |
| `Bootstrap.BootTwice` | telescope_provider.go:33-48 | booting twice installs one hook in debug mode and none otherwise, and IsEnable holds exactly when a hook was installed |

## Left out

- **`json.Marshal` of the content.** The record keeps the content map itself, so the text fallback of telescope_provider.go:95-98 is not modelled.
- **The request handler's gin internals.**
  - `EntryTypeREQUEST` takes its context as a `RequestContext` input, or `None` when the type assertion would panic.
  - Not modelled: response-body JSON decoding, payload decoding, the duration computed from the clock, `ClientIP`.
- **The job handler's context.** `EntryTypeJob` takes the `telescope_data` map as an input, or `None` when the assertion would panic.
- **`url.Parse`.** The request tag is the URI's path, given as the `requestPath` parameter. A parse error gives `None`, which means no tag.
- **Outside inputs become parameters.** These are stack text, clocks and the uuid:
  - `uuid.NewV4` (`newUuid`, `batchId`);
  - `time.Now().Format` (`now`, `fallbackClock`, `createdAt`);
  - `debug.Stack` (`debugStack`, `stack`);
  - `runtime.Stack` (`runtimeStack`);
  - `os.Hostname` (`osHostname`, `hostname`);
  - `app.IsDebug` (`isDebug`).
- **`logrus.AddHook`.** It is modelled as appending the hook's hostname label to `installedHooks`.
- **`NewtelescopeHook`.** It is not part of this model. `TelescopeStart`, `TelescopeClose` and `Handler` are taken to reach the one registry passed in.
- **`GetStackCallFile`, `RedisSplit`, `ToContent`, `entries` and `tag`.** They are not part of this model.
  - Handler takes the call file and line as `callFile`/`callLine`.
  - Handler returns the `Query` value itself as the content.
  - The Connection value the walk computes is overwritten at type_query.go:66, so the walk's Connection appears only in the walk lemmas.
- **`fmt.Sprintf("%.2f", t)`.** Floating-point formatting is the `timeText` parameter.
- **`sync.Map` concurrency.** The registry is one sequential map. Interleavings of goroutines are not modelled.
- **Stream short writes and errors.** The wrapped `http.ResponseWriter` accepts every byte. Short writes and errors from it are not modelled, so `n` is always the full length.
- **`Hijack`, `CloseNotify` and `Pusher` interface assertions, and the stream's own `Flush`.** Only `Hijack`'s size adjustment and `Flush`'s header emission are modelled.
- **`Query.Init`, `Query.BindType`, `Levels`.** `Init` has a value receiver, so its Hostname assignment is lost. `BindType` is the constant "query" used in `Handler`.
- **`TypeQuery.AppendTail`.** The panic text is Go's "index out of range [i]". The runtime's exact wording, with the length, is not modelled.
- **Bytes.** Strings and byte slices are sequences of characters, one per byte. No UTF-8 decoding or encoding is modelled.
- **`TelescopeHook.LogContent`.** Go writes "debug" into `entry.Data` in place, and that map is shared with the context and with CreateTag. The model returns the updated map as a new value. Aliasing with the caller's entry is not captured beyond Fire passing that map on.
- `TelescopeHook.JobContent`: Go writes "hostname" into the map held by the gin context, so the caller's `telescope_data` changes too. The model returns the updated map as a new value and does not capture that aliasing.
- `ResponseWriters.TelescopeResponseWriter`, `ResponseWriters.CaptureTwoWrites`: the source embeds the `gin.ResponseWriter` interface, but the model fixes the wrapped writer to this file's `ResponseWriter`, which follows gin's size and status rules. For any wrapped writer that forwards the bytes, what holds is "Body and the stream hold the bytes in order". The header count and the size in `CaptureTwoWrites` hold for this choice only.

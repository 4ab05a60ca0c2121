# tubefeed core, modelled in Dafny

tubefeed turns video links (YouTube, archive.org) into podcast episodes. A
request for a URL becomes an item. A worker finds a source provider for the
URL's domain, loads the video's metadata through yt-dlp, saves it, downloads
and extracts the audio, and moves the item through the statuses New,
FetchingMeta, Downloading, Available, or Error. This project models that
core:

- `Text` — the Go string functions the code relies on (`strings.Contains`,
  `strings.Index`, `strings.Split`), over any element type.
- `VideoIds` — the video id of a watch URL (`extractYTVideoID` /
  `extractVideoID`) and the canonical watch URL (`yturl` / `url`).
- `Progress` — the carriage-return split function the yt-dlp provider hands
  to its scanner, the scanner's loop over a stream arriving in chunks, and
  `strconv.Atoi` with its error dropped.
- `Ytdlp` — the yt-dlp source provider: its constructors, its domain
  registrations, the field resolution of `LoadMetadata` and the progress
  reporting of `Download`.
- `Yt` — the older YouTube provider with its metadata cache.
- `ProviderRegistry` and `StaticRegistry` — the mutable domain registry of
  the current pipeline and the fixed table of the older one.
- `Downloader` and `MetaSource` — a download source of the current and of
  the older pipeline.
- `MemoryStore` — the in-memory store of items and playlists.
- `Lifecycle` — the per-item chain of the current worker and its
  `handleError`.
- `MetaWorker` — the older worker: a bounded request queue and the same
  chain with early `continue`s.
- `Models` and `Results` — the shared records (ids, statuses, requests,
  playlists) and `Option`/`Result`.

Everything outside the process is an input: what yt-dlp printed or
returned, the decoded JSON, the domain `utils.ExtractDomain` found, the
outcome of `os.Stat`, the answers of the database, and the id
`uuid.New()` produced. Providers are values. An operation that mutates a
provider or a source through its pointer returns the new value. A Go type
assertion that would panic becomes a precondition (`Ytdlp.Safe`,
`Yt.Safe`). Every other failure is modelled as a `Result` error.

## Model

| member | source | states |
|---|---|---|
| VideoIds.Extract | internal/provider/yt/yt.go:131-137 | there is an id exactly when the URL contains `v=`; the id is the prefix of the text after the first `v=` that runs up to the next `&` or `v=`, or to the end; it never contains either separator |
| VideoIds.ExtractWatchUrl | internal/provider/ytdlp/ytdlp.go:63-65 | round trip: the id extracted from the canonical watch URL of any id free of `&` and `v=` is that id |
| VideoIds.WatchUrlInjective | internal/provider/ytdlp/ytdlp.go:63-65 | distinct ids give distinct canonical watch URLs |
| VideoIdTests.ExtractTestTable | internal/provider/yt/yt_test.go:13-72 | every row of the extraction test table: the standard, foreign-domain, mobile, extra-parameter, reordered and list URLs give the expected id; the shortened, embed, id-less and empty URLs give an error, as the table expects |
| VideoIdTests.RowReordered | internal/provider/yt/yt_test.go:55-60 | a `v=` parameter that is not the first query parameter is still found, and the id stops at the next `&` |
| VideoIdTests.RowList | internal/provider/yt/yt_test.go:67-72 | a playlist parameter after the id is cut off at its `&` |
| Progress.FirstCR | internal/provider/ytdlp/ytdlp.go:132-143 | the position found is a carriage return and no earlier byte is one; no position means there is none |
| Progress.ScanCRSpec | internal/provider/ytdlp/ytdlp.go:132-143 | the split function's three cases: cut the token before the first carriage return and consume it; at end of input return the non-empty remainder whole; otherwise ask for more data |
| Progress.ScanTokensFree | internal/provider/ytdlp/ytdlp.go:132-150 | no token the scanner yields contains a carriage return |
| Progress.ScanReassembles | internal/provider/ytdlp/ytdlp.go:132-150 | joining the tokens with carriage returns and adding the final carriage return, if there is one, gives back the stream: no byte is lost or invented |
| Progress.ScanAllIsFields | internal/provider/ytdlp/ytdlp.go:132-150 | the tokens are exactly the carriage-return separated fields of the stream, less the empty field after a final carriage return |
| Progress.ChunkingIrrelevant | internal/provider/ytdlp/ytdlp.go:132-150 | however the stream is split into reads, the scanner yields the same tokens as on the whole stream at once |
| Progress.DrainThenScan | internal/provider/ytdlp/ytdlp.go:132-150 | tokens cut before end of input do not depend on the bytes that arrive later |
| Progress.Atoi | internal/provider/ytdlp/ytdlp.go:150 | the value is in the 64-bit range; an optionally signed decimal gives its value clamped to that range; any other text gives 0 (the dropped syntax error), except when its leading digits already exceed 2^64-1, where the range error's bound on the sign's side is returned |
| Progress.FastPathAgrees | internal/provider/ytdlp/ytdlp.go:150 | for text of 1 to 18 characters the short-input path of `strconv.Atoi` gives the same value as the general parse |
| Progress.LongDigitRunSaturates | internal/provider/ytdlp/ytdlp.go:150 | a run of 20 or more digits led by 2 or more saturates to the int64 bound on its sign's side, whatever text follows it |
| Progress.AtoiDecimal | internal/provider/ytdlp/ytdlp.go:150 | every printed non-negative value in range reads back as itself |
| Progress.ReportsRendered | internal/provider/ytdlp/ytdlp.go:132-153 | when yt-dlp prints a sequence of values, each followed by a carriage return, the values sent are exactly those values |
| Ytdlp.ExtractYTVideoID | internal/provider/ytdlp/ytdlp.go:231-237 | success exactly when the URL contains `v=`, with the shared extraction's id; otherwise the error "ytdlp error: no video URL" |
| Ytdlp.NewArchiveProvider | internal/provider/ytdlp/ytdlp.go:36-45 | accepts exactly the URLs mentioning archive.org and keeps them verbatim with source "archive.org"; otherwise the "not an archive.org url" error |
| Ytdlp.NewYtProvider | internal/provider/ytdlp/ytdlp.go:48-61 | accepts exactly the URLs mentioning youtube.com or youtu.be that carry `v=`, rewritten to the canonical watch URL of their id; both refusals carry the same "not a youtube url" error |
| Ytdlp.NewYtProviderCanonical | internal/provider/ytdlp/ytdlp.go:48-65 | building again from the canonical URL gives the same provider and the same id |
| Ytdlp.Registered | internal/provider/ytdlp/ytdlp.go:29-33 | after `init`, youtube.com and youtu.be map to the youtube constructor, archive.org to the archive constructor, and no other name maps to anything |
| Ytdlp.StringField | internal/provider/ytdlp/ytdlp.go:199-217 | the two-result string assertion succeeds exactly when the key is present with a string value, and returns that string |
| Ytdlp.LoadMetadata | internal/provider/ytdlp/ytdlp.go:174-228 | the failed command and the bad JSON give their errors; success exactly when the id check passes and a media URL is found; an id mismatch and a missing URL give their own errors; the result records the provider's URL and the media URL |
| Ytdlp.LoadMetadataFields | internal/provider/ytdlp/ytdlp.go:199-226 | uploader and description read "unknown" when absent or not strings and are taken as they are otherwise; the title is the result's; the media URL is `url`, or `original_url` for youtube only |
| Ytdlp.IdMatchesExtracted | internal/provider/ytdlp/ytdlp.go:196-198 | for a provider built from a youtube URL, the id check passes exactly when the result's id is the id of that URL |
| Ytdlp.ArchiveNeedsUrl | internal/provider/ytdlp/ytdlp.go:207-217 | an archive.org result without a string `url` always fails with "unable to retrieve url", whatever `original_url` holds |
| Ytdlp.Download | internal/provider/ytdlp/ytdlp.go:105-171 | pipe and start failures send no progress and return their errors; otherwise one value per scanned token, in order, each exactly the `Atoi` of its token and so in the 64-bit range, and the result fails exactly when the wait fails |
| Ytdlp.DownloadReportsPercentages | internal/provider/ytdlp/ytdlp.go:132-153 | percentages printed by yt-dlp, one per carriage return, are reported exactly |
| Yt.ExtractVideoID | internal/provider/yt/yt.go:131-137 | success exactly when the URL contains `v=`, with the shared extraction's id; otherwise "youtube error: no video URL" |
| Yt.Url | internal/provider/yt/yt.go:66-72 | the URL always carries a video id, and a cached id free of `&` and `v=` is extracted from it again unchanged |
| Yt.New | internal/provider/yt/yt.go:30-40 | accepts exactly the metadata whose URL mentions youtube.com and carries `v=`; only the URL changes, to the canonical one; the cached id stays unset |
| Yt.NewUrlIdLess | internal/provider/yt/yt.go:30-40 | because the id is unset, `Url()` of a fresh provider is the watch URL with an empty id |
| Yt.SetMetadata | internal/provider/yt/yt.go:42-50 | metadata whose URL has no id changes nothing; otherwise the metadata is taken and the id is that of its URL |
| Yt.NewVideo | internal/provider/yt/yt.go:52-64 | success exactly for a youtube.com URL with `v=`: the id, the new video id and the URL as given are recorded; failure leaves the provider unchanged, returns the nil id, and the two failures carry their own errors |
| Yt.Download | internal/provider/yt/yt.go:74-88 | an existing file is success with no run; otherwise the run's outcome, its error wrapped as "youtube error: failed cmd" |
| Yt.DownloadPresentSkipsRun | internal/provider/yt/yt.go:74-80 | when the file exists the outcome is success whatever the run would have done |
| Yt.LoadMetadata | internal/provider/yt/yt.go:91-128 | a set id returns the cached metadata; an id-less URL fails; otherwise the id is stored, success exactly when the decoded id matches it, and the metadata changes only on success |
| Yt.LoadMetadataRefresh | internal/provider/yt/yt.go:117-126 | a refresh keeps the URL and the video id, takes title and uploader from the result, and fills only an empty status with the placeholder |
| Yt.StaleAfterFailedFetch | internal/provider/yt/yt.go:97-112 | as written, a failed fetch still stores the id, so the next call reports success with metadata that was never refreshed |
| Yt.StaleExample | internal/provider/yt/yt.go:97-112 | a concrete watch URL on which the tool fails twice, and the second call succeeds |
| Yt.LoadMetadataFixed | internal/provider/yt/yt.go:91-128 | the corrected load: a failure leaves the provider unchanged, and a stored id always comes with the metadata fetched for it |
| Yt.FixedAgreesOnResult | internal/provider/yt/yt.go:91-128 | the corrected load returns what the original returns, and agrees on the state whenever the load succeeds |
| Yt.FixedRetryIsFresh | internal/provider/yt/yt.go:97-112 | with the correction, a retry after a failure behaves like a first attempt |
| ProviderRegistry.Empty | internal/provider/registry.go:7 | the registry starts with no entries |
| ProviderRegistry.Get | internal/provider/registry.go:13-18 | a constructor exactly for a registered name, and it is the registered one |
| ProviderRegistry.Register | internal/provider/registry.go:9-11 | the domain now yields the new constructor; every other name is unchanged |
| ProviderRegistry.RegisterLastWins | internal/provider/registry.go:9-11 | registering a domain twice keeps only the second constructor |
| ProviderRegistry.RegisterCommutes | internal/provider/registry.go:9-11 | registrations of distinct domains can be made in either order |
| StaticRegistry.Get | internal/provider/registry/registry.go:8-18 | a constructor exactly for youtube.com and youtu.be, and it is `yt.New` |
| StaticRegistry.Construct | internal/provider/registry/registry.go:8-11 | the table's constructor accepts exactly the URLs mentioning youtube.com that carry `v=` |
| StaticRegistry.ShortLinksRejected | internal/provider/registry/registry.go:8-11 | youtu.be is in the table, but its constructor refuses every URL that lacks youtube.com |
| StaticRegistry.HostsNotNormalised | internal/provider/registry/registry.go:13-18 | the www. and m. host names are not found |
| Downloader.Resolve | internal/downloader/downloader.go:34-51 | a domain error is returned as it is; an unregistered domain gives the given error; otherwise the registered constructor's result |
| Downloader.NewSource | internal/downloader/downloader.go:62-81 | success exactly when the domain is found, registered and accepted by its constructor; each failing link returns its own error; the source holds the id, the URL and the provider |
| Downloader.NewSourceShortLink | internal/downloader/downloader.go:62-81 | with the yt-dlp registrations, a youtu.be link with a video id gets the canonical watch URL of that id |
| Downloader.LoadMeta | internal/downloader/downloader.go:84-94 | on a provider error the request is unchanged; on success exactly the title, the status (FetchingMeta) and the source URL change |
| Downloader.Download | internal/downloader/downloader.go:33-59 | a source with a provider keeps it; a provider-less source returns the resolution's error ("no provider found" for an unknown domain) with no progress, or keeps exactly the provider resolved; then a failed stat returns its error with no progress, and otherwise the outcome is the provider's download |
| Downloader.LazyIsEager | internal/downloader/downloader.go:33-59 | resolving the provider lazily gives the same outcome and the same source as downloading with the provider resolved beforehand, whatever the domain and registry then are |
| Downloader.StatGuard | internal/downloader/downloader.go:53-58 | when the stat fails the provider's run has no effect on the outcome |
| MetaSource.NewSource | internal/meta/meta.go:47-69 | an unknown domain gives "domain not supported"; a known one succeeds exactly for youtube.com URLs with `v=`; a new source is New, titled "Loading...", with the provider's URL |
| MetaSource.DomainErrorIgnored | internal/meta/meta.go:48 | a domain-extraction error is dropped and shows up as an unsupported empty domain |
| MetaSource.NewSourceUrlIdLess | internal/meta/meta.go:58-61 | every new source's URL is the watch URL with an empty id, whatever URL it was made from |
| MetaSource.LoadMeta | internal/meta/meta.go:71-80 | the source succeeds exactly when the provider's load does; the provider's new state is kept either way, so a failed fetch leaves the provider's id set; on success the metadata is replaced wholesale by the provider's; on failure the error is returned as it is |
| MetaSource.StaleRetry | internal/meta/meta.go:71-80 | as written, a failed load is followed by a load that reports success and installs the metadata from before any fetch, whatever yt-dlp now answers |
| MetaSource.LoadMetaFixed | internal/meta/meta.go:71-80 | over the corrected provider load: a failure returns the error and leaves the source unchanged |
| MetaSource.FixedRetryLoads | internal/meta/meta.go:71-80 | over the corrected provider load, a retry after a failure behaves like a first attempt |
| MetaSource.Download | internal/meta/meta.go:28-45 | a source with a provider downloads with it; without one, a domain error is returned as it is, an unknown domain gives "failed to Download", a constructor's error is returned as it is and the source is unchanged; a constructed provider is kept and downloads |
| MetaSource.LazyIsEager | internal/meta/meta.go:28-45 | resolving the provider lazily gives the same outcome and the same source as downloading with the provider constructed beforehand |
| MemoryStore.GetItem | internal/store/memory.go:70-75 | the stored request exactly when the id is present; "item not found" otherwise |
| MemoryStore.GetPlaylist | internal/store/memory.go:90-95 | the playlist's name exactly when the id is present; "playlist not found" otherwise |
| MemoryStore.UpdateItem | internal/store/memory.go:65-68 | an upsert under the request's id; every other item and every playlist unchanged |
| MemoryStore.SetStatus | internal/store/memory.go:55-63 | success exactly for a stored id, with only that item's status changed; "item not found" otherwise |
| MemoryStore.DeleteItem | internal/store/memory.go:77-80 | the id is gone and everything else is unchanged; never fails |
| MemoryStore.CreatePlaylist | internal/store/memory.go:82-88 | an upsert of the named playlist; everything else unchanged |
| MemoryStore.UpdatePlaylist | internal/store/memory.go:102-104 | the same as creating the playlist |
| MemoryStore.DeletePlaylist | internal/store/memory.go:97-100 | the playlist is gone and everything else is unchanged; never fails |
| MemoryStore.NewMemoryStore | internal/store/memory.go:17-24 | no items, and exactly the default playlist under the default name |
| MemoryStore.DeleteItemIdempotent | internal/store/memory.go:77-80 | deleting an item twice is deleting it once |
| MemoryStore.DeletePlaylistIdempotent | internal/store/memory.go:97-100 | deleting a playlist twice is deleting it once |
| MemoryStore.UpdateItemLastWins | internal/store/memory.go:65-68 | of two upserts of the same id, the second wins |
| MemoryStore.Enumerate | internal/store/memory.go:30-44 | the map's keys that pass the filter, each once, in an unspecified order |
| MemoryStore.LoadDatabase | internal/store/memory.go:30-35 | exactly the stored requests; in a valid store each once |
| MemoryStore.LoadFromPlaylist | internal/store/memory.go:37-44 | exactly the stored requests of the playlist; in a valid store each once |
| MemoryStore.ListPlaylist | internal/store/memory.go:106-112 | exactly the stored playlists; in a valid store each once |
| MemoryStore.CheckforDuplicate | internal/store/memory.go:46-53 | true exactly when some stored request has the source URL; the playlist is not consulted |
| Lifecycle.Next | internal/worker/worker.go:110-143 | one step records itself as attempted, and the state's error is set exactly when the step's call fails |
| Lifecycle.FirstFail | internal/worker/worker.go:110-143 | the index of the first failing step: all earlier steps succeed |
| Lifecycle.RunStops | internal/worker/worker.go:110-143 | the chain runs exactly the steps up to and including the first failing one, and that step's error is the chain's |
| Lifecycle.RunLog | internal/worker/worker.go:110-143 | the statuses assigned in memory and the statuses written are those of the steps that ran, in order |
| Lifecycle.Run | internal/worker/worker.go:110-143 | the chain never touches the reported items, the item's id or its error |
| Lifecycle.Process | internal/worker/worker.go:59-144 | the steps up to and including the first failing one run; the item fails exactly when a step fails; then it carries that step's error and the Error status, is reported once, and the last write is Error; otherwise nothing is reported and its error is untouched |
| Lifecycle.AllSucceed | internal/worker/worker.go:99-144 | when every call succeeds, all six steps run, the item ends Available and done, its error is untouched and nothing is reported |
| Lifecycle.AllSucceedTrace | internal/worker/worker.go:110-143 | when every call succeeds, the item passes through New, FetchingMeta, FetchingMeta, Downloading, Available |
| Lifecycle.AllSucceedWrites | internal/worker/worker.go:122-143 | when every call succeeds, the store receives the metadata with FetchingMeta, then Downloading, then Available, and nothing else |
| Lifecycle.FailureHandled | internal/worker/worker.go:59-69 | after a failure, no later step runs; the item carries the error and the Error status and is reported once; its statuses are a prefix of the full run's followed by Error; the only Error write is the last write |
| Lifecycle.StatusesOrdered | internal/worker/worker.go:99-144 | the statuses never go back in the order New, FetchingMeta, Downloading, Available, Error; Error is assigned exactly when a step fails, and then last; the item ends in the last status assigned |
| Lifecycle.ReadyWriteFails | internal/worker/worker.go:137-143 | when only the final store write fails, the item ends both done and Error |
| MetaWorker.FirstErr | internal/meta/worker/worker.go:45-75 | the index of the first failing call: all earlier calls succeed |
| MetaWorker.Handle | internal/meta/worker/worker.go:45-75 | a request ends without error exactly when all five calls succeed; a failure ends with the Error write; it attempts one to four writes |
| MetaWorker.DrainBounds | internal/meta/worker/worker.go:45-75 | draining a queue attempts at least one and at most four writes per request |
| MetaWorker.HandleFollowsSteps | internal/meta/worker/worker.go:45-75 | the chain of early `continue`s runs the steps up to the first failure in order, attempts their writes, carries that step's error, and adds exactly one Error write |
| MetaWorker.HandleStatuses | internal/meta/worker/worker.go:53-74 | the statuses written are FetchingMeta, Downloading, Available on success, and otherwise a prefix of them followed by a single final Error |
| MetaWorker.ErrorWriteIgnored | internal/meta/worker/worker.go:36-39 | the store's answer to the Error write changes nothing the worker does |
| MetaWorker.EveryJobHandled | internal/meta/worker/worker.go:45-75 | a failed request does not stop later ones: each request's writes appear in queue order between those before and those after it |
| MetaWorker.ErrorsPerFailure | internal/meta/worker/worker.go:45-75 | over a whole queue there is exactly one Error write per failed request |
| MetaWorker.Enqueue | internal/meta/worker/worker.go:79-88 | the send succeeds exactly when the channel has room, appending the request; otherwise the queue is unchanged and the answer is "Worker Queue is full" |
| MetaWorker.EnqueueAllFills | internal/meta/worker/worker.go:26 | with no worker taking requests, calls are accepted in order until the 20-slot channel is full, and exactly the later ones are refused with "Worker Queue is full" |

## Left out

- Concurrency is not modelled: goroutines, channels, locks and contexts. The report channel and the ticker goroutine in internal/worker/worker.go are left out; only `handleError`'s report of the failed item is recorded.
- Ytdlp.Download: the context-cancelled branch while scanning (internal/provider/ytdlp/ytdlp.go:155-157) is not modelled, because it depends on timing.
- Several meta workers sharing one channel are not modelled; `MetaWorker.Drain` is a single worker taking requests in order.
- `CreateWorkers` starts its goroutines on a `Worker` value without the database and path. This is a data race between goroutines, so it is not modelled.
- External processes, the file system and the decoder are inputs: yt-dlp runs (`exec.Command`), `json.Unmarshal`, `os.Stat`, `uuid.New` and `utils.ExtractDomain`.
- Error texts that embed the command line (`%s` of `cmd`) are modelled with an opaque detail string.
- Ytdlp.Download: the scanner's token-size limit and `scanner.Err` (ytdlp.go:160-163) are left out, because `bufio` is not modelled; the stream is taken as read in full.
- Ytdlp.LoadMetadata and Yt.LoadMetadata: the duration and `Length` are floating point and are not modelled. Only the assertion that would panic on them is kept, in `Safe`.
- Ytdlp.LoadMetadata and Yt.LoadMetadata: a decoded result that would make a Go type assertion panic is excluded by the `Safe` precondition rather than modelled as an error.
- Logging is not modelled, including the slip in internal/meta/worker/worker.go:38, which logs `err` where `err2` is meant. It affects only a log line.
- The SQLite store, the HTTP handlers, the RSS feed and the command-line code are outside this core.
- MemoryStore.NewMemoryStore: the default playlist's name is a parameter. The code refers to `models.Default_playlist_id` and `models.Default_playlist_name`, but the models file in this version defines only `Default_playlist`; the id is taken from that constant.
- `models.Request` in this version has no `SourceURL` field, although the store and `downloader.LoadMeta` use one. The model's `Request` includes it.
- The older pipeline refers to a `meta.Video` type that is not part of this model. The meta worker works on video ids and the outcomes of each call, and `MetaSource` uses the `yt` provider's metadata as the source's metadata.
- StaticRegistry.Construct: the table hands the constructor the URL; the model passes metadata that holds only that URL.
- The id and the output path passed to the providers' `Download` only shape the yt-dlp command line, so they are not modelled.

## Findings

| source | as written | input that shows it | evidently intended | confidence | as-written member | corrected member |
|---|---|---|---|---|---|---|
| internal/provider/yt/yt.go:97-112 | `LoadMetadata` stores the video id before running yt-dlp, so a failed fetch leaves the id set, and every later call returns the unrefreshed cached metadata as success | a provider for `https://www.youtube.com/watch?v=dQw4w9WgXcQ` whose first `--dump-json` run fails, then a second call | store the id only together with the metadata fetched for it, so that a retry fetches again | not executed | Yt.StaleAfterFailedFetch | Yt.FixedRetryIsFresh |
| internal/meta/meta.go:71-80 | `LoadMeta` runs the provider's `LoadMetadata` above, so after a failed load a source's next load reports success and installs metadata that was never fetched | a source made by `NewSource` for `https://www.youtube.com/watch?v=dQw4w9WgXcQ` (its provider holds that watch URL and no id) whose first load fails at yt-dlp, then a second load | a failed load leaves the source as it was, so that a retry fetches again | not executed | MetaSource.StaleRetry | MetaSource.FixedRetryLoads |

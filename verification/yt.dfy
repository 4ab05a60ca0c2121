/** The YouTube video provider (internal/provider/yt/yt.go): a video's
    metadata plus the id it was last refreshed for. The provider is a value
    here; every operation that mutates it through its pointer returns the
    new value. Running yt-dlp and decoding its output are not modelled;
    their outcomes are inputs. */
module Yt {
  import opened Results
  import Text
  import opened VideoIds
  import opened Models

  /** `ErrYoutube`, the prefix of every error the provider builds. */
  const ErrYoutube: string := "youtube error"

  /** The status `LoadMetadata` writes into an empty status, as spelled in
      the source. */
  const UnknownStatus: string := "unknwown"

  /** `provider.VideoMetadata`, without the length. */
  datatype VideoMetadata = VideoMetadata(videoId: Uuid, url: string, title: string, channel: string, status: string)

  /** `meta` and `ytid`; a non-empty `ytid` marks the metadata as refreshed
      from YouTube. */
  datatype Yt = Yt(meta: VideoMetadata, ytid: string)

  /** `extractVideoID`. */
  function ExtractVideoID(url: string): (r: Result<string>)
    ensures r.Ok? <==> Text.Contains(url, "v=")
    ensures r.Ok? ==> Extract(url) == Some(r.value)
    ensures r.Err? ==> r.msg == ErrYoutube + ": no video URL"
  {
    match Extract(url)
    case Some(id) => Ok(id)
    case None => Err(ErrYoutube + ": no video URL")
  }

  /** `Url`: the watch URL of the current id, from which that id is
      extracted again whenever it has no separator in it. */
  function Url(y: Yt): (u: string)
    ensures ExtractVideoID(u).Ok?
    ensures !Text.Contains(y.ytid, "&") && !Text.Contains(y.ytid, "v=") ==> ExtractVideoID(u) == Ok(y.ytid)
  {
    ExtractWatchUrlAny(y.ytid);
    WatchUrl(y.ytid)
  }

  /** Every watch URL carries a `v=`, whatever the id, and gives back an
      id without separators. */
  lemma ExtractWatchUrlAny(id: string)
    ensures Text.Contains(WatchUrl(id), "v=")
    ensures !Text.Contains(id, "&") && !Text.Contains(id, "v=") ==> Extract(WatchUrl(id)) == Some(id)
  {
    if !Text.Contains(id, "&") && !Text.Contains(id, "v=") {
      ExtractWatchUrl(id);
    }
    var u := WatchUrl(id);
    assert u[|WatchHost|..|WatchHost| + 2] == WatchPrefix[|WatchHost|..|WatchHost| + 2];
    var j: nat := |WatchHost|;
    assert j <= |u| && Text.OccursAt(u, "v=", j);
  }

  /** `New`: accepts metadata whose URL mentions youtube.com and carries a
      `v=`, and rewrites only that URL, to the canonical watch URL. The id
      is left unset. */
  function New(vm: VideoMetadata): (r: Result<Yt>)
    ensures r.Ok? <==> Text.Contains(vm.url, "youtube.com") && Text.Contains(vm.url, "v=")
    ensures r.Err? ==> r.msg == ErrYoutube + ": not a youtube url: " + vm.url
    ensures r.Ok? ==> r.value.ytid == "" && r.value.meta.url == WatchUrl(Extract(vm.url).value)
    ensures r.Ok? ==> r.value.meta.(url := vm.url) == vm
  {
    if !Text.Contains(vm.url, "youtube.com") then
      Err(ErrYoutube + ": not a youtube url: " + vm.url)
    else
      match ExtractVideoID(vm.url)
      case Err(_) => Err(ErrYoutube + ": not a youtube url: " + vm.url)
      case Ok(id) => Ok(Yt(vm.(url := WatchUrl(id)), ""))
  }

  /** `SetMetadata`: takes the metadata and its id when its URL carries a
      video id, and changes nothing otherwise. */
  function SetMetadata(y: Yt, meta: VideoMetadata): (y': Yt)
    ensures !Text.Contains(meta.url, "v=") ==> y' == y
    ensures Text.Contains(meta.url, "v=") ==> y'.meta == meta && Extract(meta.url) == Some(y'.ytid)
  {
    match ExtractVideoID(meta.url)
    case Err(_) => y
    case Ok(id) => Yt(meta, id)
  }

  /** The provider and the id `(*yt).New` returns, with its error. */
  datatype Created = Created(y: Yt, id: Uuid, err: Option<string>)

  /** `(*yt).New`: for a youtube.com URL with a video id, records the id,
      a new video id (the value of `uuid.New()`, an input here) and the
      URL as given. Otherwise returns `uuid.Nil` with the error and leaves
      the provider as it was. */
  function NewVideo(y: Yt, url: string, minted: Uuid): (c: Created)
    ensures c.err.None? <==> Text.Contains(url, "youtube.com") && Text.Contains(url, "v=")
    ensures c.err.Some? ==> c.y == y && c.id == NilUuid
    ensures c.err.Some? && !Text.Contains(url, "youtube.com") ==> c.err.value == ErrYoutube + ": not a youtube url: " + url
    ensures c.err.Some? && Text.Contains(url, "youtube.com") ==> c.err.value == ErrYoutube + ": no video URL"
    ensures c.err.None? ==>
      && c.id == minted
      && c.y == Yt(y.meta.(videoId := minted, url := url), Extract(url).value)
  {
    if !Text.Contains(url, "youtube.com") then
      Created(y, NilUuid, Some(ErrYoutube + ": not a youtube url: " + url))
    else
      match ExtractVideoID(url)
      case Err(e) => Created(y, NilUuid, Some(e))
      case Ok(id) => Created(Yt(y.meta.(videoId := minted, url := url), id), minted, None)
  }

  /** `Download`: nothing to do when the file already exists; otherwise the
      outcome of running yt-dlp on `Url()`. */
  function Download(y: Yt, present: bool, run: Result<()>): (r: Result<()>)
    ensures present ==> r.Ok?
    ensures !present ==> (r.Ok? <==> run.Ok?)
    ensures r.Err? ==> r.msg == ErrYoutube + ": failed cmd " + run.msg
  {
    if present then Ok(())
    else if run.Err? then Err(ErrYoutube + ": failed cmd " + run.msg)
    else Ok(())
  }

  /** When the file exists yt-dlp is never run: the outcome does not depend
      on what the run would have done. */
  lemma DownloadPresentSkipsRun(y: Yt, run1: Result<()>, run2: Result<()>)
    ensures Download(y, true, run1) == Download(y, true, run2) == Ok(())
  {
  }

  /** Decoded JSON, as `json.Unmarshal` into `map[string]any` produces it.
      Numbers decode to float64, whose value only feeds the length. */
  datatype Json =
    | JString(s: string)
    | JNumber
    | JBool(b: bool)
    | JNull
    | JArray(elems: seq<Json>)
    | JObject(fields: map<string, Json>)

  type Object = map<string, Json>

  /** The outcome of running `yt-dlp --dump-json` and decoding its output. */
  datatype MetaRun =
    | CmdFailed(detail: string)
    | BadJson(detail: string)
    | Decoded(obj: Object)

  /** `result["id"] != y.ytid` is false exactly when the id is that string. */
  predicate IdMatches(obj: Object, ytid: string) {
    "id" in obj && obj["id"] == JString(ytid)
  }

  /** Past the id check, the title and uploader are strings and the
      duration is a number; otherwise the type assertions panic. */
  predicate NoPanic(obj: Object, ytid: string) {
    IdMatches(obj, ytid) ==>
      && "title" in obj && obj["title"].JString?
      && "uploader" in obj && obj["uploader"].JString?
      && "duration" in obj && obj["duration"].JNumber?
  }

  /** The run cannot make `LoadMetadata` panic for a provider in state `y`. */
  predicate Safe(y: Yt, run: MetaRun) {
    run.Decoded? && Extract(y.meta.url).Some? ==> NoPanic(run.obj, Extract(y.meta.url).value)
  }

  /** The provider after the call and what the call returned. */
  datatype Loaded = Loaded(y: Yt, r: Result<VideoMetadata>)

  /** The metadata a successful fetch produces: title and uploader from the
      result, an empty URL replaced by `Url()`, an empty status by the
      placeholder. */
  function Refreshed(meta: VideoMetadata, obj: Object, ytid: string): VideoMetadata
    requires NoPanic(obj, ytid) && IdMatches(obj, ytid)
  {
    meta.(title := obj["title"].s,
          channel := obj["uploader"].s,
          url := if meta.url == "" then WatchUrl(ytid) else meta.url,
          status := if meta.status == "" then UnknownStatus else meta.status)
  }

  /** What follows the id assignment in `LoadMetadata`: the tool's outcome,
      the id check and the refresh, for a provider whose id is `ytid`. */
  function Fetch(y: Yt, ytid: string, run: MetaRun): (r: Result<VideoMetadata>)
    requires run.Decoded? ==> NoPanic(run.obj, ytid)
  {
    match run
    case CmdFailed(detail) => Err(ErrYoutube + ": failed cmd " + detail)
    case BadJson(detail) => Err(ErrYoutube + ": " + detail)
    case Decoded(obj) =>
      if !IdMatches(obj, ytid) then Err(ErrYoutube + ": video id from result didnt match")
      else Ok(Refreshed(y.meta, obj, ytid))
  }

  /** `LoadMetadata` as written: cached metadata when an id is set;
      otherwise the id is taken from the URL and stored BEFORE the fetch,
      so it stays set when the fetch fails. */
  function LoadMetadata(y: Yt, run: MetaRun): (l: Loaded)
    requires y.ytid == "" ==> Safe(y, run)
    ensures y.ytid != "" ==> l == Loaded(y, Ok(y.meta))
    ensures y.ytid == "" && !Text.Contains(y.meta.url, "v=") ==> l == Loaded(y, Err(ErrYoutube + ": no video URL"))
    ensures y.ytid == "" && Text.Contains(y.meta.url, "v=") ==>
      && l.y.ytid == Extract(y.meta.url).value
      && (l.r.Ok? <==> run.Decoded? && IdMatches(run.obj, l.y.ytid))
      && (l.r.Ok? ==> l.y.meta == l.r.value)
      && (l.r.Err? ==> l.y.meta == y.meta)
  {
    if y.ytid != "" then Loaded(y, Ok(y.meta))
    else
      match ExtractVideoID(y.meta.url)
      case Err(e) => Loaded(y.(ytid := ""), Err(e))
      case Ok(id) =>
        var y1 := y.(ytid := id);
        match Fetch(y1, id, run)
        case Err(e) => Loaded(y1, Err(e))
        case Ok(meta) => Loaded(y1.(meta := meta), Ok(meta))
  }

  /** `LoadMetadata` with the id committed only together with the metadata
      it was fetched for, so that a non-empty id always means refreshed
      metadata. */
  function LoadMetadataFixed(y: Yt, run: MetaRun): (l: Loaded)
    requires y.ytid == "" ==> Safe(y, run)
    ensures y.ytid != "" ==> l == Loaded(y, Ok(y.meta))
    ensures y.ytid == "" && l.r.Err? ==> l.y == y
    ensures y.ytid == "" && l.r.Ok? ==>
      && Text.Contains(y.meta.url, "v=")
      && l.y.ytid == Extract(y.meta.url).value
      && run.Decoded? && IdMatches(run.obj, l.y.ytid)
      && l.y.meta == l.r.value
  {
    if y.ytid != "" then Loaded(y, Ok(y.meta))
    else
      match ExtractVideoID(y.meta.url)
      case Err(e) => Loaded(y, Err(e))
      case Ok(id) =>
        match Fetch(y, id, run)
        case Err(e) => Loaded(y, Err(e))
        case Ok(meta) => Loaded(Yt(meta, id), Ok(meta))
  }

  /** After a fetch the URL is never empty: the URL the id was taken from
      is kept, so the `Url()` fill-in never fires, and a successful load
      records exactly the title and uploader of the result. */
  lemma LoadMetadataRefresh(y: Yt, run: MetaRun)
    requires y.ytid == "" && Safe(y, run)
    requires LoadMetadata(y, run).r.Ok?
    ensures var m := LoadMetadata(y, run).r.value;
      && m.url == y.meta.url
      && m.videoId == y.meta.videoId
      && run.Decoded? && run.obj["title"] == JString(m.title) && run.obj["uploader"] == JString(m.channel)
      && (y.meta.status == "" ==> m.status == UnknownStatus)
      && (y.meta.status != "" ==> m.status == y.meta.status)
  {
    Text.SplitSingleIff(y.meta.url, "v=");
    assert y.meta.url != "" by {
      if y.meta.url == "" {
        Text.NoLeadNotContains(y.meta.url, "v=");
      }
    }
  }

  /** The two versions agree on every call that succeeds or that finds an
      id already set; they differ only in the state a failed fetch leaves. */
  lemma FixedAgreesOnResult(y: Yt, run: MetaRun)
    requires y.ytid == "" ==> Safe(y, run)
    ensures LoadMetadataFixed(y, run).r == LoadMetadata(y, run).r
    ensures LoadMetadata(y, run).r.Ok? ==> LoadMetadataFixed(y, run) == LoadMetadata(y, run)
  {
  }

  /** With the id committed on success only, a failed load leaves no trace:
      the retry behaves as the first attempt would. */
  lemma FixedRetryIsFresh(y: Yt, first: MetaRun, second: MetaRun)
    requires y.ytid == "" && Safe(y, first) && Safe(y, second)
    requires LoadMetadataFixed(y, first).r.Err?
    ensures LoadMetadataFixed(LoadMetadataFixed(y, first).y, second) == LoadMetadataFixed(y, second)
  {
  }

  /** As written, a failed fetch still sets the id, so every later call
      reports success with metadata that was never refreshed, whatever the
      tool would now return. */
  lemma StaleAfterFailedFetch(y: Yt, first: MetaRun, second: MetaRun)
    requires y.ytid == "" && Safe(y, first)
    requires Text.Contains(y.meta.url, "v=") && Extract(y.meta.url).value != ""
    requires first.CmdFailed? || first.BadJson?
    ensures LoadMetadata(y, first).r.Err?
    ensures LoadMetadata(LoadMetadata(y, first).y, second).r == Ok(y.meta)
  {
  }

  /** A concrete instance: the tool fails twice on a watch URL, and the
      second call succeeds with the metadata it was created with. */
  lemma StaleExample(url: string, id: string)
    requires id == "dQw4w9WgXcQ" && url == WatchUrl(id)
    ensures var y := Yt(VideoMetadata(NilUuid, url, "", "", ""), "");
      && LoadMetadata(y, CmdFailed("exit status 1")).r.Err?
      && LoadMetadata(LoadMetadata(y, CmdFailed("exit status 1")).y, CmdFailed("exit status 1")).r == Ok(y.meta)
  {
    Text.NoLeadNotContains(id, "&");
    Text.NoLeadNotContains(id, "v=");
    ExtractWatchUrl(id);
    var y := Yt(VideoMetadata(NilUuid, url, "", "", ""), "");
    StaleAfterFailedFetch(y, CmdFailed("exit status 1"), CmdFailed("exit status 1"));
  }

  /** A provider fresh from `New` has no id yet, so its `Url()` is the
      watch URL with an empty id. */
  lemma NewUrlIdLess(vm: VideoMetadata)
    requires New(vm).Ok?
    ensures Url(New(vm).value) == WatchPrefix
  {
  }
}

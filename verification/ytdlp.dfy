/** The yt-dlp source provider (internal/provider/ytdlp/ytdlp.go): its two
    constructors, the domains it registers, the field resolution applied to
    the JSON yt-dlp dumps, and the progress reporting of a download. Running
    yt-dlp and decoding its output are not modelled; their outcomes are
    inputs. */
module Ytdlp {
  import opened Results
  import Text
  import opened VideoIds
  import Progress
  import ProviderRegistry

  /** `ErrYtdlp`, the prefix of every error the provider builds. */
  const ErrYtdlp: string := "ytdlp error"

  const YoutubeSource: string := "youtube"
  const ArchiveSource: string := "archive.org"

  /** A provider: the URL handed to yt-dlp and the name of the source.
      (The logger is not modelled.) */
  datatype Ytdlp = Ytdlp(sourceUrl: string, source: string)

  /** `extractYTVideoID`. */
  function ExtractYTVideoID(url: string): (r: Result<string>)
    ensures r.Ok? <==> Text.Contains(url, "v=")
    ensures r.Ok? ==> Extract(url) == Some(r.value)
    ensures r.Err? ==> r.msg == ErrYtdlp + ": no video URL"
  {
    match Extract(url)
    case Some(id) => Ok(id)
    case None => Err(ErrYtdlp + ": no video URL")
  }

  /** `newarchiveprovider`: any URL mentioning archive.org, kept verbatim. */
  function NewArchiveProvider(url: string): (r: Result<Ytdlp>)
    ensures r.Ok? <==> Text.Contains(url, "archive.org")
    ensures r.Ok? ==> r.value == Ytdlp(url, ArchiveSource)
    ensures r.Err? ==> r.msg == ErrYtdlp + ": not an archive.org url: " + url
  {
    if !Text.Contains(url, "archive.org") then
      Err(ErrYtdlp + ": not an archive.org url: " + url)
    else
      Ok(Ytdlp(url, ArchiveSource))
  }

  /** `newytprovider`: a URL mentioning youtube.com or youtu.be and carrying
      a `v=` parameter, rewritten to the canonical watch URL of its id. Both
      refusals carry the same text. */
  function NewYtProvider(url: string): (r: Result<Ytdlp>)
    ensures r.Ok? <==>
      (Text.Contains(url, "youtube.com") || Text.Contains(url, "youtu.be")) && Text.Contains(url, "v=")
    ensures r.Ok? ==> r.value == Ytdlp(WatchUrl(Extract(url).value), YoutubeSource)
    ensures r.Err? ==> r.msg == ErrYtdlp + ": not a youtube url: " + url
  {
    if !Text.Contains(url, "youtube.com") && !Text.Contains(url, "youtu.be") then
      Err(ErrYtdlp + ": not a youtube url: " + url)
    else
      match ExtractYTVideoID(url)
      case Err(_) => Err(ErrYtdlp + ": not a youtube url: " + url)
      case Ok(id) => Ok(Ytdlp(WatchUrl(id), YoutubeSource))
  }

  /** The canonical watch URL mentions youtube.com and carries `v=`. */
  lemma WatchUrlRecognised(id: string)
    ensures Text.OccursAt(WatchUrl(id), "youtube.com", 12)
    ensures Text.OccursAt(WatchUrl(id), "v=", |WatchHost|)
    ensures Text.Contains(WatchUrl(id), "youtube.com") && Text.Contains(WatchUrl(id), "v=")
  {
    var u := WatchUrl(id);
    assert u[12..23] == WatchPrefix[12..23];
    assert u[|WatchHost|..|WatchHost| + 2] == WatchPrefix[|WatchHost|..|WatchHost| + 2];
    var i: nat, j: nat := 12, |WatchHost|;
    assert i <= |u| && Text.OccursAt(u, "youtube.com", i);
    assert j <= |u| && Text.OccursAt(u, "v=", j);
  }

  /** The youtube constructor is idempotent: constructing again from the
      canonical URL it produced gives the same provider, with the same id. */
  lemma NewYtProviderCanonical(url: string)
    requires NewYtProvider(url).Ok?
    ensures NewYtProvider(NewYtProvider(url).value.sourceUrl) == NewYtProvider(url)
    ensures ExtractYTVideoID(NewYtProvider(url).value.sourceUrl) == ExtractYTVideoID(url)
  {
    var id := Extract(url).value;
    WatchUrlRecognised(id);
    ExtractWatchUrl(id);
  }

  /** The constructors the provider registers. */
  datatype Ctor = NewYt | NewArchive

  function Construct(c: Ctor, url: string): Result<Ytdlp> {
    match c
    case NewYt => NewYtProvider(url)
    case NewArchive => NewArchiveProvider(url)
  }

  /** The registry after the package's `init`: youtube.com and youtu.be to
      `newytprovider`, archive.org to `newarchiveprovider`. */
  function Registered(): (reg: ProviderRegistry.Registry<Ctor>)
    ensures ProviderRegistry.Get(reg, "youtube.com") == Some(NewYt)
    ensures ProviderRegistry.Get(reg, "youtu.be") == Some(NewYt)
    ensures ProviderRegistry.Get(reg, "archive.org") == Some(NewArchive)
    ensures forall name :: name !in {"youtube.com", "youtu.be", "archive.org"} ==> ProviderRegistry.Get(reg, name).None?
  {
    var r0 := ProviderRegistry.Empty();
    var r1 := ProviderRegistry.Register(r0, "youtube.com", NewYt);
    var r2 := ProviderRegistry.Register(r1, "youtu.be", NewYt);
    ProviderRegistry.Register(r2, "archive.org", NewArchive)
  }

  /** Decoded JSON, as `json.Unmarshal` into `map[string]any` produces it.
      Numbers decode to float64, whose value only feeds the duration. */
  datatype Json =
    | JString(s: string)
    | JNumber
    | JBool(b: bool)
    | JNull
    | JArray(elems: seq<Json>)
    | JObject(fields: map<string, Json>)

  type Object = map<string, Json>

  /** `result[key].(string)` in its two-result form. */
  function StringField(obj: Object, key: string): (r: Option<string>)
    ensures r.Some? <==> key in obj && obj[key].JString?
    ensures r.Some? ==> obj[key] == JString(r.value)
  {
    if key in obj && obj[key].JString? then Some(obj[key].s) else None
  }

  /** The outcome of running `yt-dlp --dump-json` and decoding its output. */
  datatype MetaRun =
    | CmdFailed(detail: string)
    | BadJson(detail: string)
    | Decoded(obj: Object)

  /** `provider.SourceMeta` as `LoadMetadata` fills it. The length is left
      out, and the ID stays the zero id, so it is not represented. */
  datatype SourceMeta = SourceMeta(providerId: string, title: string, channel: string, description: string, url: string)

  /** The id check: for a youtube provider the canonical URL of the
      result's id must be the provider's URL. */
  predicate IdMatches(y: Ytdlp, obj: Object) {
    y.source == YoutubeSource ==> StringField(obj, "id").Some? && WatchUrl(StringField(obj, "id").value) == y.sourceUrl
  }

  /** The media URL: `url`, else (for youtube only) `original_url`. */
  function MediaUrl(y: Ytdlp, obj: Object): Result<string> {
    match StringField(obj, "url")
    case Some(u) => Ok(u)
    case None =>
      if y.source == YoutubeSource then
        match StringField(obj, "original_url")
        case Some(u) => Ok(u)
        case None => Err(ErrYtdlp + ": unable to retrieve url for youtube")
      else
        Err(ErrYtdlp + ": unable to retrieve url")
  }

  /** The decoded result does not make `LoadMetadata` panic: a youtube
      result has a string id, and a result that gets past the id check and
      the URL lookup has a string title and a numeric duration. */
  predicate NoPanic(y: Ytdlp, obj: Object) {
    && (y.source == YoutubeSource ==> StringField(obj, "id").Some?)
    && (IdMatches(y, obj) && MediaUrl(y, obj).Ok? ==>
          StringField(obj, "title").Some? && "duration" in obj && obj["duration"].JNumber?)
  }

  predicate Safe(y: Ytdlp, run: MetaRun) {
    run.Decoded? ==> NoPanic(y, run.obj)
  }

  /** `LoadMetadata`, from the outcome of the yt-dlp run onwards. */
  function LoadMetadata(y: Ytdlp, run: MetaRun): (r: Result<SourceMeta>)
    requires Safe(y, run)
    ensures run.CmdFailed? ==> r == Err(ErrYtdlp + ": failed cmd " + run.detail)
    ensures run.BadJson? ==> r == Err(ErrYtdlp + ": " + run.detail)
    ensures r.Ok? <==> run.Decoded? && IdMatches(y, run.obj) && MediaUrl(y, run.obj).Ok?
    ensures run.Decoded? && !IdMatches(y, run.obj) ==> r == Err(ErrYtdlp + ": video id from result didnt match")
    ensures run.Decoded? && IdMatches(y, run.obj) && MediaUrl(y, run.obj).Err? ==> r == Err(MediaUrl(y, run.obj).msg)
    ensures r.Ok? ==> r.value.providerId == y.sourceUrl && r.value.url == MediaUrl(y, run.obj).value
  {
    match run
    case CmdFailed(detail) => Err(ErrYtdlp + ": failed cmd " + detail)
    case BadJson(detail) => Err(ErrYtdlp + ": " + detail)
    case Decoded(obj) =>
      if y.source == YoutubeSource && WatchUrl(StringField(obj, "id").value) != y.sourceUrl then
        Err(ErrYtdlp + ": video id from result didnt match")
      else
        var uploader := match StringField(obj, "uploader") case Some(u) => u case None => "unknown";
        var description := match StringField(obj, "description") case Some(d) => d case None => "unknown";
        match MediaUrl(y, obj)
        case Err(e) => Err(e)
        case Ok(url) =>
          Ok(SourceMeta(y.sourceUrl, StringField(obj, "title").value, uploader, description, url))
  }

  /** A missing or non-string uploader or description reads as "unknown";
      a present one is taken as it is. The title is the result's title. The
      media URL is the `url` field, or, only for youtube, `original_url`. */
  lemma LoadMetadataFields(y: Ytdlp, obj: Object)
    requires Safe(y, Decoded(obj)) && LoadMetadata(y, Decoded(obj)).Ok?
    ensures var m := LoadMetadata(y, Decoded(obj)).value;
      && (m.channel == "unknown" <== StringField(obj, "uploader").None?)
      && (StringField(obj, "uploader").Some? ==> obj["uploader"] == JString(m.channel))
      && (m.description == "unknown" <== StringField(obj, "description").None?)
      && (StringField(obj, "description").Some? ==> obj["description"] == JString(m.description))
      && obj["title"] == JString(m.title)
      && (StringField(obj, "url").Some? ==> obj["url"] == JString(m.url))
      && (StringField(obj, "url").None? ==> y.source == YoutubeSource && StringField(obj, "original_url") == Some(m.url))
  {
  }

  /** For a provider built from a youtube URL, the id check passes exactly
      when the result's id is the id of that URL. */
  lemma IdMatchesExtracted(url: string, obj: Object)
    requires NewYtProvider(url).Ok?
    requires StringField(obj, "id").Some?
    ensures IdMatches(NewYtProvider(url).value, obj) <==> StringField(obj, "id").value == Extract(url).value
  {
    var a := StringField(obj, "id").value;
    if WatchUrl(a) == WatchUrl(Extract(url).value) {
      WatchUrlInjective(a, Extract(url).value);
    }
  }

  /** An archive.org provider never falls back to `original_url`: without a
      string `url` field the load fails, whatever else the result holds. */
  lemma ArchiveNeedsUrl(url: string, obj: Object)
    requires NewArchiveProvider(url).Ok?
    requires StringField(obj, "url").None?
    ensures Safe(NewArchiveProvider(url).value, Decoded(obj))
    ensures LoadMetadata(NewArchiveProvider(url).value, Decoded(obj)) == Err(ErrYtdlp + ": unable to retrieve url")
  {
  }

  /** The outcome of running the download command. */
  datatype ProcRun =
    | PipeFailed(detail: string)
    | StartFailed(detail: string)
    | Ran(stdout: seq<Progress.byte>, wait: Result<()>)

  /** The progress values sent on the channel, then the returned error. */
  datatype Downloaded = Downloaded(progress: seq<int>, result: Result<()>)

  /** `Download`: the progress stream is cut at carriage returns and every
      piece is reported through `strconv.Atoi`, whose error is dropped. */
  function Download(y: Ytdlp, run: ProcRun): (d: Downloaded)
    ensures run.PipeFailed? ==> d == Downloaded([], Err(ErrYtdlp + ": pipe failed cmd " + run.detail))
    ensures run.StartFailed? ==> d == Downloaded([], Err(ErrYtdlp + ": start failed cmd " + run.detail))
    ensures run.Ran? ==> |d.progress| == |Progress.ScanAll(run.stdout)|
    ensures run.Ran? ==> forall k :: 0 <= k < |d.progress| ==>
      d.progress[k] == Progress.Atoi(Progress.ScanAll(run.stdout)[k])
      && Progress.MinInt <= d.progress[k] <= Progress.MaxInt
    ensures run.Ran? ==> (d.result.Ok? <==> run.wait.Ok?)
    ensures run.Ran? && run.wait.Err? ==> d.result.msg == ErrYtdlp + ": wait failed cmd " + run.wait.msg
  {
    match run
    case PipeFailed(detail) => Downloaded([], Err(ErrYtdlp + ": pipe failed cmd " + detail))
    case StartFailed(detail) => Downloaded([], Err(ErrYtdlp + ": start failed cmd " + detail))
    case Ran(stdout, wait) =>
      var result := if wait.Err? then Err(ErrYtdlp + ": wait failed cmd " + wait.msg) else Ok(());
      Downloaded(Progress.Reports(stdout), result)
  }

  /** When yt-dlp prints a sequence of percentages, each followed by a
      carriage return, the provider reports exactly those percentages. */
  lemma DownloadReportsPercentages(y: Ytdlp, ps: seq<nat>, wait: Result<()>)
    requires forall k :: 0 <= k < |ps| ==> ps[k] <= 100
    ensures Download(y, Ran(Progress.Rendered(ps), wait)).progress == ps
  {
    Progress.ReportsRendered(ps);
  }
}

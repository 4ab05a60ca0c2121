/** A video source of the older pipeline (internal/meta/meta.go): its
    provider comes from the fixed domain table and is the `yt` provider;
    its metadata is the provider's. The domain of a URL (the result of
    `utils.ExtractDomain`) is an input. */
module MetaSource {
  import opened Results
  import Text
  import opened VideoIds
  import opened Models
  import Yt
  import StaticRegistry

  datatype Source = Source(provider: Option<Yt.Yt>, status: Status, meta: Yt.VideoMetadata, id: Uuid)

  const LoadingTitle: string := "Loading..."

  /** The domain `NewSource` looks up: an extraction error is dropped, and
      Go's zero string takes its place. */
  function Domain(host: Result<string>): string {
    if host.Ok? then host.value else ""
  }

  /** `NewSource`: table lookup, then the constructor; the source starts
      as New, titled "Loading...", with the provider's `Url()` as its
      URL. */
  function NewSource(id: Uuid, url: string, host: Result<string>): (r: Result<Source>)
    ensures StaticRegistry.Get(Domain(host)).None? ==> r == Err("domain not supported: " + Domain(host))
    ensures StaticRegistry.Get(Domain(host)).Some? ==>
      (r.Ok? <==> Text.Contains(url, "youtube.com") && Text.Contains(url, "v="))
    ensures StaticRegistry.Get(Domain(host)).Some? && r.Err? ==>
      r.msg == Yt.ErrYoutube + ": not a youtube url: " + url
    ensures r.Ok? ==>
      && r.value.id == id
      && r.value.status == New
      && r.value.meta.title == LoadingTitle
      && r.value.provider.Some?
      && r.value.meta.url == Yt.Url(r.value.provider.value)
  {
    var domain := Domain(host);
    match StaticRegistry.Get(domain)
    case None => Err("domain not supported: " + domain)
    case Some(c) =>
      match StaticRegistry.Construct(c, url)
      case Err(e) => Err(e)
      case Ok(prov) => Ok(Source(Some(prov), New, Yt.VideoMetadata(NilUuid, Yt.Url(prov), LoadingTitle, "", ""), id))
  }

  /** A domain-extraction failure is never reported as such: the lookup of
      the empty domain fails instead. */
  lemma DomainErrorIgnored(id: Uuid, url: string, e: string)
    ensures NewSource(id, url, Err(e)) == Err("domain not supported: ")
  {
  }

  /** Because `yt.New` leaves the provider's id unset, every new source's
      URL is the watch URL with an empty id, whatever URL it was made
      from. */
  lemma NewSourceUrlIdLess(id: Uuid, url: string, host: Result<string>)
    requires NewSource(id, url, host).Ok?
    ensures NewSource(id, url, host).value.meta.url == WatchPrefix
  {
  }

  /** `LoadMeta`: the provider's `LoadMetadata` runs on the provider the
      source points to, so the provider's new state is kept whatever the
      outcome; on success the source's metadata is replaced wholesale by
      the provider's. A source without a provider would dereference nil. */
  function LoadMeta(src: Source, run: Yt.MetaRun): (out: (Source, Result<()>))
    requires src.provider.Some?
    requires src.provider.value.ytid == "" ==> Yt.Safe(src.provider.value, run)
    ensures var l := Yt.LoadMetadata(src.provider.value, run);
      && (out.1.Ok? <==> l.r.Ok?)
      && (l.r.Err? ==> out == (src.(provider := Some(l.y)), Err(l.r.msg)))
      && (l.r.Ok? ==> out.0 == src.(meta := l.r.value, provider := Some(l.y)))
  {
    var l := Yt.LoadMetadata(src.provider.value, run);
    match l.r
    case Err(e) => (src.(provider := Some(l.y)), Err(e))
    case Ok(m) => (src.(meta := m, provider := Some(l.y)), Ok(()))
  }

  /** The source-level consequence of the provider storing its id before
      the fetch: after a failed load, the next load reports success and
      installs the provider's metadata as it was before any fetch, whatever
      yt-dlp would now answer. */
  lemma StaleRetry(src: Source, first: Yt.MetaRun, second: Yt.MetaRun)
    requires src.provider.Some? && src.provider.value.ytid == "" && Yt.Safe(src.provider.value, first)
    requires Text.Contains(src.provider.value.meta.url, "v=")
    requires Extract(src.provider.value.meta.url).Some? && Extract(src.provider.value.meta.url).value != ""
    requires first.CmdFailed? || first.BadJson?
    ensures LoadMeta(src, first).1.Err?
    ensures var s1 := LoadMeta(src, first).0;
      LoadMeta(s1, second) == (s1.(meta := src.provider.value.meta), Ok(()))
  {
  }

  /** `LoadMeta` over the corrected provider load, which commits the id
      only together with the metadata fetched for it. */
  function LoadMetaFixed(src: Source, run: Yt.MetaRun): (out: (Source, Result<()>))
    requires src.provider.Some?
    requires src.provider.value.ytid == "" ==> Yt.Safe(src.provider.value, run)
    ensures var l := Yt.LoadMetadataFixed(src.provider.value, run);
      && (out.1.Ok? <==> l.r.Ok?)
      && (l.r.Err? ==> out == (src, Err(l.r.msg)))
      && (l.r.Ok? ==> out.0 == src.(meta := l.r.value, provider := Some(l.y)))
  {
    var l := Yt.LoadMetadataFixed(src.provider.value, run);
    match l.r
    case Err(e) => (src, Err(e))
    case Ok(m) => (src.(meta := m, provider := Some(l.y)), Ok(()))
  }

  /** With the corrected provider, a failed load leaves the source as it
      was, so a retry behaves as the first attempt would. */
  lemma FixedRetryLoads(src: Source, first: Yt.MetaRun, second: Yt.MetaRun)
    requires src.provider.Some? && src.provider.value.ytid == ""
    requires Yt.Safe(src.provider.value, first) && Yt.Safe(src.provider.value, second)
    requires LoadMetaFixed(src, first).1.Err?
    ensures LoadMetaFixed(LoadMetaFixed(src, first).0, second) == LoadMetaFixed(src, second)
  {
  }

  /** `Download`: a source without a provider resolves one from its URL
      (failing with "failed to Download" for an unknown domain, and with
      the constructor's own error when it refuses the URL) and keeps it;
      the provider then downloads. */
  function Download(src: Source, host: Result<string>, present: bool, run: Result<()>): (out: (Source, Result<()>))
    ensures src.provider.Some? ==> out == (src, Yt.Download(src.provider.value, present, run))
    ensures src.provider.None? && host.Err? ==> out == (src, Err(host.msg))
    ensures src.provider.None? && host.Ok? && StaticRegistry.Get(host.value).None? ==>
      out == (src, Err("failed to Download"))
    ensures src.provider.None? && host.Ok? && StaticRegistry.Get(host.value).Some? ==>
      var c := StaticRegistry.Construct(StaticRegistry.Get(host.value).value, src.meta.url);
      && (c.Err? ==> out == (src, Err(c.msg)))
      && (c.Ok? ==> out == (src.(provider := Some(c.value)), Yt.Download(c.value, present, run)))
  {
    match src.provider
    case Some(p) => (src, Yt.Download(p, present, run))
    case None =>
      if host.Err? then (src, Err(host.msg))
      else
        match StaticRegistry.Get(host.value)
        case None => (src, Err("failed to Download"))
        case Some(c) =>
          match StaticRegistry.Construct(c, src.meta.url)
          case Err(e) => (src, Err(e))
          case Ok(p) => (src.(provider := Some(p)), Yt.Download(p, present, run))
  }

  /** Lazy resolution agrees with eager resolution: once a provider-less
      source resolves a provider, its download is that of the same source
      built with the provider, and the domain is not consulted again. */
  lemma LazyIsEager(src: Source, host: Result<string>, host': Result<string>, present: bool, run: Result<()>)
    requires src.provider.None? && host.Ok? && StaticRegistry.Get(host.value).Some?
    requires StaticRegistry.Construct(StaticRegistry.Get(host.value).value, src.meta.url).Ok?
    ensures var p := StaticRegistry.Construct(StaticRegistry.Get(host.value).value, src.meta.url).value;
      Download(src, host, present, run) == Download(src.(provider := Some(p)), host', present, run)
  {
  }
}

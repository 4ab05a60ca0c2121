/** A download source of the current pipeline
    (internal/downloader/downloader.go): a URL, an id and a yt-dlp provider
    found through the domain registry. The registry's contents, the domain
    of a URL (the result of `utils.ExtractDomain`), the outcome of
    `os.Stat` and the provider's answers are inputs. */
module Downloader {
  import opened Results
  import opened Models
  import ProviderRegistry
  import Ytdlp
  import Text
  import VideoIds

  datatype Source = Source(provider: Option<Ytdlp.Ytdlp>, url: string, id: Uuid)

  /** Domain, registry lookup, constructor: the chain both `NewSource` and
      a provider-less `Download` walk. `missing` is the error for an
      unregistered domain. */
  function Resolve(url: string, host: Result<string>, reg: ProviderRegistry.Registry<Ytdlp.Ctor>, missing: string): (r: Result<Ytdlp.Ytdlp>)
    ensures host.Err? ==> r == Err(host.msg)
    ensures host.Ok? && ProviderRegistry.Get(reg, host.value).None? ==> r == Err(missing)
    ensures host.Ok? && ProviderRegistry.Get(reg, host.value).Some? ==>
      r == Ytdlp.Construct(reg[host.value], url)
  {
    if host.Err? then Err(host.msg)
    else
      match ProviderRegistry.Get(reg, host.value)
      case None => Err(missing)
      case Some(c) => Ytdlp.Construct(c, url)
  }

  /** `NewSource`: the source holds the given id and URL and the provider
      built for it; each failing link's error is returned as it is. */
  function NewSource(id: Uuid, url: string, host: Result<string>, reg: ProviderRegistry.Registry<Ytdlp.Ctor>): (r: Result<Source>)
    ensures host.Err? ==> r == Err(host.msg)
    ensures host.Ok? && host.value !in reg ==> r == Err("domain not supported: " + host.value)
    ensures host.Ok? && host.value in reg && Ytdlp.Construct(reg[host.value], url).Err? ==>
      r == Err(Ytdlp.Construct(reg[host.value], url).msg)
    ensures r.Ok? <==> host.Ok? && host.value in reg && Ytdlp.Construct(reg[host.value], url).Ok?
    ensures r.Ok? ==> r.value == Source(Some(Ytdlp.Construct(reg[host.value], url).value), url, id)
  {
    var missing := if host.Ok? then "domain not supported: " + host.value else "";
    match Resolve(url, host, reg, missing)
    case Err(e) => Err(e)
    case Ok(p) => Ok(Source(Some(p), url, id))
  }

  /** With the registry the yt-dlp provider sets up, a youtu.be link with a
      video id gets the canonical watch URL of that id. */
  lemma NewSourceShortLink(id: Uuid, url: string)
    requires Text.Contains(url, "youtu.be") && Text.Contains(url, "v=")
    ensures NewSource(id, url, Ok("youtu.be"), Ytdlp.Registered()).Ok?
    ensures NewSource(id, url, Ok("youtu.be"), Ytdlp.Registered()).value.provider
            == Some(Ytdlp.Ytdlp(VideoIds.WatchUrl(VideoIds.Extract(url).value), Ytdlp.YoutubeSource))
  {
  }

  /** `LoadMeta`: on the provider's error the request is unchanged; on
      success exactly the title, the status (FetchingMeta) and the source
      URL change. */
  function LoadMeta(request: Request, loaded: Result<Ytdlp.SourceMeta>): (out: (Request, Result<()>))
    ensures loaded.Err? ==> out == (request, Err(loaded.msg))
    ensures loaded.Ok? ==> out.1.Ok?
    ensures loaded.Ok? ==>
      && out.0.title == loaded.value.title
      && out.0.status == Meta
      && out.0.sourceUrl == loaded.value.url
      && out.0.(title := request.title, status := request.status, sourceUrl := request.sourceUrl) == request
  {
    match loaded
    case Err(e) => (request, Err(e))
    case Ok(m) => (request.(title := m.title, status := Meta, sourceUrl := m.url), Ok(()))
  }

  /** `Download`: a source without a provider first resolves and keeps
      one; then `os.Stat` must succeed on the destination; only then does
      the provider run. */
  function Download(src: Source, host: Result<string>, reg: ProviderRegistry.Registry<Ytdlp.Ctor>,
                    stat: Result<()>, run: Ytdlp.ProcRun): (out: (Source, Ytdlp.Downloaded))
    ensures src.provider.Some? ==> out.0 == src
    ensures src.provider.None? && Resolve(src.url, host, reg, "no provider found").Err? ==>
      out == (src, Ytdlp.Downloaded([], Err(Resolve(src.url, host, reg, "no provider found").msg)))
    ensures src.provider.None? && Resolve(src.url, host, reg, "no provider found").Ok? ==>
      out.0 == src.(provider := Some(Resolve(src.url, host, reg, "no provider found").value))
    ensures out.0.provider.Some? && stat.Err? ==> out.1 == Ytdlp.Downloaded([], Err(stat.msg))
    ensures out.0.provider.Some? && stat.Ok? ==> out.1 == Ytdlp.Download(out.0.provider.value, run)
    ensures out.0.url == src.url && out.0.id == src.id
  {
    var p := match src.provider
             case Some(p) => Ok(p)
             case None => Resolve(src.url, host, reg, "no provider found");
    match p
    case Err(e) => (src, Ytdlp.Downloaded([], Err(e)))
    case Ok(prov) =>
      var src' := src.(provider := Some(prov));
      if stat.Err? then (src', Ytdlp.Downloaded([], Err(stat.msg)))
      else (src', Ytdlp.Download(prov, run))
  }

  /** When the stat fails the provider is never run: the outcome does not
      depend on what the run would have done. */
  lemma StatGuard(src: Source, host: Result<string>, reg: ProviderRegistry.Registry<Ytdlp.Ctor>,
                  e: string, run1: Ytdlp.ProcRun, run2: Ytdlp.ProcRun)
    ensures Download(src, host, reg, Err(e), run1) == Download(src, host, reg, Err(e), run2)
    ensures Download(src, host, reg, Err(e), run1).1.progress == []
  {
  }

  /** Lazy resolution agrees with eager resolution: a provider-less source
      that resolves a provider downloads as the same source built with that
      provider would, and the domain and registry are not consulted again. */
  lemma LazyIsEager(src: Source, host: Result<string>, reg: ProviderRegistry.Registry<Ytdlp.Ctor>,
                    host': Result<string>, reg': ProviderRegistry.Registry<Ytdlp.Ctor>,
                    stat: Result<()>, run: Ytdlp.ProcRun)
    requires src.provider.None? && Resolve(src.url, host, reg, "no provider found").Ok?
    ensures var p := Resolve(src.url, host, reg, "no provider found").value;
      Download(src, host, reg, stat, run) == Download(src.(provider := Some(p)), host', reg', stat, run)
  {
  }
}

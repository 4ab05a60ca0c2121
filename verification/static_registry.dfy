/** The fixed domain table of internal/provider/registry/registry.go: both
    YouTube domains map to the `yt` provider's `New`. The table has no
    mutation operation, so it is a constant. */
module StaticRegistry {
  import opened Results
  import Text
  import opened Models
  import Yt

  /** The only constructor the table holds, `yt.New`. */
  datatype Ctor = YtNew

  const Table: map<string, Ctor> := map["youtube.com" := YtNew, "youtu.be" := YtNew]

  /** `Get`: exact lookup, nothing (Go's nil) for every other name. */
  function Get(name: string): (r: Option<Ctor>)
    ensures r.Some? <==> name == "youtube.com" || name == "youtu.be"
    ensures r.Some? ==> r.value == YtNew
  {
    if name in Table then Some(Table[name]) else None
  }

  /** Calls the constructor on a URL. `yt.New` takes video metadata; the
      URL is the only field set. */
  function Construct(c: Ctor, url: string): (r: Result<Yt.Yt>)
    ensures r.Ok? <==> Text.Contains(url, "youtube.com") && Text.Contains(url, "v=")
  {
    match c
    case YtNew => Yt.New(Yt.VideoMetadata(NilUuid, url, "", "", ""))
  }

  /** The table accepts youtu.be, but the constructor it maps to demands
      youtube.com, so a youtu.be link never yields a provider. */
  lemma ShortLinksRejected(url: string)
    requires !Text.Contains(url, "youtube.com")
    ensures Get("youtu.be").Some? && Construct(Get("youtu.be").value, url).Err?
  {
  }

  /** No normalisation: the www. and m. hosts are not in the table. */
  lemma HostsNotNormalised(www: string, mobile: string)
    requires www == "www.youtube.com" && mobile == "m.youtube.com"
    ensures Get(www).None? && Get(mobile).None?
  {
  }
}

/** Video ids in YouTube watch URLs. Both providers carry the same two
    helpers: `extractYTVideoID`/`extractVideoID`, which take the text after
    the first `v=` up to the next `v=` or `&`, and `yturl`/`url`, which build
    the canonical watch URL. They differ only in the wording of the error. */
module VideoIds {
  import opened Results
  import Text

  const WatchPrefix: string := "https://www.youtube.com/watch?v="

  /** The part of the watch prefix in front of its `v=`. */
  const WatchHost: string := "https://www.youtube.com/watch?"

  /** `yturl` / `url`. */
  function WatchUrl(id: string): (u: string)
    ensures u == WatchHost + "v=" + id
  {
    WatchPrefix + id
  }

  /** The shared body of `extractYTVideoID` and `extractVideoID`:
      `strings.Split(strings.Split(url, "v=")[1], "&")[0]` when the URL
      contains `v=`, and nothing otherwise. */
  function Extract(url: string): (r: Option<string>)
    ensures r.None? <==> !Text.Contains(url, "v=")
    ensures r.Some? ==> !Text.Contains(r.value, "&") && !Text.Contains(r.value, "v=")
    ensures r.Some? ==>
      var rest := url[Text.Index(url, "v=").value + 2..];
      && r.value <= rest
      && (r.value == rest || Text.OccursAt(rest, "&", |r.value|) || Text.OccursAt(rest, "v=", |r.value|))
  {
    if Text.Contains(url, "v=") then
      var parts := Text.Split(url, "v=");
      Text.SplitSingleIff(url, "v=");
      var id := Text.Split(parts[1], "&")[0];
      ExtractShape(url);
      Some(id)
    else
      None
  }

  lemma ExtractShape(url: string)
    requires Text.Contains(url, "v=")
    ensures |Text.Split(url, "v=")| >= 2
    ensures
      var rest := url[Text.Index(url, "v=").value + 2..];
      var id := Text.Split(Text.Split(url, "v=")[1], "&")[0];
      && !Text.Contains(id, "&") && !Text.Contains(id, "v=")
      && id <= rest
      && (id == rest || Text.OccursAt(rest, "&", |id|) || Text.OccursAt(rest, "v=", |id|))
  {
    Text.SplitSingleIff(url, "v=");
    Text.SplitHead(url, "v=");
    var rest := url[Text.Index(url, "v=").value + 2..];
    var p := Text.Split(url, "v=")[1];
    assert p == Text.Split(rest, "v=")[0];
    Text.SplitHeadShape(rest, "v=");
    Text.SplitHeadShape(p, "&");
    var id := Text.Split(p, "&")[0];
    Text.PrefixNotContains(p, "v=", |id|);
    assert p[..|id|] == id;
    if id != p {
      Text.OccursInPrefix(p, rest, "&", |id|);
    }
  }

  /** Round trip: the id of the canonical watch URL of an id is that id,
      for every id the extraction can return. */
  lemma ExtractWatchUrl(id: string)
    requires !Text.Contains(id, "&") && !Text.Contains(id, "v=")
    ensures Extract(WatchUrl(id)) == Some(id)
  {
    assert 'v' !in WatchHost;
    Text.IndexAfterNoLead(WatchHost, "v=", id);
    Text.SplitSingleIff(id, "v=");
    Text.SplitSingleIff(id, "&");
    Text.SplitHead(id, "v=");
    Text.SplitHead(id, "&");
  }

  /** The canonical watch URL determines the id. */
  lemma WatchUrlInjective(a: string, b: string)
    requires WatchUrl(a) == WatchUrl(b)
    ensures a == b
  {
    assert a == WatchUrl(a)[|WatchPrefix|..];
  }

  /** Extraction from `a + "v=" + b` when no `v` precedes the `v=`. */
  lemma ExtractAfter(a: string, b: string)
    requires 'v' !in a
    ensures Extract(a + "v=" + b) == Some(Text.Split(Text.Split(b, "v=")[0], "&")[0])
  {
    Text.IndexAfterNoLead(a, "v=", b);
    assert Text.OccursAt(a + "v=" + b, "v=", |a|);
  }

  /** Extraction from `a + "v=" + id` when neither `a` nor `id` holds a
      `v` and `id` holds no `&`. */
  lemma ExtractPlain(url: string, a: string, id: string)
    requires url == a + "v=" + id
    requires 'v' !in a && 'v' !in id && '&' !in id
    ensures Extract(url) == Some(id)
  {
    Text.SplitNoLead(id, "v=");
    Text.SplitNoLead(id, "&");
    ExtractAfter(a, id);
  }

  /** Extraction from `a + "v=" + id + "&" + tail`. */
  lemma ExtractWithTail(url: string, a: string, id: string, tail: string)
    requires url == a + "v=" + id + "&" + tail
    requires 'v' !in a && 'v' !in id && 'v' !in tail && '&' !in id
    ensures Extract(url) == Some(id)
  {
    var b := id + "&" + tail;
    assert url == a + "v=" + b;
    Text.SplitNoLead(b, "v=");
    Text.IndexAfterNoLead(id, "&", tail);
    ExtractAfter(a, b);
  }
}

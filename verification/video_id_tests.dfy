/** The unit test table of `extractVideoID` (internal/provider/yt/yt_test.go),
    stated over the model of the extraction. */
module VideoIdTests {
  import opened Results
  import Text
  import opened VideoIds

  /** Rows of the unit test table of `extractVideoID`, one lemma each: the
      URL is a parameter fixed by the precondition. */
  lemma RowStandard(url: string)
    requires url == "https://www.youtube.com/watch?v=dQw4w9WgXcQ"
    ensures Extract(url) == Some("dQw4w9WgXcQ")
  {
    ExtractPlain(url, "https://www.youtube.com/watch?", "dQw4w9WgXcQ");
  }

  lemma RowShortened(url: string)
    requires url == "https://youtu.be/dQw4w9WgXcQ"
    ensures Extract(url).None?
  {
    Text.NoLeadNotContains(url, "v=");
  }

  lemma RowEmbed(url: string)
    requires url == "https://www.youtube.com/embed/dQw4w9WgXcQ"
    ensures Extract(url).None?
  {
    Text.NoLeadNotContains(url, "v=");
  }

  lemma RowForeignDomain(url: string)
    requires url == "https://www.example.com/watch?v=dQw4w9WgXcQ"
    ensures Extract(url) == Some("dQw4w9WgXcQ")
  {
    ExtractPlain(url, "https://www.example.com/watch?", "dQw4w9WgXcQ");
  }

  lemma RowNoId(url: string)
    requires url == "https://www.youtube.com/watch"
    ensures Extract(url).None?
  {
    Text.NoLeadNotContains(url, "v=");
  }

  lemma RowEmpty(url: string)
    requires url == ""
    ensures Extract(url).None?
  {
    Text.NoLeadNotContains(url, "v=");
  }

  lemma RowExtraParameter(url: string)
    requires url == "https://www.youtube.com/watch?v=dQw4w9WgXcQ&t=42s"
    ensures Extract(url) == Some("dQw4w9WgXcQ")
  {
    ExtractWithTail(url, "https://www.youtube.com/watch?", "dQw4w9WgXcQ", "t=42s");
  }

  /** The URL is given in pieces around its `v=` and `&`. */
  lemma RowReordered(url: string, a: string, id: string, tail: string)
    requires a == "https://www.youtube.com/watch?t=42s&" && id == "dQw4w9WgXcQ"
    requires tail == "ab_channel=RickAstley"
    requires url == a + "v=" + id + "&" + tail
    ensures Extract(url) == Some("dQw4w9WgXcQ")
  {
    assert 'v' !in a;
    assert 'v' !in tail;
    ExtractWithTail(url, a, id, tail);
  }

  lemma RowMobile(url: string)
    requires url == "https://m.youtube.com/watch?v=dQw4w9WgXcQ"
    ensures Extract(url) == Some("dQw4w9WgXcQ")
  {
    ExtractPlain(url, "https://m.youtube.com/watch?", "dQw4w9WgXcQ");
  }

  /** The URL is given in pieces around its `v=` and `&`. */
  lemma RowList(url: string, a: string, id: string, tail: string)
    requires a == "https://www.youtube.com/watch?" && id == "dQw4w9WgXcQ"
    requires tail == "list=PL1234567890"
    requires url == a + "v=" + id + "&" + tail
    ensures Extract(url) == Some("dQw4w9WgXcQ")
  {
    assert 'v' !in a;
    assert 'v' !in tail;
    ExtractWithTail(url, a, id, tail);
  }

  /** The unit test table of `extractVideoID`: the rows that expect the id
      get it (the domain is not checked, and the id need not be the first
      parameter), the rows that expect an error get none (shortened and
      embed URLs are not supported). The URLs with a parameter after the id
      are written in pieces around their `v=` and `&`. */
  lemma ExtractTestTable(standard: string, shortened: string, embed: string, foreign: string,
                         noId: string, empty: string, extra: string,
                         mobile: string, list: string, reordered: string)
    requires standard == "https://www.youtube.com/watch?v=dQw4w9WgXcQ"
    requires shortened == "https://youtu.be/dQw4w9WgXcQ"
    requires embed == "https://www.youtube.com/embed/dQw4w9WgXcQ"
    requires foreign == "https://www.example.com/watch?v=dQw4w9WgXcQ"
    requires noId == "https://www.youtube.com/watch"
    requires empty == ""
    requires extra == "https://www.youtube.com/watch?v=dQw4w9WgXcQ&t=42s"
    requires mobile == "https://m.youtube.com/watch?v=dQw4w9WgXcQ"
    requires list == "https://www.youtube.com/watch?" + "v=" + "dQw4w9WgXcQ" + "&" + "list=PL1234567890"
    requires reordered == "https://www.youtube.com/watch?t=42s&" + "v=" + "dQw4w9WgXcQ" + "&" + "ab_channel=RickAstley"
    ensures Extract(standard) == Some("dQw4w9WgXcQ")
    ensures Extract(shortened).None?
    ensures Extract(embed).None?
    ensures Extract(foreign) == Some("dQw4w9WgXcQ")
    ensures Extract(noId).None?
    ensures Extract(empty).None?
    ensures Extract(extra) == Some("dQw4w9WgXcQ")
    ensures Extract(mobile) == Some("dQw4w9WgXcQ")
    ensures Extract(list) == Some("dQw4w9WgXcQ")
    ensures Extract(reordered) == Some("dQw4w9WgXcQ")
  {
    RowStandard(standard);
    RowShortened(shortened);
    RowEmbed(embed);
    RowForeignDomain(foreign);
    RowNoId(noId);
    RowEmpty(empty);
    RowExtraParameter(extra);
    RowMobile(mobile);
    RowList(list, "https://www.youtube.com/watch?", "dQw4w9WgXcQ", "list=PL1234567890");
    RowReordered(reordered, "https://www.youtube.com/watch?t=42s&", "dQw4w9WgXcQ", "ab_channel=RickAstley");
  }
}

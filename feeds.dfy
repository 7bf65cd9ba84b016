/** The source registry and the fetching half of the pipeline: each feed's entries become
    article records, and the sources' article lists are concatenated in registry order.
    The HTTP request and the feed parser are outside the model: what they deliver for one
    source is a `FetchOutcome`, and HTML stripping is the parameter `stripHtml`. */
module Feeds {
  import opened Wrappers
  import opened Text

  /** A configured feed endpoint. */
  datatype Source = Source(name: string, url: string, kind: string)

  /** The registry, in the order the sources are fetched. */
  const Sources: seq<Source> := [
    Source("GitHub Blog", "https://github.blog/feed/", "rss"),
    Source("GitHub Changelog " + Dash + " Copilot", "https://github.blog/changelog/label/copilot/feed/", "rss"),
    Source("GitHub Changelog " + Dash + " Actions", "https://github.blog/changelog/label/github-actions/feed/", "rss"),
    Source("OpenAI News", "https://openai.com/news/rss.xml", "rss"),
    Source("Anthropic News", "https://www.anthropic.com/rss.xml", "rss"),
    Source("Google DeepMind Blog", "https://deepmind.google/blog/rss.xml", "rss"),
    Source("Microsoft AI Blog", "https://blogs.microsoft.com/ai/feed/", "rss"),
    Source("HuggingFace Blog", "https://huggingface.co/blog/feed.xml", "rss")
  ]

  /** The value of MAX_ARTICLES_PER_SOURCE when the environment does not set it. */
  const DefaultMaxArticlesPerSource: int := 5

  /** The length a stored summary is cut to. */
  const SummaryCap: nat := 500

  /** One entry as the feed parser hands it over; any field may be absent. */
  datatype Entry = Entry(
    title: Option<string>,
    link: Option<string>,
    summary: Option<string>,
    published: Option<string>)

  /** A normalised article record. */
  datatype Article = Article(
    source: string,
    title: string,
    url: string,
    summary: string,
    published: string)

  /** What requesting and parsing one feed gave: its entries in feed order, or a failure of
      any kind (network error, non-success status, unparsable feed). */
  datatype FetchOutcome = Ok(entries: seq<Entry>) | Failed

  /** The stored summary: HTML-stripped, then cut to `SummaryCap` characters (a plain cut,
      no ellipsis); an absent or empty summary stays empty. */
  function NormaliseSummary(raw: string, stripHtml: string -> string): (summary: string)
    ensures |summary| <= SummaryCap
    ensures raw == "" ==> summary == ""
    ensures raw != "" ==> summary <= stripHtml(raw)
    ensures raw != "" ==> |summary| == Min(|stripHtml(raw)|, SummaryCap)
  {
    var text := if raw != "" then stripHtml(raw) else raw;
    if text != "" then SliceTo(text, SummaryCap) else ""
  }

  /** The record one entry of `source` becomes. */
  function Normalise(source: Source, entry: Entry, stripHtml: string -> string): (a: Article)
    ensures a.source == source.name
    ensures a.title == Strip(entry.title.GetOr("")) && Trimmed(a.title)
    ensures entry.link.None? ==> a.url == ""
    ensures entry.link.Some? ==> a.url == entry.link.value
    ensures a.summary == NormaliseSummary(entry.summary.GetOr(""), stripHtml)
    ensures entry.published.None? ==> a.published == ""
    ensures entry.published.Some? ==> a.published == entry.published.value
  {
    Article(
      source.name,
      Strip(entry.title.GetOr("")),
      entry.link.GetOr(""),
      NormaliseSummary(entry.summary.GetOr(""), stripHtml),
      entry.published.GetOr(""))
  }

  function NormaliseAll(source: Source, entries: seq<Entry>, stripHtml: string -> string): seq<Article> {
    seq(|entries|, i requires 0 <= i < |entries| => Normalise(source, entries[i], stripHtml))
  }

  lemma NormaliseAllPointwise(source: Source, entries: seq<Entry>, stripHtml: string -> string, articles: seq<Article>)
    requires |articles| == |entries|
    requires forall j :: 0 <= j < |entries| ==> articles[j] == Normalise(source, entries[j], stripHtml)
    ensures articles == NormaliseAll(source, entries, stripHtml)
  {
  }

  /** The articles one source contributes: its first `cap` entries, normalised, or nothing
      when the fetch failed. */
  function FeedArticles(source: Source, outcome: FetchOutcome, cap: int, stripHtml: string -> string): seq<Article> {
    match outcome
    case Failed => []
    case Ok(entries) => NormaliseAll(source, SliceTo(entries, cap), stripHtml)
  }

  /** A source keeps exactly its first `cap` entries, in feed order, each normalised. */
  lemma FeedKeepsFirstEntries(source: Source, entries: seq<Entry>, cap: int, stripHtml: string -> string)
    requires cap >= 0
    ensures var articles := FeedArticles(source, Ok(entries), cap, stripHtml);
      && |articles| == Min(cap, |entries|)
      && forall i :: 0 <= i < |articles| ==> articles[i] == Normalise(source, entries[i], stripHtml)
  {
  }

  /** A negative cap, which the configuration does not rule out, drops that many entries from
      the end of the feed, as Python's slice does. */
  lemma FeedNegativeCap(source: Source, entries: seq<Entry>, cap: int, stripHtml: string -> string)
    requires cap < 0
    ensures var articles := FeedArticles(source, Ok(entries), cap, stripHtml);
      && |articles| == Max(0, |entries| + cap)
      && forall i :: 0 <= i < |articles| ==> articles[i] == Normalise(source, entries[i], stripHtml)
  {
  }

  /** Every article a source contributes carries the source's name, a stripped title and a
      summary of at most `SummaryCap` characters. */
  lemma FeedArticleFields(source: Source, outcome: FetchOutcome, cap: int, stripHtml: string -> string)
    ensures var articles := FeedArticles(source, outcome, cap, stripHtml);
      forall a :: a in articles ==> a.source == source.name && Trimmed(a.title) && |a.summary| <= SummaryCap
  {
  }

  /** The body of the loop over a feed's entries: the entry's fields are read with their
      defaults, the summary is HTML-stripped when non-empty and then cut. */
  method NormaliseEntry(source: Source, entry: Entry, stripHtml: string -> string) returns (article: Article)
    ensures article == Normalise(source, entry, stripHtml)
  {
    var summary := entry.summary.GetOr("");
    if summary != "" {
      summary := stripHtml(summary);
    }
    article := Article(
      source.name,
      Strip(entry.title.GetOr("")),
      entry.link.GetOr(""),
      if summary != "" then SliceTo(summary, SummaryCap) else "",
      entry.published.GetOr(""));
  }

  /** The fetch of one source, after the HTTP request: any failure gives the empty list;
      otherwise the first `cap` entries are normalised in feed order. */
  method FetchRss(source: Source, outcome: FetchOutcome, cap: int, stripHtml: string -> string)
    returns (articles: seq<Article>)
    ensures outcome.Failed? ==> articles == []
    ensures outcome.Ok? ==> articles == NormaliseAll(source, SliceTo(outcome.entries, cap), stripHtml)
  {
    match outcome
    case Failed =>
      articles := [];
    case Ok(entries) =>
      var taken := SliceTo(entries, cap);
      articles := [];
      for i := 0 to |taken|
        invariant |articles| == i
        invariant forall j :: 0 <= j < i ==> articles[j] == Normalise(source, taken[j], stripHtml)
      {
        var article := NormaliseEntry(source, taken[i], stripHtml);
        articles := articles + [article];
      }
      NormaliseAllPointwise(source, taken, stripHtml, articles);
  }

  /** Each source's articles, in registry order. */
  function Contributions(sources: seq<Source>, outcomes: seq<FetchOutcome>, cap: int, stripHtml: string -> string): (c: seq<seq<Article>>)
    requires |outcomes| == |sources|
    ensures |c| == |sources|
  {
    seq(|sources|, i requires 0 <= i < |sources| => FeedArticles(sources[i], outcomes[i], cap, stripHtml))
  }

  /** All sources' articles: the per-source lists concatenated in registry order. */
  function Aggregate(sources: seq<Source>, outcomes: seq<FetchOutcome>, cap: int, stripHtml: string -> string): seq<Article>
    requires |outcomes| == |sources|
  {
    Flatten(Contributions(sources, outcomes, cap, stripHtml))
  }

  /** Fetching every source in turn and extending one list with each source's articles. */
  method FetchAllArticles(sources: seq<Source>, outcomes: seq<FetchOutcome>, cap: int, stripHtml: string -> string)
    returns (all: seq<Article>)
    requires |outcomes| == |sources|
    ensures all == Aggregate(sources, outcomes, cap, stripHtml)
  {
    ghost var c := Contributions(sources, outcomes, cap, stripHtml);
    all := [];
    for i := 0 to |sources|
      invariant all == Flatten(c[..i])
    {
      var articles := FetchRss(sources[i], outcomes[i], cap, stripHtml);
      FlattenAppend(c[..i], [c[i]]);
      assert c[..i + 1] == c[..i] + [c[i]];
      all := all + articles;
    }
    assert c[..|sources|] == c;
  }

  lemma ContributionsSlice(sources: seq<Source>, outcomes: seq<FetchOutcome>, cap: int, stripHtml: string -> string, k: nat)
    requires |outcomes| == |sources| && k <= |sources|
    ensures Contributions(sources[..k], outcomes[..k], cap, stripHtml)
         == Contributions(sources, outcomes, cap, stripHtml)[..k]
    ensures Contributions(sources[k..], outcomes[k..], cap, stripHtml)
         == Contributions(sources, outcomes, cap, stripHtml)[k..]
  {
  }

  /** The aggregated list is the articles of the sources before `k`, then those of source
      `k`, then those of the sources after it. */
  lemma {:induction false} AggregateSplit(sources: seq<Source>, outcomes: seq<FetchOutcome>, cap: int, stripHtml: string -> string, k: nat)
    requires |outcomes| == |sources| && k < |sources|
    ensures Aggregate(sources, outcomes, cap, stripHtml)
         == Aggregate(sources[..k], outcomes[..k], cap, stripHtml)
          + FeedArticles(sources[k], outcomes[k], cap, stripHtml)
          + Aggregate(sources[k + 1..], outcomes[k + 1..], cap, stripHtml)
  {
    var c := Contributions(sources, outcomes, cap, stripHtml);
    FlattenSplit(c, k);
    ContributionsSlice(sources, outcomes, cap, stripHtml, k);
    ContributionsSlice(sources, outcomes, cap, stripHtml, k + 1);
  }

  /** Failure isolation: when source `k` fails, it contributes nothing, and the articles of
      every other source are exactly those they contribute whatever source `k` does. */
  lemma {:induction false} FailureIsolation(sources: seq<Source>, outcomes: seq<FetchOutcome>, cap: int, stripHtml: string -> string, k: nat)
    requires |outcomes| == |sources| && k < |sources|
    ensures Aggregate(sources, outcomes[k := Failed], cap, stripHtml)
         == Aggregate(sources[..k], outcomes[..k], cap, stripHtml)
          + Aggregate(sources[k + 1..], outcomes[k + 1..], cap, stripHtml)
  {
    var failed := outcomes[k := Failed];
    var before := Aggregate(sources[..k], outcomes[..k], cap, stripHtml);
    var after := Aggregate(sources[k + 1..], outcomes[k + 1..], cap, stripHtml);
    assert Aggregate(sources[..k], failed[..k], cap, stripHtml) == before by {
      assert failed[..k] == outcomes[..k];
    }
    assert Aggregate(sources[k + 1..], failed[k + 1..], cap, stripHtml) == after by {
      assert failed[k + 1..] == outcomes[k + 1..];
    }
    assert FeedArticles(sources[k], failed[k], cap, stripHtml) == [];
    AggregateSplit(sources, failed, cap, stripHtml, k);
    assert before + [] + after == before + after by {
      assert before + [] == before;
    }
  }

  /** The number of articles is the sum of what the sources contribute, and with a
      non-negative cap at most `cap` per source. */
  lemma {:induction false} AggregateLength(sources: seq<Source>, outcomes: seq<FetchOutcome>, cap: int, stripHtml: string -> string)
    requires |outcomes| == |sources|
    ensures |Aggregate(sources, outcomes, cap, stripHtml)| == SumLengths(Contributions(sources, outcomes, cap, stripHtml))
    ensures cap >= 0 ==> |Aggregate(sources, outcomes, cap, stripHtml)| <= cap * |sources|
  {
    var c := Contributions(sources, outcomes, cap, stripHtml);
    FlattenLength(c);
    if cap >= 0 {
      SumLengthsBound(c, cap);
    }
  }

  lemma {:induction false} SumLengthsBound(c: seq<seq<Article>>, cap: nat)
    requires forall i :: 0 <= i < |c| ==> |c[i]| <= cap
    ensures SumLengths(c) <= cap * |c|
  {
    if c != [] {
      SumLengthsBound(c[1..], cap);
      assert cap * |c| == cap + cap * |c[1..]|;
    }
  }

  /** The run has no articles exactly when no source contributes one. */
  lemma {:induction false} AggregateEmpty(sources: seq<Source>, outcomes: seq<FetchOutcome>, cap: int, stripHtml: string -> string)
    requires |outcomes| == |sources|
    ensures Aggregate(sources, outcomes, cap, stripHtml) == []
        <==> forall i :: 0 <= i < |sources| ==> FeedArticles(sources[i], outcomes[i], cap, stripHtml) == []
  {
    var c := Contributions(sources, outcomes, cap, stripHtml);
    FlattenEmpty(c);
    assert forall i :: 0 <= i < |sources| ==> c[i] == FeedArticles(sources[i], outcomes[i], cap, stripHtml);
  }

  /** When every source fails there are no articles. */
  lemma AllFailedMeansNoArticles(sources: seq<Source>, outcomes: seq<FetchOutcome>, cap: int, stripHtml: string -> string)
    requires |outcomes| == |sources|
    requires forall i :: 0 <= i < |outcomes| ==> outcomes[i] == Failed
    ensures Aggregate(sources, outcomes, cap, stripHtml) == []
  {
    AggregateEmpty(sources, outcomes, cap, stripHtml);
  }

  /** One source with at least one entry and a positive cap is enough for the run to have
      articles, whatever the other sources do. */
  lemma {:induction false} OneSourceSuffices(sources: seq<Source>, outcomes: seq<FetchOutcome>, cap: int, stripHtml: string -> string, k: nat)
    requires |outcomes| == |sources| && k < |sources|
    requires cap > 0 && outcomes[k].Ok? && outcomes[k].entries != []
    ensures Aggregate(sources, outcomes, cap, stripHtml) != []
  {
    AggregateEmpty(sources, outcomes, cap, stripHtml);
    assert FeedArticles(sources[k], outcomes[k], cap, stripHtml) != [];
  }

  /** Every aggregated article comes from a registry source, carries its name, and has a
      summary within the cap. */
  lemma {:induction false} AggregateProvenance(sources: seq<Source>, outcomes: seq<FetchOutcome>, cap: int, stripHtml: string -> string, a: Article)
    requires |outcomes| == |sources|
    requires a in Aggregate(sources, outcomes, cap, stripHtml)
    ensures exists i :: 0 <= i < |sources| && a.source == sources[i].name
    ensures Trimmed(a.title) && |a.summary| <= SummaryCap
  {
    var c := Contributions(sources, outcomes, cap, stripHtml);
    var i := FlattenMember(c, a);
    FeedArticleFields(sources[i], outcomes[i], cap, stripHtml);
  }

  lemma {:induction false} FlattenMember<T>(xss: seq<seq<T>>, x: T) returns (i: nat)
    requires x in Flatten(xss)
    ensures i < |xss| && x in xss[i]
  {
    if x in xss[0] {
      i := 0;
    } else {
      var j := FlattenMember(xss[1..], x);
      i := j + 1;
    }
  }

  /** Source names in the registry are distinct. */
  lemma SourceNamesUnique()
    ensures forall i, j :: 0 <= i < j < |Sources| ==> Sources[i].name != Sources[j].name
  {
    assert Sources[1].name[21] == 'C' && Sources[2].name[21] == 'A';
    assert Sources[0].name[0] == 'G' && Sources[3].name[0] == 'O';
  }
}

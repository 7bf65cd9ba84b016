/** The prompt sent to the language model: a fixed instruction preamble that embeds the date,
    then one numbered block per article, blocks separated by a blank line. */
module Prompt {
  import opened Text
  import opened Decimal
  import opened Feeds

  const SourceLabel := "] Source: "
  const TitleLabel := "    Title: "
  const UrlLabel := "    URL: "
  const SummaryLabel := "    Summary: "
  const PublishedLabel := "    Published: "

  /** The label `[n]` that opens the block of the `n`-th article. */
  function Number(n: nat): string {
    "[" + NatToString(n) + "]"
  }

  /** The lines of the block for article number `index`. */
  function ArticleLines(index: nat, a: Article): seq<string> {
    ["[" + NatToString(index) + SourceLabel + a.source, TitleLabel + a.title, UrlLabel + a.url]
    + (if a.summary != "" then [SummaryLabel + a.summary] else [])
    + (if a.published != "" then [PublishedLabel + a.published] else [])
  }

  /** The block for article number `index`: its lines joined by line breaks. */
  function Block(index: nat, a: Article): string {
    Join("\n", ArticleLines(index, a))
  }

  /** One block per article, numbered from 1 in input order. */
  function Blocks(articles: seq<Article>): (blocks: seq<string>)
    ensures |blocks| == |articles|
  {
    seq(|articles|, k requires 0 <= k < |articles| => Block(k + 1, articles[k]))
  }

  /** The articles part of the prompt: the blocks separated by blank lines. */
  function ArticlesBlock(articles: seq<Article>): string {
    Join("\n\n", Blocks(articles))
  }

  /** The instruction text before the date. */
  const PreambleHead: string := "You are an expert AI and developer-tools journalist.\n\nToday is "

  /** The instruction lines between the date and the articles. */
  const InstructionLines: seq<string> := [
    "Below is a list of recent articles from GitHub blogs and AI news pages.",
    "Your task is to write a concise, well-structured daily newsletter in",
    "Markdown format that:",
    "",
    "1. Starts with a short \"Today's Highlights\" paragraph (2-4 sentences)",
    "   summarizing the most important themes.",
    "2. Groups articles into thematic sections (e.g. \"GitHub & Copilot\",",
    "   \"Foundation Models\", \"AI Agents & Tooling\", \"Research\", \"Other\").",
    "3. For each article, writes a 1-3 sentence analysis explaining *why*",
    "   it matters for AI agent developers and what to watch.",
    "4. Ends with a \"Key Takeaways\" bullet list (3-5 bullets).",
    "",
    "Use proper Markdown: headings, bullet points, and hyperlinks.",
    "Do NOT invent facts " + Dash + " only use information from the articles provided.",
    "If an article is not relevant to AI or developer tooling, skip it.",
    "",
    "---",
    "",
    "ARTICLES:",
    ""
  ]

  /** The instruction text after the date, up to the articles. */
  function PreambleTail(): string {
    ".\n\n" + Join("\n", InstructionLines) + "\n"
  }

  /** The instruction text before the articles, embedding the long-form date. */
  function Preamble(today: string): string {
    PreambleHead + today + PreambleTail()
  }

  /** The text after the articles. */
  const Closing := "\n"

  /** The whole prompt. */
  function PromptText(articles: seq<Article>, today: string): string {
    Preamble(today) + ArticlesBlock(articles) + Closing
  }

  /** Rendering the prompt: one block per article, built line by line, then the blocks joined
      and placed after the preamble. */
  method BuildPrompt(articles: seq<Article>, today: string) returns (prompt: string)
    ensures prompt == PromptText(articles, today)
  {
    var articleLines: seq<string> := [];
    for i := 0 to |articles|
      invariant |articleLines| == i
      invariant forall j :: 0 <= j < i ==> articleLines[j] == Block(j + 1, articles[j])
    {
      var article := articles[i];
      var lines := [
        "[" + NatToString(i + 1) + SourceLabel + article.source,
        TitleLabel + article.title,
        UrlLabel + article.url];
      if article.summary != "" {
        lines := lines + [SummaryLabel + article.summary];
      }
      if article.published != "" {
        lines := lines + [PublishedLabel + article.published];
      }
      assert lines == ArticleLines(i + 1, article);
      articleLines := articleLines + [Join("\n", lines)];
    }
    BlocksPointwise(articles, articleLines);
    var articlesBlock := Join("\n\n", articleLines);
    prompt := Preamble(today) + articlesBlock + Closing;
  }

  lemma BlocksPointwise(articles: seq<Article>, blocks: seq<string>)
    requires |blocks| == |articles|
    requires forall j :: 0 <= j < |articles| ==> blocks[j] == Block(j + 1, articles[j])
    ensures blocks == Blocks(articles)
  {
  }

  /** A block has the `Source`, `Title` and `URL` lines, in that order; then a `Summary` line
      exactly when the summary is non-empty, and last a `Published` line exactly when the
      timestamp is non-empty. Each field is embedded as stored, the summary uncut. */
  lemma ArticleLinesShape(index: nat, a: Article)
    ensures var lines := ArticleLines(index, a);
      && |lines| == 3 + (if a.summary != "" then 1 else 0) + (if a.published != "" then 1 else 0)
      && lines[0] == Number(index) + SourceLabel[1..] + a.source
      && lines[1] == TitleLabel + a.title
      && lines[2] == UrlLabel + a.url
      && (a.summary != "" ==> lines[3] == SummaryLabel + a.summary)
      && (a.published != "" ==> lines[|lines| - 1] == PublishedLabel + a.published)
      && ((exists j :: 0 <= j < |lines| && SummaryLabel <= lines[j]) <==> a.summary != "")
      && ((exists j :: 0 <= j < |lines| && PublishedLabel <= lines[j]) <==> a.published != "")
  {
    var lines := ArticleLines(index, a);
    assert lines[0][0] == '[';
    assert lines[1][4] == 'T' && lines[2][4] == 'U';
    if a.summary != "" {
      assert lines[3][4] == 'S';
      assert SummaryLabel <= lines[3];
    }
    if a.published != "" {
      assert lines[|lines| - 1][4] == 'P';
      assert PublishedLabel <= lines[|lines| - 1];
    }
    assert "[" + NatToString(index) + SourceLabel + a.source == Number(index) + SourceLabel[1..] + a.source;
  }

  /** Block `k` of the prompt opens with the label `[k+1]` and the article's source. */
  lemma BlockOpensWithNumber(articles: seq<Article>, k: nat)
    requires k < |articles|
    ensures OccursAt(Number(k + 1) + SourceLabel[1..] + articles[k].source, Blocks(articles)[k], 0)
  {
    var lines := ArticleLines(k + 1, articles[k]);
    ArticleLinesShape(k + 1, articles[k]);
    JoinAt("\n", lines, 0);
  }

  /** The numbers of different blocks differ, so the labels `[1]` ... `[n]` are all distinct. */
  lemma NumbersDistinct(j: nat, k: nat)
    requires j != k
    ensures Number(j) != Number(k)
  {
    NatToStringInjective(j, k);
    assert Number(j)[1..|Number(j)| - 1] == NatToString(j);
    assert Number(k)[1..|Number(k)| - 1] == NatToString(k);
  }

  /** The prompt is the preamble, then block 1, a blank line, block 2, ..., block n, then the
      closing text: block `k` sits at its offset and, unless it is the last, is followed by
      exactly the separator `"\n\n"`. */
  lemma {:induction false} PromptLayout(articles: seq<Article>, today: string, k: nat)
    requires k < |articles|
    ensures var blocks := Blocks(articles);
      var at := |Preamble(today)| + Offset("\n\n", blocks, k);
      && OccursAt(blocks[k], PromptText(articles, today), at)
      && (k + 1 < |articles| ==> OccursAt("\n\n", PromptText(articles, today), at + |blocks[k]|))
      && (k + 1 == |articles| ==> PromptText(articles, today)[at + |blocks[k]|..] == Closing)
  {
    JoinFramedAt(Preamble(today), "\n\n", Blocks(articles), Closing, k);
  }

  /** The summary line of a block, when there is one, is the fourth line. */
  lemma SummaryLineInBlock(index: nat, a: Article)
    requires a.summary != ""
    ensures var lines := ArticleLines(index, a);
      |lines| > 3 && OccursAt(SummaryLabel + a.summary, Block(index, a), Offset("\n", lines, 3))
  {
    var lines := ArticleLines(index, a);
    assert lines[3] == SummaryLabel + a.summary;
    JoinAt("\n", lines, 3);
  }

  /** The summary goes into the prompt whole: no length cap applies between the stored
      article and the prompt. */
  lemma {:induction false} SummaryVerbatim(articles: seq<Article>, today: string, k: nat)
    requires k < |articles| && articles[k].summary != ""
    ensures Contains(PromptText(articles, today), SummaryLabel + articles[k].summary)
  {
    var a := articles[k];
    SummaryLineInBlock(k + 1, a);
    assert Blocks(articles)[k] == Block(k + 1, a);
    PromptLayout(articles, today, k);
    ContainsWithin(SummaryLabel + a.summary, Blocks(articles)[k], PromptText(articles, today),
      Offset("\n", ArticleLines(k + 1, a), 3), |Preamble(today)| + Offset("\n\n", Blocks(articles), k));
  }

  /** No articles leave an empty articles part. */
  lemma NoArticlesNoBlocks(today: string)
    ensures PromptText([], today) == Preamble(today) + Closing
  {
    assert Blocks([]) == [];
  }
}

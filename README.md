# AI News Newsletter Generator — a verified model

The generator produces a daily Markdown newsletter in five steps:

1. It reads eight RSS/Atom feeds: GitHub Blog, two GitHub Changelog labels, OpenAI, Anthropic, Google DeepMind, Microsoft AI and HuggingFace.
2. It keeps the first few entries of each feed. Each entry becomes an article record with these fields: source name, stripped title, URL, an HTML-stripped summary cut to 500 characters, and the publication timestamp.
3. It concatenates the sources' articles in registry order.
4. It renders them into a numbered prompt for a language model.
5. It frames the model's trimmed reply with a YAML-style metadata header and a footer, and saves the document as `<YYYY-MM-DD>.md`.

This project models those steps in Dafny and proves what each one promises.

The modules are:

- `Text`: the Python string and list operations the pipeline is built from.
  - `str.strip()` with Python's whitespace set.
  - The slice `s[:n]` for every integer `n`, including negative ones.
  - `sep.join` with the offset of each part.
  - Repeated `list.extend`.
- `Decimal`: `str()` of an integer, with its parse-back.
- `Feeds`: the source registry and the entry records. Entry normalisation is a function and a method. Fetching one source (`FetchRss`) and all sources (`FetchAllArticles`) are loops, proved against the functions `FeedArticles` and `Aggregate`.
- `Prompt`: `BuildPrompt`, a loop over the articles proved against the function `PromptText`. It has lemmas on the layout of the blocks.
- `Output`: the header/footer framing and the file name.
- `Newsletter`: configuration defaults, the empty-input guard of generation, and one whole run with its exit status.

Everything outside Python's own semantics is a parameter:

- A feed request and parse is a `FetchOutcome`: `Ok(entries)` or `Failed`.
- HTML-to-text conversion is a function `stripHtml`.
- The language model is a function `complete` from model and prompt to an optional reply.
- Each clock reading is a string, or a `Clock` record where one reading gives both formats.
- The environment's settings are `Option` values.

The source file contains several non-ASCII characters as mis-decoded UTF-8: the bytes of `–`, `·` and the robot emoji, read as Windows-1252 characters. The model uses the characters the file actually contains: `Text.Dash`, `Output.MiddleDot` and `Output.Robot`.

## Model

| member | source | states |
|---|---|---|
| Text.IsSpace | src/newsletter.py:117 | Python's `str.isspace` set, the whitespace `.strip()` removes here and at line 210; `Strip` and `StripExact` are stated over it |
| Text.Strip | src/newsletter.py:117 | `str.strip()`: the result is the input with a whitespace prefix and a whitespace suffix removed, and it has no whitespace at either end |
| Text.Join | src/newsletter.py:162-164 | `sep.join(parts)`, defined on the first part; where each part and separator lands is proved in `JoinAt` |
| Text.StripExact | src/newsletter.py:117 | stripping whitespace around a trimmed text gives exactly that text, which pins `Strip` down |
| Text.StripIdempotent | src/newsletter.py:210 | stripping an already-stripped text changes nothing |
| Text.SliceTo | src/newsletter.py:107 | Python's `s[:n]` is a prefix of `s` of length `n` capped at the length, all of `s` when `n` is at least its length, and drops `-n` elements from the end when `n` is negative |
| Text.JoinAt | src/newsletter.py:162-164 | `sep.join(parts)` holds each part at its offset; each part but the last is followed by exactly one separator; the last part ends the text |
| Text.Flatten | src/newsletter.py:135-139 | the result of extending an empty list with each list in turn; `FlattenAppend`, `FlattenSplit` and `FlattenEmpty` are proved about it |
| Text.FlattenAppend | src/newsletter.py:135-139 | extending with a list of lists, then another, is extending with their concatenation |
| Text.FlattenEmpty | src/newsletter.py:135-139 | the extended list is empty exactly when every list added was empty |
| Decimal.NatToString | src/newsletter.py:154 | `str()` of a natural number: at least one digit, all decimal digits, no leading zero; it reads back by `ParseNatToString` |
| Decimal.IntToString | src/newsletter.py:228-239 | `str()` of an integer: at least one character, starting with `-` exactly for a negative number; it reads back by `ParseIntToString` |
| Decimal.ParseNatToString | src/newsletter.py:154 | the digits printed for an article number read back as that number |
| Decimal.ParseIntToString | src/newsletter.py:228 | the digits printed for the article count, with their sign, read back as that count |
| Decimal.IntToStringInjective | src/newsletter.py:228-239 | different counts print differently |
| Feeds.NormaliseSummary | src/newsletter.py:108-119 | a stored summary is at most 500 characters; an absent or empty summary stays empty; otherwise it is a prefix of the HTML-stripped text, of length min(length, 500) |
| Feeds.Normalise | src/newsletter.py:114-122 | an article carries the source's name, the entry's title stripped, the link or "" when absent, the normalised summary, and the timestamp or "" when absent |
| Feeds.NormaliseEntry | src/newsletter.py:108-122 | the loop body builds exactly the record `Normalise` describes |
| Feeds.NormaliseAll | src/newsletter.py:106-122 | the list the append loop builds: entry `i` normalised at index `i`; `FetchRss` is proved equal to it on the sliced entries |
| Feeds.FeedArticles | src/newsletter.py:98-130 | one source's result: [] on failure, else its first `cap` entries normalised; `FeedKeepsFirstEntries`, `FeedNegativeCap` and `FeedArticleFields` are proved about it, and `FetchRss` is proved equal to it |
| Feeds.FeedKeepsFirstEntries | src/newsletter.py:107 | with a non-negative cap, a source contributes min(cap, entries) articles, and article `i` is entry `i` normalised |
| Feeds.FeedNegativeCap | src/newsletter.py:107 | a negative cap drops that many entries from the end of the feed; the rest are kept in order, normalised |
| Feeds.FeedArticleFields | src/newsletter.py:114-122 | every article a source contributes carries its name, a trimmed title and a summary of at most 500 characters |
| Feeds.FetchRss | src/newsletter.py:98-130 | a failed request or parse gives no articles; otherwise the result is the first `cap` entries, normalised in feed order |
| Feeds.Contributions | src/newsletter.py:137-138 | there is one article list per source, in registry order |
| Feeds.Aggregate | src/newsletter.py:133-141 | the result of `fetch_all_articles`: the sources' lists concatenated in registry order; `AggregateSplit`, `FailureIsolation`, `AggregateLength`, `AggregateEmpty` and `AggregateProvenance` are proved about it |
| Feeds.FetchAllArticles | src/newsletter.py:133-141 | the loop over the registry yields the per-source lists concatenated in registry order |
| Feeds.AggregateSplit | src/newsletter.py:137-139 | the aggregate is the earlier sources' articles, then source `k`'s, then the later sources' |
| Feeds.FailureIsolation | src/newsletter.py:128-139 | a failing source contributes nothing and leaves the other sources' articles unchanged and in order |
| Feeds.AggregateLength | src/newsletter.py:107-139 | the article count is the sum of the per-source counts, and at most cap times the number of sources |
| Feeds.AggregateEmpty | src/newsletter.py:137-139 | a run has no articles exactly when no source contributes one |
| Feeds.AllFailedMeansNoArticles | src/newsletter.py:128-130 | when every source fails there are no articles |
| Feeds.OneSourceSuffices | src/newsletter.py:107-139 | one source with an entry and a positive cap suffices for articles, whatever the other sources do |
| Feeds.AggregateProvenance | src/newsletter.py:116-139 | every aggregated article names a registry source, has a trimmed title and a summary within the cap |
| Feeds.SourceNamesUnique | src/newsletter.py:33-74 | the registry's source names are pairwise distinct |
| Prompt.ArticleLines | src/newsletter.py:153-161 | the lines of one article's block; see `ArticleLinesShape` |
| Prompt.Block | src/newsletter.py:162 | the lines joined by "\n"; `BlockOpensWithNumber` and `SummaryLineInBlock` locate its lines |
| Prompt.Blocks | src/newsletter.py:152-162 | there is one block per article |
| Prompt.ArticlesBlock | src/newsletter.py:164 | the blocks joined by "\n\n"; `PromptLayout` places each block and separator |
| Prompt.Preamble | src/newsletter.py:168-192 | the instruction template with the long-form date embedded; `PromptLayout` puts every block after it |
| Prompt.PromptText | src/newsletter.py:149-194 | the prompt text: the preamble with the date, the numbered blocks joined by blank lines, then a line break; `PromptLayout`, `SummaryVerbatim` and `NoArticlesNoBlocks` are proved about it, and `BuildPrompt` is proved equal to it |
| Prompt.BuildPrompt | src/newsletter.py:149-194 | the loop renders exactly `PromptText`: the preamble with the date, the numbered blocks joined by blank lines, and the closing line break |
| Prompt.ArticleLinesShape | src/newsletter.py:153-161 | a block has Source, Title and URL lines in that order, a Summary line iff the summary is non-empty, and a Published line iff the timestamp is non-empty, each field embedded as stored |
| Prompt.BlockOpensWithNumber | src/newsletter.py:152-154 | block `k` opens with `[k+1] Source: ` and the article's source |
| Prompt.NumbersDistinct | src/newsletter.py:152-154 | block numbers of different articles differ |
| Prompt.PromptLayout | src/newsletter.py:162-193 | in the prompt each block sits at its offset after the preamble; each block but the last is followed by exactly "\n\n"; the closing text follows the last block |
| Prompt.SummaryLineInBlock | src/newsletter.py:158-159 | the summary line is the block's fourth line |
| Prompt.SummaryVerbatim | src/newsletter.py:158-193 | a non-empty summary appears in the prompt whole, after its label, with no length cap |
| Prompt.NoArticlesNoBlocks | src/newsletter.py:164 | an empty article list leaves only the preamble and the closing text |
| Output.Header | src/newsletter.py:224-234 | the metadata block and the heading; `HeaderRecordsCountAndModel` shows it holds the count and the model |
| Output.Footer | src/newsletter.py:236-241 | the closing rule and line; `FooterRecordsCountAndModel` shows it restates the count and the model |
| Output.WrapNewsletter | src/newsletter.py:218-243 | header + body + footer; `UnwrapWrap` recovers the body from it and `WrapInjective` follows |
| Output.UnwrapWrap | src/newsletter.py:218-243 | taking the header and footer off a wrapped document gives back the body exactly |
| Output.WrapInjective | src/newsletter.py:243 | different bodies give different documents |
| Output.HeaderRecordsCountAndModel | src/newsletter.py:224-234 | the header holds the `articles_analyzed:` line and the `model:` line, and the count reads back from it |
| Output.FooterRecordsCountAndModel | src/newsletter.py:236-241 | the footer holds the closing line, which restates the count and the model |
| Output.OutputFileName | src/newsletter.py:249-250 | the file name is the date with a `.md` suffix, and the date can be read back from it |
| Output.OutputFileNameInjective | src/newsletter.py:249-250 | two runs share a file name exactly when they share the date |
| Newsletter.ReadConfig | src/newsletter.py:80-81 | the defaults 5 and `gpt-4o-mini` apply only to unset variables |
| Newsletter.GenerateNewsletter | src/newsletter.py:197-210 | an empty article list is refused, and only an empty one; otherwise the result is the model's reply to the prompt for these articles, stripped, or a failure when there is no reply |
| Newsletter.ApiKeyPresent | src/newsletter.py:261-262 | the key counts as present exactly when it is set and non-empty; `Run` ends with `MissingApiKey` exactly when it does not |
| Newsletter.ExitStatus | src/newsletter.py:260-278 | the process exits with 0 exactly when the newsletter is saved, otherwise with 1 |
| Newsletter.Run | src/newsletter.py:260-278 | a missing or empty key ends the run first; no fetched articles ends it before generation; otherwise the saved document is the wrapped, stripped reply under the save-date file name; it unwraps to a trimmed body and its name reads back as the date |

## Left out

- The HTTP request, its headers and timeout, and feed parsing are out of scope. The model starts from what they deliver for one source: the entries, or a failure of any kind.
- HTML-to-text conversion (BeautifulSoup with `lxml`) is an arbitrary function `stripHtml`, so nothing is assumed about its output.
- The OpenAI chat-completion request, its temperature and its nondeterminism are out of scope. The reply is an arbitrary function of model and prompt. `None` stands for a failed request and for a reply with no text content; in the source, both raise an exception.
- An exception inside the normalisation of an entry turns the whole source's result into `[]` in the source. In the model, normalisation cannot fail.
- Reading the environment is out of scope. Parsing MAX_ARTICLES_PER_SOURCE with `int()` is also out of scope: the setting is taken as an already-parsed integer, and a value `int()` rejects, which stops the program at import, is not modelled.
- The clock and `strftime` are parameters. The locale-dependent month name of `%B` is therefore not modelled. Each clock read of the source (prompt, header/footer, file name) is a separate parameter, so readings on both sides of midnight are covered.
- Creating the output directory, writing the file in UTF-8 and all console output are out of scope.
- Prompt.PromptText: the preamble is the instruction template as its dedented text reads, with each line at the left margin. In the source, `textwrap.dedent` runs after the article block has been interpolated. It removes the longest run of spaces and tabs that every non-blank line shares, including the continuation lines of the interpolated fields. For one article, that margin is what every non-blank line shares with the four spaces of "    Title:": all four when no field holds a line break, fewer when a continuation line starts with fewer. With two or more articles it is empty, because "[2] Source:" starts at column 0. Lines made only of spaces and tabs are emptied. The model does not reproduce these indentation differences.
- Output.Header, Output.Footer: dedent is modelled as its result for single-line date and model strings. A model name holding a line break would change the margin dedent computes. That case is not modelled.
- Python strings can hold lone surrogate code points. Dafny's `char` cannot, so such strings are not modelled.
- The code has no "Recent Headlines by Source" appendix, no failed-sources section in the document, no 100-character summary cap in the prompt and no failure map from the fetch of all sources, so none of them is modelled. The prompt embeds the stored summary whole.

/** The daily run: check for an API key, fetch every source, ask the language model for the
    newsletter, frame its reply with the header and footer, and save it under the date.
    The environment, the language model and the clock are parameters: `apiKey` and the
    `Config` settings are what the environment holds, `complete` is the model's reply to a
    prompt (`None` when the request fails or the reply has no text), and each clock reading
    is passed in separately because each step of the run reads the clock on its own. */
module Newsletter {
  import opened Wrappers
  import opened Text
  import opened Feeds
  import opened Prompt
  import opened Output

  /** The value of OPENAI_MODEL when the environment does not set it. */
  const DefaultModel: string := "gpt-4o-mini"

  /** The settings read from the environment. */
  datatype Config = Config(maxArticlesPerSource: int, model: string)

  /** The settings for what the environment holds: a default applies only where the variable
      is unset; a variable set to the empty string keeps that value. */
  function ReadConfig(maxArticlesSetting: Option<int>, modelSetting: Option<string>): (c: Config)
    ensures maxArticlesSetting.None? ==> c.maxArticlesPerSource == DefaultMaxArticlesPerSource
    ensures maxArticlesSetting.Some? ==> c.maxArticlesPerSource == maxArticlesSetting.value
    ensures modelSetting.None? ==> c.model == DefaultModel
    ensures modelSetting.Some? ==> c.model == modelSetting.value
  {
    Config(maxArticlesSetting.GetOr(DefaultMaxArticlesPerSource), modelSetting.GetOr(DefaultModel))
  }

  /** Why no newsletter text was produced. */
  datatype GenerationError = NoArticles | CompletionFailed

  /** Generating the newsletter text: refused for an empty article list; otherwise the
      model's reply to the prompt for these articles, with surrounding whitespace removed. */
  method GenerateNewsletter(articles: seq<Article>, model: string, today: string,
                            complete: (string, string) -> Option<string>)
    returns (r: Result<string, GenerationError>)
    ensures articles == [] <==> r == Failure(NoArticles)
    ensures articles != [] && complete(model, PromptText(articles, today)).None?
      ==> r == Failure(CompletionFailed)
    ensures articles != [] && complete(model, PromptText(articles, today)).Some?
      ==> r == Success(Strip(complete(model, PromptText(articles, today)).value))
    ensures r.Success? ==> Trimmed(r.value)
  {
    if articles == [] {
      return Failure(NoArticles);
    }
    var prompt := BuildPrompt(articles, today);
    var reply := complete(model, prompt);
    if reply.None? {
      return Failure(CompletionFailed);
    }
    r := Success(Strip(reply.value));
  }

  /** Python truthiness of the key: unset and empty both count as missing. */
  predicate ApiKeyPresent(apiKey: Option<string>) {
    apiKey.Some? && apiKey.value != ""
  }

  /** How a run ends. */
  datatype RunOutcome =
    | MissingApiKey
    | NoArticlesFetched
    | GenerationFailed
    | Saved(fileName: string, content: string)

  /** The process exit status: 1 for the two reported errors and for a failed generation
      (an uncaught exception), 0 once the newsletter is saved. */
  function ExitStatus(outcome: RunOutcome): (status: int)
    ensures status == 0 <==> outcome.Saved?
    ensures status != 0 ==> status == 1
  {
    if outcome.Saved? then 0 else 1
  }

  /** One run of the pipeline. The key is checked before anything is fetched; a run that
      fetches nothing stops before the model is asked; a saved document is the model's
      trimmed reply framed by a header and footer that record the number of articles and the
      model, under the file name of the save-time date. */
  method Run(apiKey: Option<string>, config: Config, outcomes: seq<FetchOutcome>,
             stripHtml: string -> string, complete: (string, string) -> Option<string>,
             promptDate: string, wrapClock: Clock, saveDate: string)
    returns (outcome: RunOutcome)
    requires |outcomes| == |Sources|
    ensures !ApiKeyPresent(apiKey) <==> outcome == MissingApiKey
    ensures var articles := Aggregate(Sources, outcomes, config.maxArticlesPerSource, stripHtml);
      && (ApiKeyPresent(apiKey) && articles == [] <==> outcome == NoArticlesFetched)
      && (ApiKeyPresent(apiKey) && articles != []
          && complete(config.model, PromptText(articles, promptDate)).None?
          <==> outcome == GenerationFailed)
      && (ApiKeyPresent(apiKey) && articles != []
          && complete(config.model, PromptText(articles, promptDate)).Some?
          ==> outcome == Saved(
                OutputFileName(saveDate),
                WrapNewsletter(Strip(complete(config.model, PromptText(articles, promptDate)).value),
                               |articles|, config.model, wrapClock)))
      && (outcome.Saved? ==>
            var body := UnwrapNewsletter(outcome.content, |articles|, config.model, wrapClock);
            && body.Some? && Trimmed(body.value)
            && FileNameDate(outcome.fileName) == Some(saveDate))
  {
    if !ApiKeyPresent(apiKey) {
      return MissingApiKey;
    }
    var articles := FetchAllArticles(Sources, outcomes, config.maxArticlesPerSource, stripHtml);
    if articles == [] {
      return NoArticlesFetched;
    }
    var generated := GenerateNewsletter(articles, config.model, promptDate, complete);
    match generated
    case Failure(_) =>
      outcome := GenerationFailed;
    case Success(body) =>
      var document := WrapNewsletter(body, |articles|, config.model, wrapClock);
      UnwrapWrap(body, |articles|, config.model, wrapClock);
      outcome := Saved(OutputFileName(saveDate), document);
  }
}

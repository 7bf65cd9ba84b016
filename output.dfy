/** The finished document: the model's text between a metadata header and a footer, and
    the name of the file it is saved under. */
module Output {
  import opened Wrappers
  import opened Text
  import opened Decimal

  /** One reading of the UTC clock, formatted as `%B %d, %Y` (long form, e.g. "October 14,
      2026") and as `%Y-%m-%d`. Each function of the source reads the clock on its own. */
  datatype Clock = Clock(longDate: string, isoDate: string)

  /** The four characters the source text holds where the robot emoji (U+1F916) is evidently
      meant: its UTF-8 bytes read as Windows-1252 text. */
  const Robot: string := "\U{F0}\U{178}\U{A4}\U{2013}"

  /** The two characters the source text holds where a middle dot (U+00B7) is evidently meant. */
  const MiddleDot: string := "\U{C2}\U{B7}"

  const Title: string := "AI & GitHub Agent News " + Dash + " "

  /** The opening delimiter of the metadata block and its title and date lines. */
  function HeaderTop(clock: Clock): string {
    "---\ntitle: \"" + Title + clock.longDate + "\"\ndate: " + clock.isoDate + "\n"
  }

  /** The line of the header that records the article count. */
  function CountLine(count: int): string {
    "articles_analyzed: " + IntToString(count) + "\n"
  }

  /** The line of the header that records the model. */
  function ModelLine(model: string): string {
    "model: " + model + "\n"
  }

  /** The closing delimiter of the metadata block and the top-level heading. */
  function Heading(clock: Clock): string {
    "---\n\n# " + Robot + " " + Title + clock.longDate + "\n\n"
  }

  /** The metadata block followed by the top-level heading. */
  function Header(clock: Clock, count: int, model: string): string {
    HeaderTop(clock) + CountLine(count) + ModelLine(model) + Heading(clock)
  }

  /** The start of the closing line, up to the count. */
  function GeneratedOn(clock: Clock): string {
    "*Generated on " + clock.longDate + " " + MiddleDot + " "
  }

  /** The count part of the closing line. */
  function CountPhrase(count: int): string {
    IntToString(count) + " articles analyzed " + MiddleDot + " "
  }

  /** The model part of the closing line. */
  function ModelPhrase(model: string): string {
    "model: " + model
  }

  /** The closing line restating the date, the article count and the model. */
  function FooterLine(clock: Clock, count: int, model: string): string {
    GeneratedOn(clock) + CountPhrase(count) + ModelPhrase(model) + "*"
  }

  function Footer(clock: Clock, count: int, model: string): string {
    "\n\n---\n" + FooterLine(clock, count, model) + "\n"
  }

  /** The whole document. */
  function WrapNewsletter(body: string, count: int, model: string, clock: Clock): string {
    Header(clock, count, model) + body + Footer(clock, count, model)
  }

  /** The body of a document written by `WrapNewsletter` with the same count, model and
      clock reading, or `None` when `doc` is not framed by that header and footer. */
  function UnwrapNewsletter(doc: string, count: int, model: string, clock: Clock): Option<string> {
    var h, f := Header(clock, count, model), Footer(clock, count, model);
    if |h| + |f| <= |doc| && doc[..|h|] == h && doc[|doc| - |f|..] == f
    then Some(doc[|h|..|doc| - |f|])
    else None
  }

  /** The body appears verbatim between header and footer: unwrapping gives it back. */
  lemma UnwrapWrap(body: string, count: int, model: string, clock: Clock)
    ensures UnwrapNewsletter(WrapNewsletter(body, count, model, clock), count, model, clock) == Some(body)
  {
    var h, f := Header(clock, count, model), Footer(clock, count, model);
    var doc := WrapNewsletter(body, count, model, clock);
    assert doc == h + body + f;
    assert doc[..|h|] == h;
    assert doc[|doc| - |f|..] == f;
    assert doc[|h|..|doc| - |f|] == body;
  }

  /** Different bodies give different documents. */
  lemma WrapInjective(b1: string, b2: string, count: int, model: string, clock: Clock)
    requires b1 != b2
    ensures WrapNewsletter(b1, count, model, clock) != WrapNewsletter(b2, count, model, clock)
  {
    UnwrapWrap(b1, count, model, clock);
    UnwrapWrap(b2, count, model, clock);
  }

  /** The header records the article count and the model, each on its own line, and the
      count can be read back from it. */
  lemma HeaderRecordsCountAndModel(clock: Clock, count: int, model: string)
    ensures Contains(Header(clock, count, model), CountLine(count))
    ensures Contains(Header(clock, count, model), ModelLine(model))
    ensures var digits := IntToString(count);
      && (if digits[0] == '-' then Decimal.AllDigits(digits[1..]) else Decimal.AllDigits(digits))
      && ParseInt(digits) == count
  {
    OccursInFour(HeaderTop(clock), CountLine(count), ModelLine(model), Heading(clock));
    ParseIntToString(count);
  }

  /** The footer holds the closing line, which restates the article count and the model. */
  lemma FooterRecordsCountAndModel(clock: Clock, count: int, model: string)
    ensures Contains(Footer(clock, count, model), FooterLine(clock, count, model))
    ensures Contains(FooterLine(clock, count, model), CountPhrase(count))
    ensures Contains(FooterLine(clock, count, model), ModelPhrase(model))
  {
    OccursInThree("\n\n---\n", FooterLine(clock, count, model), "\n");
    OccursInFour(GeneratedOn(clock), CountPhrase(count), ModelPhrase(model), "*");
  }

  /** The file name the document is saved under: the `%Y-%m-%d` date with a `.md` suffix. */
  function OutputFileName(isoDate: string): (name: string)
    ensures FileNameDate(name) == Some(isoDate)
  {
    isoDate + ".md"
  }

  /** The date a `.md` file name stands for. */
  function FileNameDate(name: string): Option<string> {
    if |name| >= 3 && name[|name| - 3..] == ".md" then Some(name[..|name| - 3]) else None
  }

  /** Runs on the same date write the same file, and runs on different dates different files. */
  lemma OutputFileNameInjective(d1: string, d2: string)
    ensures OutputFileName(d1) == OutputFileName(d2) <==> d1 == d2
  {
  }
}

/**
 * The text handling around the OCR and chat-completion calls: the mime type sent with
 * an upload, the raw text assembled from OCR pages, the clean-up of the model's reply
 * and the combined result. The HTTP calls themselves are parameters.
 */
module MistralOcr {
  import opened Wrappers
  import opened Strings
  import opened JsonValues

  /** The mime type `_ocr_image` uploads a file with, chosen by its suffix in any case. */
  function MimeFor(path: string): string {
    var lower := Lower(path);
    if EndsWith(lower, ".jpg") || EndsWith(lower, ".jpeg") then "image/jpeg"
    else if EndsWith(lower, ".png") then "image/png"
    else "application/octet-stream"
  }

  /** Lower-casing twice is lower-casing once. */
  lemma LowerIdempotent(s: string)
    ensures Lower(Lower(s)) == Lower(s)
  {
  }

  /** The suffix test ignores case: a path and its lower-cased form get the same mime type. */
  lemma MimeIgnoresCase(path: string)
    ensures MimeFor(Lower(path)) == MimeFor(path)
  {
    LowerIdempotent(path);
  }

  /** Lower-casing a concatenation lower-cases each part. */
  lemma LowerAppend(a: string, b: string)
    ensures Lower(a + b) == Lower(a) + Lower(b)
  {
  }

  /** Any file name ending in `.JPG`, `.Jpeg`, ... is sent as JPEG; `.PNG` as PNG. */
  lemma MimeOfSuffix(base: string, suffix: string)
    requires Lower(suffix) in {".jpg", ".jpeg", ".png"}
    ensures MimeFor(base + suffix) == if Lower(suffix) == ".png" then "image/png" else "image/jpeg"
  {
    LowerAppend(base, suffix);
    EndsWithOwnSuffix(Lower(base), Lower(suffix));
    if Lower(suffix) == ".png" {
      PngIsNotJpeg(Lower(base));
    }
  }

  lemma EndsWithOwnSuffix(x: string, s: string)
    ensures EndsWith(x + s, s)
  {
    assert (x + s)[|x|..] == s;
  }

  lemma PngIsNotJpeg(x: string)
    ensures !EndsWith(x + ".png", ".jpg") && !EndsWith(x + ".png", ".jpeg")
  {
    var y := x + ".png";
    assert y[|y| - 2] == 'n';
    assert y[|y| - 4..][2] == y[|y| - 2];
    if |y| >= 5 {
      assert y[|y| - 5..][3] == y[|y| - 2];
    }
  }

  /** A file name with none of the image suffixes is sent as an octet stream. */
  lemma MimeOtherwise(path: string)
    requires !EndsWith(Lower(path), ".jpg") && !EndsWith(Lower(path), ".jpeg") && !EndsWith(Lower(path), ".png")
    ensures MimeFor(path) == "application/octet-stream"
  {
  }

  /** One page of an OCR response; `markdown` is `None` when the page has no such key. */
  datatype Page = Page(markdown: Option<string>)

  /** `p.get("markdown", "")`. */
  function PageText(p: Page): string {
    match p.markdown
    case Some(text) => text
    case None => ""
  }

  /** The raw text of one OCR response: its pages' markdown joined with blank lines. */
  function PagesText(pages: seq<Page>): string {
    Join("\n\n", seq(|pages|, i requires 0 <= i < |pages| => PageText(pages[i])))
  }

  /** Each page contributes its markdown, in page order, one blank line apart. */
  lemma PagesTextSnoc(pages: seq<Page>, p: Page)
    ensures PagesText(pages + [p]) == if pages == [] then PageText(p) else PagesText(pages) + "\n\n" + PageText(p)
  {
    var texts := seq(|pages|, i requires 0 <= i < |pages| => PageText(pages[i]));
    assert seq(|pages + [p]|, i requires 0 <= i < |pages + [p]| => PageText((pages + [p])[i])) == texts + [PageText(p)];
    JoinSnoc("\n\n", texts, PageText(p));
  }

  /** A page without markdown contributes the empty string, after its separator. */
  lemma PageWithoutMarkdown(pages: seq<Page>, p: Page)
    requires p.markdown.None?
    ensures PagesText(pages + [p]) == if pages == [] then "" else PagesText(pages) + "\n\n"
  {
    PagesTextSnoc(pages, p);
  }

  /** A line of the model's reply that opens or closes a code fence. */
  predicate IsFenceLine(line: string) {
    StartsWith(Strip(line), "```")
  }

  predicate IsContentLine(line: string) {
    !IsFenceLine(line)
  }

  /** The reply with its fence lines removed, applied only when it starts with a fence. */
  function StripFences(content: string): string {
    if StartsWith(content, "```") then Join("\n", Filter(SplitLines(content), IsContentLine))
    else content
  }

  /** A reply that does not start with a fence is left exactly as it is. */
  lemma UnfencedUnchanged(content: string)
    requires !StartsWith(content, "```")
    ensures StripFences(content) == content
  {
  }

  /**
   * Stripping removes exactly the fence lines: read back line by line, the result is the
   * reply's other lines in their original order (when the last of them is not empty, since
   * `splitlines` drops a final empty line).
   */
  lemma {:induction false} StripFencesKeepsContentLines(content: string)
    requires StartsWith(content, "```")
    requires var kept := Filter(SplitLines(content), IsContentLine); kept != [] ==> kept[|kept| - 1] != ""
    ensures var lines := SplitLines(StripFences(content));
      && lines == Filter(SplitLines(content), IsContentLine)
      && (forall l :: l in lines ==> !IsFenceLine(l))
      && (forall l :: l in SplitLines(content) && !IsFenceLine(l) ==> l in lines)
  {
    var all := SplitLines(content);
    var kept := Filter(all, IsContentLine);
    forall l | l in kept ensures forall j :: 0 <= j < |l| ==> !IsLineBreak(l[j]) {
      FilterMembership(all, IsContentLine, l);
    }
    SplitJoinedLines(kept);
    forall l | l in all || l in kept ensures l in kept <==> l in all && IsContentLine(l) {
      FilterMembership(all, IsContentLine, l);
    }
  }

  /**
   * Why `run_invoice_ocr` raised: the chat-completion request failed (HTTP error or a
   * reply without content), or the call itself lacked the required `expense_mapping`.
   */
  datatype OcrError = ModelRequestFailed | MissingArgument

  /** What `_extract_structured_data` produces, and whether it asked the model at all. */
  datatype Extraction = Extraction(modelCalled: bool, structured: Json)

  /**
   * `_extract_structured_data`: blank text yields `{}` without a model call; otherwise the
   * model's reply (`reply`, `None` when the request raised) is stripped, fence lines are
   * removed, and the text is parsed with `parse` (Python's `json.loads`, `None` on failure),
   * a parse failure yielding `{}`.
   */
  function ExtractStructured(rawText: string, reply: Option<string>, parse: string -> Option<Json>): Result<Extraction, OcrError> {
    if Strip(rawText) == "" then Ok(Extraction(false, EmptyObject))
    else match reply
      case None => Err(ModelRequestFailed)
      case Some(answer) =>
        match parse(StripFences(Strip(answer)))
        case Some(j) => Ok(Extraction(true, j))
        case None => Ok(Extraction(true, EmptyObject))
  }

  /** White-space-only text yields `{}`, whatever the model would have answered. */
  lemma BlankTextSkipsModel(rawText: string, reply: Option<string>, parse: string -> Option<Json>)
    requires forall i :: 0 <= i < |rawText| ==> IsSpace(rawText[i])
    ensures ExtractStructured(rawText, reply, parse) == Ok(Extraction(false, EmptyObject))
  {
  }

  /** A reply that does not parse as JSON yields `{}`; one that parses yields the parsed value. */
  lemma ParsedReply(rawText: string, answer: string, parse: string -> Option<Json>)
    requires Strip(rawText) != ""
    ensures var r := ExtractStructured(rawText, Some(answer), parse);
      && r.Ok? && r.value.modelCalled
      && r.value.structured == match parse(StripFences(Strip(answer))) case Some(j) => j case None => EmptyObject
  {
  }

  /** The model string reported with every OCR result. */
  const ModelName: string := "mistral-ocr-latest + mistral-large-latest"

  /** What `run_invoice_ocr` returns. */
  datatype OcrResult = OcrResult(rawText: string, structured: Json, model: string)

  /** A file is handled as a PDF exactly when its path ends in `.pdf`, in any case. */
  predicate IsPdf(path: string) {
    EndsWith(Lower(path), ".pdf")
  }

  predicate NonEmptyText(text: string) {
    text != ""
  }

  /**
   * The PDF branch of `run_invoice_ocr`: each page image's OCR text is kept when it is not
   * empty, and the kept texts are joined with blank lines in page order.
   */
  method CombinePdfText(pageImages: seq<seq<Page>>) returns (rawText: string)
    ensures var texts := seq(|pageImages|, i requires 0 <= i < |pageImages| => PagesText(pageImages[i]));
      rawText == Join("\n\n", Filter(texts, NonEmptyText))
  {
    ghost var texts := seq(|pageImages|, i requires 0 <= i < |pageImages| => PagesText(pageImages[i]));
    var combined: seq<string> := [];
    var k := 0;
    while k < |pageImages|
      invariant 0 <= k <= |pageImages|
      invariant combined == Filter(texts[..k], NonEmptyText)
    {
      var text := PagesText(pageImages[k]);
      if text != "" {
        combined := combined + [text];
      }
      FilterAppend(texts[..k], [texts[k]], NonEmptyText);
      assert texts[..k + 1] == texts[..k] + [texts[k]];
      k := k + 1;
    }
    assert texts[..k] == texts;
    rawText := Join("\n\n", combined);
  }

  /**
   * `run_invoice_ocr`: a PDF is read page image by page image (`pdfPageImages`, the OCR pages
   * of each rendered page), any other file as one image (`imagePages`); the raw text then
   * goes through `ExtractStructured`.
   */
  method RunInvoiceOcr(path: string, imagePages: seq<Page>, pdfPageImages: seq<seq<Page>>,
                       reply: Option<string>, parse: string -> Option<Json>)
    returns (r: Result<OcrResult, OcrError>)
    ensures var texts := seq(|pdfPageImages|, i requires 0 <= i < |pdfPageImages| => PagesText(pdfPageImages[i]));
      var rawText := if IsPdf(path) then Join("\n\n", Filter(texts, NonEmptyText)) else PagesText(imagePages);
      match ExtractStructured(rawText, reply, parse)
      case Ok(e) => r == Ok(OcrResult(rawText, e.structured, ModelName))
      case Err(err) => r == Err(err)
  {
    var rawText: string;
    if IsPdf(path) {
      rawText := CombinePdfText(pdfPageImages);
    } else {
      rawText := PagesText(imagePages);
    }
    var extraction := ExtractStructured(rawText, reply, parse);
    match extraction {
      case Ok(e) => r := Ok(OcrResult(rawText, e.structured, ModelName));
      case Err(err) => r := Err(err);
    }
  }
}

/** The ingestion service: turns an uploaded guideline file into text and caps the text
    handed to the language model. */
module Extraction {
  import opened Wrappers
  import opened Json

  const MaxChars := 20000

  const TruncationMark := " ...[TRUNCATED]"

  /** The simulated PDF extraction's fixed text, whatever the content. */
  const PdfPlaceholder := "[EXTRACTED FROM PDF]: Brand Tone is Professional, Innovation-focused. Primary Color: Navy. Values: Trust, Speed."

  /** `extractText(fileType, fileContent)`. `serialized` is what `JSON.stringify` makes of
      an object content; other contents are converted by `String`. An unknown type throws. */
  function ExtractText(fileType: string, content: Value, serialized: string): (r: Result<string>)
  {
    if fileType == "application/pdf" then Ok(PdfPlaceholder)
    else if fileType == "text/plain" then
      if content.Str? then Ok(content.s)
      else if content.Obj? || content.Arr? then Ok(serialized)
      else Ok(ToJsString(content))
    else Err("Unsupported file type")
  }

  /** `sanitizeText(text)`: text longer than the limit keeps its first 20000 characters and
      is marked as truncated. */
  function SanitizeText(text: string): (r: string)
    ensures |r| <= MaxChars + |TruncationMark|
    ensures |text| <= MaxChars ==> r == text
    ensures |text| > MaxChars ==>
      |r| == 20015 && r[..MaxChars] == text[..MaxChars] && r[MaxChars..] == TruncationMark
  {
    if |text| > MaxChars then text[..MaxChars] + TruncationMark else text
  }

  /** Sanitising twice is sanitising once: a truncated text is over the limit again but
      keeps the same first 20000 characters. */
  lemma SanitizeIdempotent(text: string)
    ensures SanitizeText(SanitizeText(text)) == SanitizeText(text)
  {
    var r := SanitizeText(text);
    if |text| > MaxChars {
      assert r[..MaxChars] == text[..MaxChars];
    }
  }

  /** A sanitised text always begins with as much of the original as fits. */
  lemma SanitizeKeepsPrefix(text: string)
    ensures var n := if |text| <= MaxChars then |text| else MaxChars;
      SanitizeText(text)[..n] == text[..n]
  {
  }

  /** A PDF gives the placeholder whatever its content. */
  lemma PdfIgnoresContent(a: Value, b: Value, s: string, t: string)
    ensures ExtractText("application/pdf", a, s) == ExtractText("application/pdf", b, t) == Ok(PdfPlaceholder)
  {
  }

  /** Plain text is passed through unchanged. */
  lemma PlainTextUnchanged(text: string, s: string)
    ensures ExtractText("text/plain", Str(text), s) == Ok(text)
  {
  }

  /** Exactly the two supported types succeed. */
  lemma ExtractSucceedsExactly(fileType: string, content: Value, serialized: string)
    ensures ExtractText(fileType, content, serialized).Ok? <==> fileType == "application/pdf" || fileType == "text/plain"
    ensures ExtractText(fileType, content, serialized).Err? ==>
      ExtractText(fileType, content, serialized).error == "Unsupported file type"
  {
  }
}

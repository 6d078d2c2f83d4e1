/**
 Text extraction in `src/app/api/process-resume/route.ts`: the file-kind
 classifier, the first-non-blank-wins PDF fallback loop, the pdf2json page
 joining, and the `%PDF` signature gate that runs before extraction.

 The libraries (pdf2json, mammoth, UTF-8 decoding, `decodeURIComponent`) are
 oracles: their outcomes are inputs.
 */
module Extraction {
  import opened Wrappers
  import opened Text

  newtype byte = x: int | 0 <= x < 256

  /** The kinds of file the route can extract text from. */
  datatype FileKind = Pdf | Docx | Txt

  /** A PDF hint: the content type mentions `pdf` or the name ends in `.pdf`, in any case. */
  predicate PdfHint(fileType: string, fileName: Option<string>) {
    Contains(fileType, "pdf") || (fileName.Some? && EndsWith(ToLower(fileName.value), ".pdf"))
  }

  /** A DOCX hint: a `wordprocessing` content type or a `.docx` name, in any case. */
  predicate DocxHint(fileType: string, fileName: Option<string>) {
    Contains(fileType, "wordprocessing") || (fileName.Some? && EndsWith(ToLower(fileName.value), ".docx"))
  }

  /** A plain-text hint: a `text/` content type or a name ending in `.txt`, case-sensitively. */
  predicate TxtHint(fileType: string, fileName: Option<string>) {
    StartsWith(fileType, "text/") || (fileName.Some? && EndsWith(fileName.value, ".txt"))
  }

  /** The branch `extractTextFromBuffer` takes: PDF first, then DOCX, then TXT;
      anything else is refused with the content type in the message. */
  function Classify(fileType: string, fileName: Option<string>): (r: Result<FileKind, string>)
    ensures r == Ok(Pdf) <==> PdfHint(fileType, fileName)
    ensures r == Ok(Docx) <==> !PdfHint(fileType, fileName) && DocxHint(fileType, fileName)
    ensures r == Ok(Txt) <==>
      !PdfHint(fileType, fileName) && !DocxHint(fileType, fileName) && TxtHint(fileType, fileName)
    ensures r.Err? ==> r.error == "Unsupported file type: " + fileType
  {
    if PdfHint(fileType, fileName) then Ok(Pdf)
    else if DocxHint(fileType, fileName) then Ok(Docx)
    else if TxtHint(fileType, fileName) then Ok(Txt)
    else Err("Unsupported file type: " + fileType)
  }

  /** `.pdf` and `.docx` are recognised in any case. */
  lemma SuffixAnyCase()
    ensures Classify("", Some("cv.PDF")) == Ok(Pdf)
    ensures Classify("", Some("cv.DocX")) == Ok(Docx)
  {
    assert ToLower("cv.PDF") == "cv.pdf";
    assert ToLower("cv.DocX") == "cv.docx";
    assert !Contains("", "pdf") && !Contains("", "wordprocessing");
    assert !EndsWith("cv.docx", ".pdf");
  }

  /** `.txt` is recognised only in lower case: an upper-case name with no
      content type is unsupported. */
  lemma TxtSuffixCaseSensitive()
    ensures Classify("", Some("cv.txt")) == Ok(Txt)
    ensures Classify("", Some("cv.TXT")) == Err("Unsupported file type: ")
  {
    assert ToLower("cv.txt") == "cv.txt";
    assert ToLower("cv.TXT") == "cv.txt";
    assert !Contains("", "pdf") && !Contains("", "wordprocessing") && !StartsWith("", "text/");
    assert !EndsWith("cv.txt", ".pdf") && !EndsWith("cv.txt", ".docx") && !EndsWith("cv.TXT", ".txt");
    assert "Unsupported file type: " + "" == "Unsupported file type: ";
  }

  /** What one PDF extraction strategy did. */
  datatype Attempt = Returned(text: string) | Threw(message: string)

  /** An attempt whose text is accepted: it returned and is not blank once trimmed. */
  predicate Usable(a: Attempt) {
    a.Returned? && !IsBlank(a.text)
  }

  const PdfFailurePrefix := "All PDF extraction methods failed. Last error: "

  /** `lastError?.message || "Unknown"`. */
  function ErrorText(lastError: Option<string>): string {
    if lastError.Some? && lastError.value != "" then lastError.value else "Unknown"
  }

  /** The `for` loop of `extractTextFromPDF` over the remaining attempts, with
      the last error caught so far. */
  function PdfLoop(attempts: seq<Attempt>, lastError: Option<string>): (r: Result<string, string>)
    ensures r.Ok? <==> exists i :: 0 <= i < |attempts| && Usable(attempts[i])
    ensures forall i :: (0 <= i < |attempts| && Usable(attempts[i]) &&
                         (forall k :: 0 <= k < i ==> !Usable(attempts[k]))) ==> r == Ok(attempts[i].text)
    ensures r.Err? && (forall k :: 0 <= k < |attempts| ==> !attempts[k].Threw?) ==>
      r.error == PdfFailurePrefix + ErrorText(lastError)
    ensures forall i :: (0 <= i < |attempts| && attempts[i].Threw? &&
                         (forall k :: i < k < |attempts| ==> !attempts[k].Threw?)) ==>
      r.Err? ==> r.error == PdfFailurePrefix + ErrorText(Some(attempts[i].message))
  {
    if |attempts| == 0 then Err(PdfFailurePrefix + ErrorText(lastError))
    else
      var rest := attempts[1..];
      assert forall k :: 1 <= k < |attempts| ==> attempts[k] == rest[k - 1];
      match attempts[0]
      case Returned(text) =>
        if !IsBlank(text) then Ok(text) else PdfLoop(rest, lastError)
      case Threw(message) =>
        PdfLoop(rest, Some(message))
  }

  /** `extractTextFromPDF`: the untrimmed text of the first usable strategy,
      else an error naming the last strategy error. */
  function ExtractTextFromPdf(attempts: seq<Attempt>): (r: Result<string, string>)
    ensures r.Ok? ==> !IsBlank(r.value)
    ensures r.Err? ==> StartsWith(r.error, PdfFailurePrefix)
  {
    var r := PdfLoop(attempts, None);
    assert r.Ok? ==> exists i :: 0 <= i < |attempts| && Usable(attempts[i]) && r.value == attempts[i].text by {
      if r.Ok? {
        var i := FirstUsable(attempts);
      }
    }
    assert r.Err? ==> r.error[..|PdfFailurePrefix|] == PdfFailurePrefix by {
      if r.Err? {
        var j := LastThrowOrNone(attempts);
      }
    }
    r
  }

  /** The index of the first usable attempt. */
  lemma FirstUsable(attempts: seq<Attempt>) returns (i: nat)
    requires exists i :: 0 <= i < |attempts| && Usable(attempts[i])
    ensures i < |attempts| && Usable(attempts[i])
    ensures forall k :: 0 <= k < i ==> !Usable(attempts[k])
  {
    i := 0;
    while !Usable(attempts[i])
      invariant i < |attempts|
      invariant forall k :: 0 <= k < i ==> !Usable(attempts[k])
      decreases |attempts| - i
    {
      i := i + 1;
    }
  }

  /** The position of the last attempt that threw, or `|attempts|` when none did. */
  lemma LastThrowOrNone(attempts: seq<Attempt>) returns (j: nat)
    ensures j <= |attempts|
    ensures j < |attempts| ==> attempts[j].Threw? && forall k :: j < k < |attempts| ==> !attempts[k].Threw?
    ensures j == |attempts| ==> forall k :: 0 <= k < |attempts| ==> !attempts[k].Threw?
  {
    j := |attempts|;
    var i := |attempts|;
    while i > 0
      invariant 0 <= i <= |attempts| && j <= |attempts|
      invariant j == |attempts| ==> forall k :: i <= k < |attempts| ==> !attempts[k].Threw?
      invariant j < |attempts| ==> attempts[j].Threw? && forall k :: j < k < |attempts| ==> !attempts[k].Threw?
    {
      i := i - 1;
      if j == |attempts| && attempts[i].Threw? {
        j := i;
      }
    }
  }

  /** One text item of a pdf2json page: its runs `R[].T`. */
  datatype TextItem = TextItem(runs: seq<string>)
  /** One pdf2json page: its text items `Texts`. */
  datatype Page = Page(texts: seq<TextItem>)

  /** `decodeURIComponent(t.R.map(r => r.T).join(""))`. */
  function ItemText(t: TextItem, decode: string -> string): string {
    decode(Join(t.runs, ""))
  }

  /** A page's items joined with spaces. */
  function PageText(p: Page, decode: string -> string): string {
    Join(seq(|p.texts|, i requires 0 <= i < |p.texts| => ItemText(p.texts[i], decode)), " ")
  }

  /** The text `extractTextWithPdf2json` resolves with: pages joined with
      newlines, `""` when the document has no `Pages`. */
  function Pdf2JsonText(pages: Option<seq<Page>>, decode: string -> string): string {
    match pages
    case None => ""
    case Some(ps) => Join(seq(|ps|, i requires 0 <= i < |ps| => PageText(ps[i], decode)), "\n")
  }

  /** The pdf2json text is blank exactly when every decoded text item is: the
      separators it inserts never make a document usable on their own. */
  lemma Pdf2JsonBlank(ps: seq<Page>, decode: string -> string)
    ensures IsBlank(Pdf2JsonText(Some(ps), decode)) <==>
      forall i, j :: 0 <= i < |ps| && 0 <= j < |ps[i].texts| ==> IsBlank(ItemText(ps[i].texts[j], decode))
  {
    var pageTexts := seq(|ps|, i requires 0 <= i < |ps| => PageText(ps[i], decode));
    JoinBlank(pageTexts, "\n");
    forall i | 0 <= i < |ps|
      ensures IsBlank(pageTexts[i]) <==>
        forall j :: 0 <= j < |ps[i].texts| ==> IsBlank(ItemText(ps[i].texts[j], decode))
    {
      var p := ps[i];
      var items := seq(|p.texts|, j requires 0 <= j < |p.texts| => ItemText(p.texts[j], decode));
      assert pageTexts[i] == Join(items, " ");
      JoinBlank(items, " ");
      assert forall j :: 0 <= j < |p.texts| ==> items[j] == ItemText(ps[i].texts[j], decode);
    }
  }

  /** The outcome of the pdf2json strategy: a parser error rejects, and the loop
      sees its `message`, which is `""` when the rejection value has none (the
      loop then reports `Unknown`). */
  function Pdf2JsonAttempt(parsed: Result<Option<seq<Page>>, string>, decode: string -> string): Attempt {
    match parsed
    case Err(message) => Threw(message)
    case Ok(pages) => Returned(Pdf2JsonText(pages, decode))
  }

  /** The outcomes of the extraction libraries for one downloaded buffer. */
  datatype Extractors = Extractors(
    pdf2json: Result<Option<seq<Page>>, string>,   // pdf2json's parse, or the `message` of its
                                                   // `parserError` (`""` when that is not an Error)
    decode: string -> string,                      // decodeURIComponent
    docx: Result<Option<string>, string>,          // mammoth's `result.value`, or its error
    utf8: string)                                  // buffer.toString("utf-8")

  /** The strategy list of `extractTextFromPDF`: pdf2json alone. */
  function PdfAttempts(ex: Extractors): seq<Attempt> {
    [Pdf2JsonAttempt(ex.pdf2json, ex.decode)]
  }

  /** `extractTextFromBuffer(buffer, fileType, fileName)`. */
  function ExtractTextFromBuffer(fileType: string, fileName: Option<string>, ex: Extractors): (r: Result<string, string>)
    ensures Classify(fileType, fileName).Err? ==> r == Err("Unsupported file type: " + fileType)
    ensures Classify(fileType, fileName) == Ok(Pdf) ==> r == ExtractTextFromPdf(PdfAttempts(ex))
    ensures Classify(fileType, fileName) == Ok(Txt) ==> r == Ok(ex.utf8)
    ensures Classify(fileType, fileName) == Ok(Docx) && ex.docx.Ok? ==>
      r == Ok(ex.docx.value.GetOr(""))
    ensures Classify(fileType, fileName) == Ok(Docx) && ex.docx.Err? ==> r == Err(ex.docx.error)
  {
    match Classify(fileType, fileName)
    case Err(e) => Err(e)
    case Ok(Pdf) => ExtractTextFromPdf(PdfAttempts(ex))
    case Ok(Docx) =>
      (match ex.docx
       case Err(e) => Err(e)
       case Ok(value) => Ok(value.GetOr("")))
    case Ok(Txt) => Ok(ex.utf8)
  }

  /** The four bytes `%PDF`. */
  const PdfMagic: seq<byte> := [0x25, 0x50, 0x44, 0x46]

  /** `buffer.slice(0, 4).toString().startsWith("%PDF")`: a UTF-8 decoding
      yields `%`, `P`, `D`, `F` only from those four ASCII bytes, so this holds
      exactly when the buffer begins with them. */
  predicate HasPdfSignature(buffer: seq<byte>) {
    |buffer| >= 4 && buffer[..4] == PdfMagic
  }

  /** The gate before extraction: the file claims to be a PDF (by content type,
      or by the lower-cased URL) but does not start with `%PDF`. */
  predicate SignatureRejects(fileType: string, url: string, buffer: seq<byte>) {
    (Contains(fileType, "pdf") || EndsWith(ToLower(url), ".pdf")) && !HasPdfSignature(buffer)
  }

  /** The gate uses the same PDF test as the classifier, so every buffer that
      reaches the PDF extractor starts with `%PDF`; buffers shorter than four
      bytes claimed as PDF are always rejected. */
  lemma GateGuardsPdfExtraction(fileType: string, url: string, buffer: seq<byte>)
    ensures !SignatureRejects(fileType, url, buffer) && Classify(fileType, Some(url)) == Ok(Pdf) ==>
      HasPdfSignature(buffer)
    ensures SignatureRejects(fileType, url, buffer) <==>
      Classify(fileType, Some(url)) == Ok(Pdf) && !HasPdfSignature(buffer)
    ensures |buffer| < 4 && PdfHint(fileType, Some(url)) ==> SignatureRejects(fileType, url, buffer)
  {
  }
}

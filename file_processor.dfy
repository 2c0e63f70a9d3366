/**
 * backend/services/file_processor.py: joining the text of a PDF's pages,
 * cleaning it up for the language model, and the size check.
 *
 * The PDF reader is not modelled: its outcome is the text of each page, or the
 * text of the exception it raised.
 */
module FileProcessor {
  import opened Wrappers
  import opened Python

  const MaxChars: nat := 8000
  const TruncationSuffix := "... [Content truncated for processing]"

  /** The pages' texts in page order, each followed by a newline. */
  function JoinPages(pages: seq<string>): string {
    if pages == [] then [] else JoinPages(pages[..|pages| - 1]) + pages[|pages| - 1] + "\n"
  }

  /** Joining two runs of pages is joining each and concatenating. */
  lemma {:induction false} JoinPagesAppend(a: seq<string>, b: seq<string>)
    ensures JoinPages(a + b) == JoinPages(a) + JoinPages(b)
    decreases |b|
  {
    if b == [] {
      assert a + b == a;
    } else {
      var last := b[|b| - 1];
      assert (a + b)[..|a + b| - 1] == a + b[..|b| - 1];
      JoinPagesAppend(a, b[..|b| - 1]);
    }
  }

  /** One newline per page and no other added character. */
  lemma {:induction false} JoinPagesLength(pages: seq<string>)
    ensures |JoinPages(pages)| == TotalLength(pages) + |pages|
  {
    if pages != [] {
      JoinPagesLength(pages[..|pages| - 1]);
    }
  }

  function TotalLength(pages: seq<string>): nat {
    if pages == [] then 0 else TotalLength(pages[..|pages| - 1]) + |pages[|pages| - 1]|
  }

  /** `' '.join(text.split())`. */
  function CollapseWhitespace(text: string): (r: string)
    ensures SplitWhitespace(r) == SplitWhitespace(text)
    ensures SingleSpaced(r)
    ensures '\n' !in r
  {
    var words := SplitWhitespace(text);
    SplitOfJoin(words);
    var r := JoinWithSpace(words);
    assert '\n' !in r by {
      forall i | 0 <= i < |r| ensures r[i] != '\n' {
        assert r[i] == ' ' || !IsSpace(r[i]);
      }
    }
    r
  }

  /** Collapsing twice is collapsing once: no whitespace run is left over. */
  lemma CollapseIdempotent(text: string)
    ensures CollapseWhitespace(CollapseWhitespace(text)) == CollapseWhitespace(text)
  {
    SplitOfJoin(SplitWhitespace(text));
  }

  /** The `len(text) > 8000` cut. */
  function Truncate(text: string): (r: string)
    ensures |text| <= MaxChars ==> r == text
    ensures |text| > MaxChars ==> r == text[..MaxChars] + TruncationSuffix
    ensures |r| <= MaxChars + |TruncationSuffix|
  {
    if |text| > MaxChars then text[..MaxChars] + TruncationSuffix else text
  }

  /** `_clean_extracted_text`. */
  function CleanExtractedText(text: string): (r: string)
    ensures r == Truncate(Without(CollapseWhitespace(text), '\0'))
    ensures '\0' !in r
    ensures '\n' !in r
    ensures |r| <= MaxChars + |TruncationSuffix|
  {
    var noNul := ReplaceAll(CollapseWhitespace(text), "\0", "");
    NulRemovalKeepsNoNewline(text);
    ReplaceDeletes(CollapseWhitespace(text), '\0');
    var lines := ReplaceAll(noNul, "\n\n\n", "\n\n");
    ReplaceAbsent(noNul, "\n\n\n", "\n\n");
    TruncateKeepsAbsent(lines, '\0');
    TruncateKeepsAbsent(lines, '\n');
    Truncate(lines)
  }

  /** The cut brings in no character that is absent from both the text and the suffix. */
  lemma TruncateKeepsAbsent(text: string, c: char)
    requires c !in text
    requires c == '\0' || c == '\n'
    ensures c !in Truncate(text)
  {
    assert c !in TruncationSuffix by {
      forall i | 0 <= i < |TruncationSuffix| ensures TruncationSuffix[i] != c {
      }
    }
    if |text| > MaxChars {
      assert forall x :: x in text[..MaxChars] ==> x in text;
    }
  }

  /** Removing the NUL characters from collapsed text removes them all and brings no newline back. */
  lemma NulRemovalKeepsNoNewline(text: string)
    ensures var noNul := ReplaceAll(CollapseWhitespace(text), "\0", "");
      '\0' !in noNul && '\n' !in noNul
  {
    ReplaceDeletes(CollapseWhitespace(text), '\0');
  }

  /** The `'\n\n\n'` replacement never finds anything: after collapsing there is no newline left. */
  lemma NewlineReplacementIsNoOp(text: string)
    ensures var noNul := ReplaceAll(CollapseWhitespace(text), "\0", "");
      ReplaceAll(noNul, "\n\n\n", "\n\n") == noNul
  {
    NulRemovalKeepsNoNewline(text);
    ReplaceAbsent(ReplaceAll(CollapseWhitespace(text), "\0", ""), "\n\n\n", "\n\n");
  }

  /** `_extract_text_from_pdf`, once the reader has given the pages (or failed). */
  method ExtractTextFromPdf(pages: Result<seq<string>, string>) returns (r: Result<string, string>)
    ensures pages.Err? ==> r == Err("PDF text extraction failed: " + pages.error)
    ensures pages.Ok? ==> r == Ok(CleanExtractedText(JoinPages(pages.value)))
  {
    if pages.Err? {
      return Err("PDF text extraction failed: " + pages.error);
    }
    var all := pages.value;
    var textContent := "";
    var pageNum := 0;
    while pageNum < |all|
      invariant 0 <= pageNum <= |all|
      invariant textContent == JoinPages(all[..pageNum])
    {
      assert all[..pageNum + 1][..pageNum] == all[..pageNum];
      textContent := textContent + all[pageNum] + "\n";
      pageNum := pageNum + 1;
    }
    assert all[..|all|] == all;
    r := Ok(CleanExtractedText(textContent));
  }

  /** `process_pdf`: the extraction, with its failure wrapped once more. */
  method ProcessPdf(pages: Result<seq<string>, string>) returns (r: Result<string, string>)
    ensures pages.Err? ==> r == Err("PDF processing failed: PDF text extraction failed: " + pages.error)
    ensures pages.Ok? ==> r == Ok(CleanExtractedText(JoinPages(pages.value)))
  {
    var extracted := ExtractTextFromPdf(pages);
    if extracted.Err? {
      assert "PDF processing failed: " + ("PDF text extraction failed: " + pages.error)
        == "PDF processing failed: PDF text extraction failed: " + pages.error;
      return Err("PDF processing failed: " + extracted.error);
    }
    r := extracted;
  }

  const DefaultMaxSizeMb: int := 10

  /**
   * `validate_file_size`. `readLength` is the length of what `file.file.read()`
   * returned, or `None` when reading raised; the size then stays 0.
   */
  function ValidateFileSize(readLength: Option<nat>, maxSizeMb: int): (ok: bool)
    ensures readLength.Some? ==> (ok <==> readLength.value <= maxSizeMb * 1024 * 1024)
    ensures readLength.None? ==> (ok <==> maxSizeMb >= 0)
  {
    var fileSize := if readLength.Some? then readLength.value else 0;
    fileSize <= maxSizeMb * 1024 * 1024
  }

  /** With the default bound, the backend's limit is the client's 10 MiB, inclusive, and an unreadable file passes. */
  lemma DefaultSizeBound(n: nat)
    ensures ValidateFileSize(Some(n), DefaultMaxSizeMb) <==> n <= 10_485_760
    ensures ValidateFileSize(None, DefaultMaxSizeMb)
  {
  }
}

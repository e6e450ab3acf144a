/** Mapping an open markdown document to the path of the HTML page the
    decker server publishes for it (`getDocumentHTMLPath`). The workspace
    relative path (`asRelativePath`) is an input. */
module DocumentPath {
  import opened Optional
  import opened Strings

  const SourceExtension := ".md"
  const OutputExtension := ".html"

  /** The relative path with its trailing source extension removed. */
  function Stem(relative: string): string
    requires EndsWith(relative, SourceExtension)
  {
    relative[..|relative| - |SourceExtension|]
  }

  /** The server path for a document, as the extension computes it: no path
      for an empty file name or a path not ending in ".md", otherwise the path
      with its FIRST ".md" rewritten to ".html". */
  function HtmlPath(fileName: string, relative: string): (r: Option<string>)
    ensures r.None? <==> fileName == "" || !EndsWith(relative, SourceExtension)
    ensures r.Some? ==>
      exists i :: IsFirstOccurrence(relative, SourceExtension, i) && ReplacedAt(relative, SourceExtension, OutputExtension, i, r.value)
  {
    if fileName == "" then None
    else if EndsWith(relative, SourceExtension) then
      assert OccursAt(relative, SourceExtension, |relative| - |SourceExtension|);
      var i := IndexOf(relative, SourceExtension).value;
      var r := ReplaceFirst(relative, SourceExtension, OutputExtension);
      assert ReplacedAt(relative, SourceExtension, OutputExtension, i, r);
      Some(r)
    else None
  }

  /** The server path as evidently intended: the trailing ".md" becomes ".html". */
  function SuffixHtmlPath(fileName: string, relative: string): (r: Option<string>)
    ensures r.None? <==> fileName == "" || !EndsWith(relative, SourceExtension)
    ensures r.Some? ==> EndsWith(r.value, OutputExtension)
  {
    if fileName == "" || !EndsWith(relative, SourceExtension) then None
    else Some(Stem(relative) + OutputExtension)
  }

  /** The source document a published ".html" path belongs to. */
  function MarkdownPathOf(htmlPath: string): Option<string> {
    if EndsWith(htmlPath, OutputExtension) then
      Some(htmlPath[..|htmlPath| - |OutputExtension|] + SourceExtension)
    else None
  }

  /** The corrected mapping can always be undone: the published page names
      its source document. */
  lemma SuffixHtmlPathRoundTrip(fileName: string, relative: string)
    requires SuffixHtmlPath(fileName, relative).Some?
    ensures MarkdownPathOf(SuffixHtmlPath(fileName, relative).value) == Some(relative)
  {
    var h := SuffixHtmlPath(fileName, relative).value;
    assert h[..|h| - |OutputExtension|] == Stem(relative);
    assert Stem(relative) + SourceExtension == relative;
  }

  /** The extension's mapping agrees with the intended one exactly when the
      first ".md" in the path is its suffix. */
  lemma HtmlPathAgreesIffFirstIsSuffix(fileName: string, relative: string)
    requires fileName != "" && EndsWith(relative, SourceExtension)
    ensures HtmlPath(fileName, relative) == SuffixHtmlPath(fileName, relative)
        <==> IsFirstOccurrence(relative, SourceExtension, |relative| - |SourceExtension|)
  {
    var n := |relative|;
    assert OccursAt(relative, SourceExtension, n - 3);
    var i := IndexOf(relative, SourceExtension).value;
    var r := ReplaceFirst(relative, SourceExtension, OutputExtension);
    var intended := Stem(relative) + OutputExtension;
    assert HtmlPath(fileName, relative) == Some(r);
    assert SuffixHtmlPath(fileName, relative) == Some(intended);
    assert i <= n - 3;
    if i == n - 3 {
      assert r == intended;
    } else {
      assert r[i + 1] == 'h';
      assert relative[i..i + 3][1] == 'm';
      assert intended[i + 1] != 'h';
      assert !IsFirstOccurrence(relative, SourceExtension, n - 3);
    }
  }

  /** A directory whose name contains ".md" is rewritten instead of the
      file's extension, and the result no longer names an HTML page. */
  lemma HtmlPathRewritesDirectory()
    ensures HtmlPath("/home/u/notes.md/intro.md", "notes.md/intro.md") == Some("notes.html/intro.md")
    ensures MarkdownPathOf("notes.html/intro.md") == None
    ensures SuffixHtmlPath("/home/u/notes.md/intro.md", "notes.md/intro.md") == Some("notes.md/intro.html")
  {
    var rel := "notes.md/intro.md";
    assert OccursAt(rel, SourceExtension, 5);
    forall j | 0 <= j < 5
      ensures !OccursAt(rel, SourceExtension, j)
    {
      assert rel[j..j + 3][0] == rel[j] != '.';
    }
    assert IsFirstOccurrence(rel, SourceExtension, 5);
    assert rel[..5] + OutputExtension + rel[8..] == "notes.html/intro.md";
    assert Stem(rel) + OutputExtension == "notes.md/intro.html";
  }
}

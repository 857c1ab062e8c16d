/** `load_pdf_documents_from_folder`: the documents the knowledge-base builder reads from its folder. */
module PdfLoader {
  import opened Strings

  /**
   * What processing one file gives: either `PdfReader` or a page's `extract_text()` raised, or
   * the result of `extract_text()` for every page (None when the library found no text).
   */
  datatype PdfRead = ReadFails | Pages(pages: seq<Option<string>>)

  /** One entry of the folder, in `os.listdir` order. */
  datatype FolderEntry = FolderEntry(name: string, read: PdfRead)

  datatype Document = Document(text: string, source: string)

  const PageSeparator: string := "\n\n"

  /** `if page_text:` — present and non-empty. */
  predicate HasText(page: Option<string>) {
    page.Some? && page.value != ""
  }

  /** The text the page loop accumulates: every page that has text, each followed by a blank line. */
  function PageText(pages: seq<Option<string>>): string {
    if pages == [] then ""
    else
      var last := pages[|pages| - 1];
      PageText(pages[..|pages| - 1]) + (if HasText(last) then last.value + PageSeparator else "")
  }

  /** The document one folder entry contributes, if any. */
  function EntryDocument(entry: FolderEntry): Option<Document> {
    if !EndsWith(entry.name, ".pdf") then None
    else match entry.read
      case ReadFails => None
      case Pages(pages) =>
        var text := PageText(pages);
        if Strip(text) == "" then None else Some(Document(Strip(text), entry.name))
  }

  /** The documents of a folder, in listing order. */
  function LoadedDocuments(folder: seq<FolderEntry>): seq<Document> {
    if folder == [] then []
    else
      LoadedDocuments(folder[..|folder| - 1]) + EntryDocuments(folder[|folder| - 1])
  }

  /** The entry's document as a list of zero or one. */
  function EntryDocuments(entry: FolderEntry): seq<Document> {
    match EntryDocument(entry) case None => [] case Some(d) => [d]
  }

  method LoadPdfDocuments(folder: seq<FolderEntry>) returns (documents: seq<Document>)
    ensures documents == LoadedDocuments(folder)
  {
    documents := [];
    for k := 0 to |folder|
      invariant documents == LoadedDocuments(folder[..k])
    {
      assert folder[..k + 1][..k] == folder[..k];
      var entry := folder[k];
      assert LoadedDocuments(folder[..k + 1]) == LoadedDocuments(folder[..k]) + EntryDocuments(entry);
      if EndsWith(entry.name, ".pdf") {
        match entry.read {
          case ReadFails =>
            // the exception is reported and only this file is skipped
          case Pages(pages) =>
            var text := "";
            for n := 0 to |pages|
              invariant text == PageText(pages[..n])
            {
              assert pages[..n + 1][..n] == pages[..n];
              var pageText := pages[n];
              if HasText(pageText) {
                text := text + pageText.value + PageSeparator;
              }
            }
            assert pages[..|pages|] == pages;
            assert text == PageText(entry.read.pages);
            if Strip(text) != "" {
              documents := documents + [Document(Strip(text), entry.name)];
            }
        }
      }
    }
    assert folder[..|folder|] == folder;
  }

  /** A folder entry yields a document exactly when it is a readable `.pdf` whose page text is not blank. */
  lemma EntryDocumentIff(entry: FolderEntry, d: Document)
    ensures EntryDocument(entry) == Some(d)
        <==> EndsWith(entry.name, ".pdf") && entry.read.Pages? && !IsBlank(PageText(entry.read.pages))
             && d == Document(Strip(PageText(entry.read.pages)), entry.name)
  {
    if entry.read.Pages? {
      StripEmptyIffBlank(PageText(entry.read.pages));
    }
  }

  /** Processing is per file: the documents of two listings side by side are those of each. */
  lemma {:induction false} LoadedDocumentsAppend(a: seq<FolderEntry>, b: seq<FolderEntry>)
    ensures LoadedDocuments(a + b) == LoadedDocuments(a) + LoadedDocuments(b)
    decreases |b|
  {
    if b == [] {
      assert a + b == a;
    } else {
      var b' := b[..|b| - 1];
      assert (a + b)[..|a + b| - 1] == a + b';
      assert (a + b)[|a + b| - 1] == b[|b| - 1];
      LoadedDocumentsAppend(a, b');
    }
  }

  lemma LoadedSingle(entry: FolderEntry)
    ensures LoadedDocuments([entry]) == EntryDocuments(entry)
  {
    assert [entry][..0] == [];
  }

  /** The documents of a folder around one entry. */
  lemma SplitAt(folder: seq<FolderEntry>, i: nat)
    requires i < |folder|
    ensures LoadedDocuments(folder)
         == LoadedDocuments(folder[..i]) + EntryDocuments(folder[i]) + LoadedDocuments(folder[i + 1..])
  {
    var before, single, after := folder[..i], [folder[i]], folder[i + 1..];
    var tail := single + after;
    SeqSplit(folder, i);
    LoadedDocumentsAppend(before, tail);
    LoadedDocumentsAppend(single, after);
    LoadedSingle(folder[i]);
    calc {
      LoadedDocuments(folder);
      LoadedDocuments(before) + LoadedDocuments(tail);
      LoadedDocuments(before) + (EntryDocuments(folder[i]) + LoadedDocuments(after));
    }
  }

  /**
   * An entry that raised, is not a `.pdf`, or has only blank text is skipped and nothing else
   * changes: the documents are those of the entries before it followed by those after it.
   */
  lemma SkippedEntryAffectsOnlyItself(folder: seq<FolderEntry>, i: nat)
    requires i < |folder| && EntryDocument(folder[i]).None?
    ensures LoadedDocuments(folder) == LoadedDocuments(folder[..i]) + LoadedDocuments(folder[i + 1..])
  {
    SplitAt(folder, i);
  }

  /** Every readable, non-blank `.pdf` of the folder contributes its document. */
  lemma EntryDocumentLoaded(folder: seq<FolderEntry>, i: nat)
    requires i < |folder| && EntryDocument(folder[i]).Some?
    ensures EntryDocument(folder[i]).value in LoadedDocuments(folder)
  {
    SplitAt(folder, i);
  }

  /** Every loaded document comes from a `.pdf` entry of the folder, under that entry's name. */
  lemma {:induction false} LoadedDocumentOrigin(folder: seq<FolderEntry>, d: Document)
    requires d in LoadedDocuments(folder)
    ensures exists i :: 0 <= i < |folder| && EntryDocument(folder[i]) == Some(d)
    ensures EndsWith(d.source, ".pdf") && !IsBlank(d.text)
    decreases |folder|
  {
    var init := folder[..|folder| - 1];
    if d in LoadedDocuments(init) {
      LoadedDocumentOrigin(init, d);
      var i :| 0 <= i < |init| && EntryDocument(init[i]) == Some(d);
      assert folder[i] == init[i];
    } else {
      assert EntryDocument(folder[|folder| - 1]) == Some(d);
      StripEmptyIffBlank(d.text);
      assert Strip(d.text) == d.text by {
        StripIdempotent(PageText(folder[|folder| - 1].read.pages));
      }
    }
  }

  /** A PDF none of whose pages has extractable text (a scanned image, say) is omitted. */
  lemma {:induction false} NoPageTextOmitted(entry: FolderEntry)
    requires entry.read.Pages? && forall n :: 0 <= n < |entry.read.pages| ==> !HasText(entry.read.pages[n])
    ensures EntryDocument(entry).None?
  {
    PageTextEmpty(entry.read.pages);
  }

  lemma {:induction false} PageTextEmpty(pages: seq<Option<string>>)
    requires forall n :: 0 <= n < |pages| ==> !HasText(pages[n])
    ensures PageText(pages) == ""
    decreases |pages|
  {
    if pages != [] {
      PageTextEmpty(pages[..|pages| - 1]);
    }
  }
}

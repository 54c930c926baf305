/**
 * The knowledge-base ingestion script: list the knowledge-base directory,
 * keep the PDF files, and ingest them one after another, aborting with exit
 * code 1 on the first failure. The directory listing is an input (None when
 * listing throws) and the ingestion of one file is an abstract step that
 * succeeds or fails.
 */
module IngestKnowledgeBase {
  import opened Wrappers
  import opened Text

  /** One `ingestPDF(filePath, source)` call. */
  datatype IngestCall = IngestCall(filePath: string, source: string)
  type IngestStep = IngestCall -> bool

  /** Directory entries whose names end in ".pdf" (case-sensitive), in listing order. */
  function PdfFiles(entries: seq<string>): (files: seq<string>)
    ensures |files| <= |entries|
    ensures forall f :: f in files <==> f in entries && EndsWith(f, ".pdf")
    decreases |entries|
  {
    if |entries| == 0 then []
    else
      var rest := PdfFiles(entries[1..]);
      assert forall f :: f in entries <==> f == entries[0] || f in entries[1..];
      if EndsWith(entries[0], ".pdf") then [entries[0]] + rest else rest
  }

  /** Filtering distributes over concatenation, so it keeps the listing order. */
  lemma {:induction false} PdfFilesAppend(a: seq<string>, b: seq<string>)
    ensures PdfFiles(a + b) == PdfFiles(a) + PdfFiles(b)
    decreases |a|
  {
    if |a| > 0 {
      assert (a + b)[1..] == a[1..] + b;
      PdfFilesAppend(a[1..], b);
    } else {
      assert a + b == b;
    }
  }

  function JoinPath(directory: string, file: string): string
  {
    directory + "/" + file
  }

  /**
   * `main`: the calls made are the PDF files in order, each with its own
   * name as the source; the run stops at the first failed call.
   */
  method IngestAll(kbDirectory: string, listing: Option<seq<string>>, ingest: IngestStep)
    returns (calls: seq<IngestCall>, exitCode: int)
    ensures listing.None? ==> calls == [] && exitCode == 1
    ensures listing.Some? ==>
      var files := PdfFiles(listing.value);
      |calls| <= |files| &&
      (forall k :: 0 <= k < |calls| ==> calls[k] == IngestCall(JoinPath(kbDirectory, files[k]), files[k])) &&
      (forall k :: 0 <= k < |calls| - 1 ==> ingest(calls[k])) &&
      (exitCode == 0 <==> |calls| == |files| && forall k :: 0 <= k < |calls| ==> ingest(calls[k])) &&
      (exitCode != 0 ==> exitCode == 1 && |calls| > 0 && !ingest(calls[|calls| - 1])) &&
      (files == [] ==> calls == [] && exitCode == 0)
  {
    calls := [];
    if listing.None? {
      return [], 1;
    }
    var files := PdfFiles(listing.value);
    if |files| == 0 {
      return [], 0;
    }
    var i := 0;
    while i < |files|
      invariant 0 <= i <= |files| && |calls| == i
      invariant forall k :: 0 <= k < i ==> calls[k] == IngestCall(JoinPath(kbDirectory, files[k]), files[k])
      invariant forall k :: 0 <= k < i ==> ingest(calls[k])
    {
      var call := IngestCall(JoinPath(kbDirectory, files[i]), files[i]);
      calls := calls + [call];
      if !ingest(call) {
        return calls, 1;
      }
      i := i + 1;
    }
    exitCode := 0;
  }
}

/**
 * The HTTP handlers of the chat server, as functions of the parsed request:
 * `/chat` (one message in a memory thread) and `/chat/upload` (a lab report
 * or document whose text is folded into the message), with the upload
 * filter that decides which files reach the handler.
 *
 * The agent is a parameter that maps a message and its memory scope to a
 * generation; the file's text as read or parsed from disk is an input, None
 * when reading or parsing throws.
 */
module Server {
  import opened Wrappers
  import opened Text
  import opened Llm

  const AllowedTypes: seq<string> := [".pdf", ".txt", ".png", ".jpg", ".jpeg"]
  const ImageTypes: seq<string> := [".png", ".jpg", ".jpeg"]
  /** Characters of extracted text that go into the agent's message. */
  const MaxExtractedChars: nat := 5000
  const ChatFallback: string := "I'm having trouble processing your request right now."
  const UploadFallback: string := "I'm having trouble analyzing this document."
  const InvalidFileType: string := "Invalid file type. Allowed: PDF, TXT, PNG, JPG, JPEG"

  datatype MemoryScope = MemoryScope(thread: string, resource: string)
  type Agent = (string, MemoryScope) -> Generation
  datatype UploadedFile = UploadedFile(originalName: string)
  datatype FileProcessed = FileProcessed(name: string, fileType: string, textLength: nat)
  datatype Body =
    | ErrorBody(error: string)
    | ChatReply(response: string, threadId: string)
    | UploadReply(response: string, threadId: string, fileProcessed: FileProcessed)
    /** Express's default error page for an error passed on by middleware. */
    | ErrorPage(error: string)
  datatype Response = Response(status: nat, body: Body)
  datatype Extraction = PdfExtraction | TextExtraction | ImagePlaceholder | NoExtraction

  // ---------------------------------------------------------------------
  // File names

  function LastIndexOf(s: string, c: char): (r: Option<nat>)
    ensures r.Some? ==> r.value < |s| && s[r.value] == c && forall j :: r.value < j < |s| ==> s[j] != c
    ensures r.None? ==> forall j :: 0 <= j < |s| ==> s[j] != c
    decreases |s|
  {
    if |s| == 0 then None
    else if s[|s| - 1] == c then Some(|s| - 1)
    else LastIndexOf(s[..|s| - 1], c)
  }

  /** The last path segment. */
  function BaseName(path: string): (base: string)
    ensures EndsWith(path, base) && '/' !in base
    ensures '/' !in path ==> base == path
    ensures '/' in path ==> |base| < |path| && path[|path| - |base| - 1] == '/'
  {
    match LastIndexOf(path, '/')
    case None => path
    case Some(k) => path[k + 1..]
  }

  /** The extension of a base name: from its last '.', unless that '.' is first or the name is "..". */
  function BaseExt(base: string): string
  {
    match LastIndexOf(base, '.')
    case None => ""
    case Some(k) => if k == 0 || base == ".." then "" else base[k..]
  }

  /**
   * `path.extname`: the base name from its last '.', or '' when it has no
   * '.', when its only '.' is its first character, or when it is "..".
   */
  function Extname(path: string): string
  {
    BaseExt(BaseName(path))
  }

  lemma SuffixOfSuffix(s: string, t: string, k: nat)
    requires EndsWith(s, t) && k <= |t|
    ensures EndsWith(s, t[k..])
  {
    assert s[|s| - |t|..][k..] == s[|s| - |t[k..]|..];
  }

  /** The shape of a base name's extension (see `ExtnameShape`). */
  lemma BaseExtShape(base: string)
    ensures var ext := BaseExt(base);
      ext == "" || (ext[0] == '.' && '.' !in ext[1..] && EndsWith(base, ext) && |ext| < |base| &&
                    forall j :: 0 <= j < |ext| ==> ext[j] == base[|base| - |ext| + j])
    ensures BaseExt(base) == "" <==>
      base == ".." || forall j :: 0 < j < |base| ==> base[j] != '.'
  {
    var r := LastIndexOf(base, '.');
    if r.Some? && r.value != 0 && base != ".." {
      var k := r.value;
      var ext := base[k..];
      forall j | 0 <= j < |ext[1..]| ensures ext[1..][j] != '.' {
        assert ext[1..][j] == base[k + 1 + j];
      }
    }
  }

  /**
   * A non-empty extension is a proper suffix of the base name that starts
   * with its only '.'; the extension is empty exactly when the base name has
   * no '.' past its first character (or is "..").
   */
  lemma ExtnameShape(path: string)
    ensures var ext := Extname(path);
      ext == "" || (ext[0] == '.' && '.' !in ext[1..] && '/' !in ext &&
                    EndsWith(path, ext) && |ext| < |BaseName(path)|)
    ensures Extname(path) == "" <==>
      BaseName(path) == ".." || forall j :: 0 < j < |BaseName(path)| ==> BaseName(path)[j] != '.'
  {
    var base := BaseName(path);
    assert EndsWith(path, base) && '/' !in base;
    BaseExtShape(base);
    var ext := BaseExt(base);
    assert Extname(path) == ext;
    if ext != "" {
      var k := |base| - |ext|;
      assert base[k..] == ext;
      forall j | 0 <= j < |ext| ensures ext[j] != '/' {
        assert ext[j] == base[k + j] && base[k + j] in base;
      }
      SuffixOfSuffix(path, base, k);
    }
  }

  /** Multer's `fileFilter`: the lower-cased extension is one of the allowed types. */
  function FileFilter(originalName: string): (accepted: bool)
  {
    Lower(Extname(originalName)) in AllowedTypes
  }

  /** The extraction branch chosen for a lower-cased extension. */
  function ExtractionFor(ext: string): (kind: Extraction)
    ensures kind == PdfExtraction <==> ext == ".pdf"
    ensures kind == TextExtraction <==> ext == ".txt"
    ensures kind == ImagePlaceholder <==> ext in ImageTypes
  {
    if ext == ".pdf" then PdfExtraction
    else if ext == ".txt" then TextExtraction
    else if ext in ImageTypes then ImagePlaceholder
    else NoExtraction
  }

  /** Every file the filter lets through has an extraction branch of its own. */
  lemma AcceptedFilesAreExtracted(originalName: string)
    ensures FileFilter(originalName) <==> ExtractionFor(Lower(Extname(originalName))) != NoExtraction
  {
  }

  /**
   * A name made of a stem and an extension `.xyz` (no '/' anywhere, no further
   * '.' in the extension) has that extension, whatever the stem holds.
   */
  lemma ExtnameOfStem(stem: string, ext: string)
    requires stem != "" && '/' !in stem
    requires |ext| >= 2 && ext[0] == '.' && forall j :: 0 < j < |ext| ==> ext[j] != '.' && ext[j] != '/'
    ensures Extname(stem + ext) == ext
  {
    var path := stem + ext;
    assert forall j :: 0 <= j < |path| ==> path[j] != '/' by {
      forall j | 0 <= j < |path| ensures path[j] != '/' {
        if j < |stem| { assert path[j] == stem[j]; } else { assert path[j] == ext[j - |stem|]; }
      }
    }
    assert BaseName(path) == path;
    assert forall j :: |stem| < j < |path| ==> path[j] != '.' by {
      forall j | |stem| < j < |path| ensures path[j] != '.' {
        assert path[j] == ext[j - |stem|];
      }
    }
    assert path[|stem|] == '.';
    assert LastIndexOf(path, '.') == Some(|stem|);
    assert path[|stem|..] == ext;
  }

  /**
   * The filter decides on the extension alone, ignoring its case: such a name
   * is accepted exactly when the lower-cased extension is an allowed type.
   */
  lemma FileFilterOfStem(stem: string, ext: string)
    requires stem != "" && '/' !in stem
    requires |ext| >= 2 && ext[0] == '.' && forall j :: 0 < j < |ext| ==> ext[j] != '.' && ext[j] != '/'
    ensures FileFilter(stem + ext) <==> Lower(ext) in AllowedTypes
  {
    ExtnameOfStem(stem, ext);
  }

  function ImagePlaceholderText(name: string): string
  {
    "[Image uploaded: " + name + ". This appears to be a medical image/scan that requires visual analysis.]"
  }

  /**
   * The text taken from the file for its branch; None when reading or parsing
   * threw. This is the specification of the extraction step; `ExtractText`
   * is the handler's own branch-by-branch assignment, proved equal to it.
   */
  function Extracted(kind: Extraction, name: string, fileText: Option<string>): (text: Option<string>)
    ensures kind == ImagePlaceholder ==> text == Some(ImagePlaceholderText(name))
    ensures kind == NoExtraction ==> text == Some("")
    ensures (kind == PdfExtraction || kind == TextExtraction) ==> text == fileText
  {
    match kind
    case PdfExtraction => fileText
    case TextExtraction => fileText
    case ImagePlaceholder => Some(ImagePlaceholderText(name))
    case NoExtraction => Some("")
  }

  // ---------------------------------------------------------------------
  // Message composition and memory scope

  function UploadHeader(message: Option<string>, name: string): string
  {
    if Truthy(message) then message.value + "\n\nUploaded document (" + name + "):\n"
    else "Please analyze this uploaded document (" + name + "):\n"
  }

  /** The agent's message for an upload: a header, then at most 5000 characters of the text. */
  function UserMessage(message: Option<string>, name: string, extracted: string): (m: string)
    ensures m == UploadHeader(message, name) + Take(extracted, MaxExtractedChars)
    ensures |m| == |UploadHeader(message, name)| + (if |extracted| <= MaxExtractedChars then |extracted| else MaxExtractedChars)
    ensures Truthy(message) ==> IsPrefix(message.value, m)
    ensures |extracted| <= MaxExtractedChars ==> EndsWith(m, extracted)
  {
    var header := UploadHeader(message, name);
    var m := header + Take(extracted, MaxExtractedChars);
    assert Truthy(message) ==> m[..|message.value|] == message.value;
    assert m[|m| - |Take(extracted, MaxExtractedChars)|..] == Take(extracted, MaxExtractedChars);
    m
  }

  /** The memory thread is the session; the resource is `resourceId || sessionId`. */
  function MemoryScopeFor(sessionId: string, resourceId: Option<string>): (scope: MemoryScope)
    ensures scope.thread == sessionId
    ensures Truthy(resourceId) ==> scope.resource == resourceId.value
    ensures !Truthy(resourceId) ==> scope.resource == sessionId
    ensures sessionId != "" ==> scope.resource != ""
  {
    MemoryScope(sessionId, OrElse(resourceId, sessionId))
  }

  // ---------------------------------------------------------------------
  // Handlers

  /** `POST /chat`. */
  method Chat(message: Option<string>, sessionId: Option<string>, resourceId: Option<string>,
              agentAvailable: bool, agent: Agent)
    returns (res: Response)
    ensures !(Truthy(message) && Truthy(sessionId)) ==>
      res == Response(400, ErrorBody("message and sessionId are required"))
    ensures Truthy(message) && Truthy(sessionId) && !agentAvailable ==>
      res == Response(500, ErrorBody("MediBot agent not available"))
    ensures Truthy(message) && Truthy(sessionId) && agentAvailable ==>
      var g := agent(message.value, MemoryScopeFor(sessionId.value, resourceId));
      (g.GenerationFailed? ==> res == Response(500, ErrorBody("Internal server error"))) &&
      (g.Generated? ==> res == Response(200, ChatReply(OrElse(g.text, ChatFallback), sessionId.value)))
    ensures res.status == 200 ==> res.body.ChatReply? && res.body.response != ""
  {
    if !Truthy(message) || !Truthy(sessionId) {
      return Response(400, ErrorBody("message and sessionId are required"));
    }
    if !agentAvailable {
      return Response(500, ErrorBody("MediBot agent not available"));
    }
    var g := agent(message.value, MemoryScopeFor(sessionId.value, resourceId));
    if g.GenerationFailed? {
      return Response(500, ErrorBody("Internal server error"));
    }
    var responseText := OrElse(g.text, ChatFallback);
    res := Response(200, ChatReply(responseText, sessionId.value));
  }

  /**
   * The extraction step of the upload handler: `extractedText` starts empty
   * and is set by the branch of the extension; None when reading or parsing throws.
   */
  method ExtractText(ext: string, name: string, fileText: Option<string>) returns (text: Option<string>)
    ensures text == Extracted(ExtractionFor(ext), name, fileText)
    ensures ext == ".pdf" || ext == ".txt" ==> text == fileText
    ensures ext in ImageTypes ==> text == Some(ImagePlaceholderText(name))
    ensures ext != ".pdf" && ext != ".txt" && ext !in ImageTypes ==> text == Some("")
  {
    var extractedText := "";
    if ext == ".pdf" {
      if fileText.None? {
        return None;
      }
      extractedText := fileText.value;
    } else if ext == ".txt" {
      if fileText.None? {
        return None;
      }
      extractedText := fileText.value;
    } else if ext in ImageTypes {
      extractedText := ImagePlaceholderText(name);
    }
    text := Some(extractedText);
  }

  /**
   * The second half of the upload handler, once the text is extracted: the
   * agent gets the composed message in the session's memory scope, and the
   * reply reports the file's name, extension and full text length.
   */
  method AnswerUpload(sessionId: string, message: Option<string>, resourceId: Option<string>,
                      name: string, ext: string, extractedText: string, agentAvailable: bool, agent: Agent)
    returns (res: Response)
    ensures !agentAvailable ==> res == Response(500, ErrorBody("MediBot agent not available"))
    ensures agentAvailable ==>
      var g := agent(UserMessage(message, name, extractedText), MemoryScopeFor(sessionId, resourceId));
      (g.GenerationFailed? ==> res == Response(500, ErrorBody("Error processing uploaded file"))) &&
      (g.Generated? ==> res == Response(200, UploadReply(OrElse(g.text, UploadFallback), sessionId,
                                                         FileProcessed(name, ext, |extractedText|))))
    ensures res.status == 200 ==> res.body.UploadReply? && res.body.response != ""
  {
    var userMessage := UserMessage(message, name, extractedText);
    if !agentAvailable {
      return Response(500, ErrorBody("MediBot agent not available"));
    }
    var g := agent(userMessage, MemoryScopeFor(sessionId, resourceId));
    if g.GenerationFailed? {
      return Response(500, ErrorBody("Error processing uploaded file"));
    }
    var responseText := OrElse(g.text, UploadFallback);
    res := Response(200, UploadReply(responseText, sessionId, FileProcessed(name, ext, |extractedText|)));
  }

  /**
   * `POST /chat/upload`: multer's file filter runs first, and a rejected file
   * never reaches the handler; its error becomes Express's default 500 page.
   * The handler then checks the session before the file.
   */
  method Upload(sessionId: Option<string>, message: Option<string>, resourceId: Option<string>,
                file: Option<UploadedFile>, fileText: Option<string>, agentAvailable: bool, agent: Agent)
    returns (res: Response)
    ensures file.Some? && !FileFilter(file.value.originalName) ==> res == Response(500, ErrorPage(InvalidFileType))
    ensures res.status == 200 ==> file.Some? && FileFilter(file.value.originalName)
    ensures (file.None? || FileFilter(file.value.originalName)) && !Truthy(sessionId) ==>
      res == Response(400, ErrorBody("sessionId is required"))
    ensures Truthy(sessionId) && file.None? ==> res == Response(400, ErrorBody("No file uploaded"))
    ensures Truthy(sessionId) && file.Some? && FileFilter(file.value.originalName) ==>
      var name := file.value.originalName;
      var ext := Lower(Extname(name));
      var extracted := Extracted(ExtractionFor(ext), name, fileText);
      (extracted.None? ==> res == Response(500, ErrorBody("Error processing uploaded file"))) &&
      (extracted.Some? && !agentAvailable ==> res == Response(500, ErrorBody("MediBot agent not available"))) &&
      (extracted.Some? && agentAvailable ==>
        var g := agent(UserMessage(message, name, extracted.value), MemoryScopeFor(sessionId.value, resourceId));
        (g.GenerationFailed? ==> res == Response(500, ErrorBody("Error processing uploaded file"))) &&
        (g.Generated? ==> res == Response(200, UploadReply(OrElse(g.text, UploadFallback), sessionId.value,
                                                           FileProcessed(name, ext, |extracted.value|)))))
    ensures res.status == 200 ==> res.body.UploadReply? && res.body.response != ""
  {
    if file.Some? && !FileFilter(file.value.originalName) {
      return Response(500, ErrorPage(InvalidFileType));
    }
    if !Truthy(sessionId) {
      return Response(400, ErrorBody("sessionId is required"));
    }
    if file.None? {
      return Response(400, ErrorBody("No file uploaded"));
    }
    var name := file.value.originalName;
    var ext := Lower(Extname(name));
    var extracted := ExtractText(ext, name, fileText);
    if extracted.None? {
      return Response(500, ErrorBody("Error processing uploaded file"));
    }
    res := AnswerUpload(sessionId.value, message, resourceId, name, ext, extracted.value, agentAvailable, agent);
  }
}

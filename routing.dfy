/** What the two documentation request handlers have in common: how a GET
    path is routed, how a document's file name becomes its page title, how
    its text becomes the page content, and the reply a handler sends for a
    document.  The handlers differ only in the headers they add and in the
    messages of their error replies, which a `Style` records. */
module Routing {
  import opened Text

  datatype Option<T> = None | Some(value: T)

  datatype Result<T> = Ok(value: T) | Err(error: string)

  /** The files of the handler's working directory: each name that exists
      maps to its text, or to the message of the error that reading it
      raises (a directory, a file that is not UTF-8). */
  type FileSystem = map<string, Result<string>>

  /** A markdown-to-HTML converter, or the message of the error it raises. */
  type Converter = string -> Result<string>

  /** `os.path.exists`: the empty name never exists. */
  predicate Exists(fs: FileSystem, name: string) {
    name != "" && name in fs
  }

  // ---------------------------------------------------------------------
  // Routing a GET request

  datatype Route = Dashboard | DocumentRoute(name: string) | StaticRoute(path: string)

  /** The document a `/document/...` path names: the text after its last '/'. */
  function DocumentName(path: string): string {
    Last(Split(path, '/'))
  }

  /** The dashboard for "/" and "/index.html", a document for any path under
      "/document/", and otherwise the static file the framework serves. */
  function RouteOf(path: string): (r: Route)
    ensures r == Dashboard <==> path == "/" || path == "/index.html"
    ensures r.DocumentRoute? <==> path != "/" && path != "/index.html" && StartsWith(path, "/document/")
    ensures r.StaticRoute? ==> r == StaticRoute(path)
  {
    if path == "/" || path == "/index.html" then Dashboard
    else if StartsWith(path, "/document/") then DocumentRoute(DocumentName(path))
    else StaticRoute(path)
  }

  /** The dashboard links to `/document/<name>`; such a path routes back to
      `<name>` whenever the name holds no '/'. */
  lemma RouteOfDocumentLink(name: string)
    requires '/' !in name
    ensures RouteOf("/document/" + name) == DocumentRoute(name)
  {
    var path := "/document/" + name;
    assert path[..10] == "/document/";
    assert path != "/" && path != "/index.html" by {
      assert path[1] == 'd' != "/index.html"[1];
    }
    LastPiece(path, '/');
    var piece := DocumentName(path);
    assert path[9] == '/';
    assert path[|path| - |name|..] == name;
  }

  /** Whatever the path, the document name is a suffix of it without '/',
      preceded by the '/' that ends the directory part. */
  lemma DocumentNameIsLastSegment(path: string)
    requires StartsWith(path, "/document/")
    ensures '/' !in DocumentName(path)
    ensures |DocumentName(path)| < |path|
    ensures path[|path| - |DocumentName(path)|..] == DocumentName(path)
    ensures path[|path| - |DocumentName(path)| - 1] == '/'
  {
    assert path[0] == '/';
    LastPiece(path, '/');
  }

  /** A path built from '/'-free segments, the first two of which are empty
      and "document", routes to the document its last segment names. */
  lemma RouteOfSegments(segments: seq<string>)
    requires |segments| >= 3 && segments[0] == "" && segments[1] == "document"
    requires forall k :: 0 <= k < |segments| ==> '/' !in segments[k]
    ensures RouteOf(Join(segments, '/')) == DocumentRoute(Last(segments))
  {
    var path := Join(segments, '/');
    var rest := Join(segments[2..], '/');
    var tail := segments[1..];
    assert tail[0] == "document" && tail[1..] == segments[2..];
    assert Join(tail, '/') == "document" + "/" + rest;
    assert path == "" + "/" + Join(tail, '/');
    assert path == "/document/" + rest;
    assert path[..10] == "/document/";
    assert path != "/" && path != "/index.html" by {
      assert path[1] == 'd' != "/index.html"[1];
    }
    SplitJoin(segments, '/');
  }

  // ---------------------------------------------------------------------
  // The page title and content of a document

  /** The page title of a file: every underscore becomes a space, then every
      ".md" in the result is removed. */
  function Title(filename: string): string {
    ReplaceAll(ReplaceAll(filename, "_", " "), ".md", "")
  }

  /** No title holds an underscore. */
  lemma TitleHasNoUnderscore(filename: string)
    ensures '_' !in Title(filename)
  {
    var spaced := ReplaceAll(filename, "_", " ");
    ReplaceCharAt(filename, '_', ' ');
    assert '_' !in spaced by {
      forall i | 0 <= i < |spaced| ensures spaced[i] != '_' { }
    }
    if '_' in Title(filename) {
      ReplaceAllChars(spaced, ".md", "", '_');
    }
  }

  /** The title of `<stem>.md` is the stem with each underscore turned into a
      space, provided the stem holds no ".md" of its own. */
  lemma TitleOfMarkdownFile(stem: string)
    requires !Contains(stem, ".md")
    ensures |Title(stem + ".md")| == |stem|
    ensures forall i :: 0 <= i < |stem| ==>
      Title(stem + ".md")[i] == if stem[i] == '_' then ' ' else stem[i]
  {
    var file := stem + ".md";
    var spacedFile := ReplaceAll(file, "_", " ");
    var spacedStem := ReplaceAll(stem, "_", " ");
    ReplaceCharAt(file, '_', ' ');
    ReplaceCharAt(stem, '_', ' ');
    assert spacedFile == spacedStem + ".md" by {
      forall i | 0 <= i < |spacedFile| ensures spacedFile[i] == (spacedStem + ".md")[i] {
        if i < |stem| { assert file[i] == stem[i]; } else { assert file[i] == ".md"[i - |stem|]; }
      }
    }
    assert !Contains(spacedStem, ".md") by {
      forall i | 0 <= i <= |spacedStem| - 3 ensures !OccursAt(spacedStem, ".md", i) {
        if OccursAt(spacedStem, ".md", i) {
          SpacingKeepsMd(stem, i);
        }
      }
    }
    RemoveMdSuffix(spacedStem);
  }

  /** Turning underscores into spaces creates no ".md". */
  lemma SpacingKeepsMd(stem: string, i: int)
    requires OccursAt(ReplaceAll(stem, "_", " "), ".md", i)
    ensures OccursAt(stem, ".md", i)
  {
    var spaced := ReplaceAll(stem, "_", " ");
    ReplaceCharAt(stem, '_', ' ');
    var w := spaced[i..i + 3];
    assert w == ".md";
    assert w[0] == '.' && w[1] == 'm' && w[2] == 'd';
    assert stem[i] == '.' && stem[i + 1] == 'm' && stem[i + 2] == 'd' by {
      assert spaced[i] == w[0] && spaced[i + 1] == w[1] && spaced[i + 2] == w[2];
    }
    assert stem[i..i + 3] == ".md";
  }

  /** The page content: a markdown file goes through the converter, any other
      file is shown as preformatted text. */
  function RenderContent(filename: string, content: string, convert: Converter): Result<string> {
    if EndsWith(filename, ".md") then convert(content) else Ok("<pre>" + content + "</pre>")
  }

  /** A file that is not markdown never reaches the converter, and the tags
      wrap exactly its text. */
  lemma PlainTextIsPreformatted(filename: string, content: string, convert: Converter, other: Converter)
    requires !EndsWith(filename, ".md")
    ensures RenderContent(filename, content, convert) == RenderContent(filename, content, other)
    ensures var html := RenderContent(filename, content, convert).value;
      RenderContent(filename, content, convert).Ok? &&
      StartsWith(html, "<pre>") && EndsWith(html, "</pre>") && html[5..|html| - 6] == content
  {
    var html := "<pre>" + content + "</pre>";
    assert html[..5] == "<pre>";
    assert html[|html| - 6..] == "</pre>";
    assert html[5..|html| - 6] == content;
  }

  // ---------------------------------------------------------------------
  // Replies

  datatype Header = Header(name: string, value: string)

  const ContentTypeHtml: Header := Header("Content-type", "text/html; charset=utf-8")
  const AllowAnyOrigin: Header := Header("Access-Control-Allow-Origin", "*")

  /** The page a handler writes: the dashboard, or a document page with its
      title and content filled into the page template. */
  datatype Page = DashboardPage | DocumentPage(title: string, content: string)

  /** `send_response` with headers and a page; `send_error` with a status and
      an optional message; or the request left to the framework's static file
      serving. */
  datatype Reply =
    | Sent(status: int, headers: seq<Header>, page: Page)
    | ErrorSent(status: int, message: Option<string>)
    | Delegated(path: string)

  /** What distinguishes one handler from the other: the headers it sends
      with a page, whether its 404 names the file, and the text before the
      exception's message in its 500. */
  datatype Style = Style(headers: seq<Header>, namesMissingFile: bool, errorPrefix: string)

  function NotFound(style: Style, filename: string): (r: Reply)
    ensures r.ErrorSent? && r.status == 404
  {
    ErrorSent(404, if style.namesMissingFile then Some("Document not found: " + filename) else None)
  }

  function ServerError(style: Style, error: string): (r: Reply)
    ensures r.ErrorSent? && r.status == 500
  {
    ErrorSent(500, Some(style.errorPrefix + error))
  }

  /** The reply to a document request: 404 when the file does not exist, 500
      when reading or converting it raises, and otherwise the document page
      with the title derived from the file name. */
  function DocumentReply(style: Style, fs: FileSystem, convert: Converter, filename: string): Reply {
    if !Exists(fs, filename) then NotFound(style, filename)
    else match fs[filename]
      case Err(e) => ServerError(style, e)
      case Ok(content) =>
        match RenderContent(filename, content, convert)
        case Err(e) => ServerError(style, e)
        case Ok(html) => Sent(200, style.headers, DocumentPage(Title(filename), html))
  }

  /** The reply to a GET request for `path`. */
  function GetReply(style: Style, fs: FileSystem, convert: Converter, path: string): Reply {
    match RouteOf(path)
    case Dashboard => Sent(200, style.headers, DashboardPage)
    case DocumentRoute(name) => DocumentReply(style, fs, convert, name)
    case StaticRoute(p) => Delegated(p)
  }

  /** A document reply is always a page with status 200 or an error with
      status 404 or 500. */
  lemma DocumentReplyShape(style: Style, fs: FileSystem, convert: Converter, filename: string)
    ensures var r := DocumentReply(style, fs, convert, filename);
      (r.Sent? && r.status == 200 && r.headers == style.headers) ||
      (r.ErrorSent? && (r.status == 404 || r.status == 500))
  {
  }

  /** 404 exactly when the file does not exist; the file's contents and the
      converter then play no part. */
  lemma NotFoundIffMissing(style: Style, fs: FileSystem, convert: Converter, filename: string)
    ensures DocumentReply(style, fs, convert, filename).status == 404 <==> !Exists(fs, filename)
    ensures !Exists(fs, filename) ==>
      DocumentReply(style, fs, convert, filename) == DocumentReply(style, map[], convert, filename)
  {
  }

  /** 500 exactly when the file exists but reading it raises, or it is
      markdown and the converter raises. */
  lemma ServerErrorIffFailure(style: Style, fs: FileSystem, convert: Converter, filename: string)
    ensures DocumentReply(style, fs, convert, filename).status == 500 <==>
      Exists(fs, filename) &&
      (fs[filename].Err? || (EndsWith(filename, ".md") && convert(fs[filename].value).Err?))
  {
  }

  /** A page is sent exactly when the file is read and rendered; its title
      comes from the name and its content from the renderer. */
  lemma PageOfReadableFile(style: Style, fs: FileSystem, convert: Converter, filename: string)
    ensures DocumentReply(style, fs, convert, filename).Sent? <==>
      Exists(fs, filename) && fs[filename].Ok? && RenderContent(filename, fs[filename].value, convert).Ok?
    ensures DocumentReply(style, fs, convert, filename).Sent? ==>
      DocumentReply(style, fs, convert, filename).page ==
        DocumentPage(Title(filename), RenderContent(filename, fs[filename].value, convert).value)
  {
  }

  /** The dashboard and the document pages carry the handler's headers; a
      path that is neither goes to the framework untouched. */
  lemma GetReplyRoutes(style: Style, fs: FileSystem, convert: Converter, path: string)
    ensures path == "/" || path == "/index.html" ==>
      GetReply(style, fs, convert, path) == Sent(200, style.headers, DashboardPage)
    ensures RouteOf(path).DocumentRoute? ==>
      GetReply(style, fs, convert, path) == DocumentReply(style, fs, convert, DocumentName(path))
    ensures !StartsWith(path, "/document/") && path != "/" && path != "/index.html" ==>
      GetReply(style, fs, convert, path) == Delegated(path)
  {
  }
}

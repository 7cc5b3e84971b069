/** The request handler of the stand-alone documentation server: it routes
    and renders exactly as the deployment entry point does, but sends only
    the content-type header and a bare 404. */
module DocServer {
  import opened Text
  import opened Routing
  import MainServer

  const DocStyle: Style := Style([ContentTypeHtml], false, "Error: ")

  /** The dashboard: status 200 with the content-type header only. */
  method ServeMainDashboard() returns (reply: Reply)
    ensures reply.Sent? && reply.status == 200 && reply.page == DashboardPage
    ensures reply.headers == [ContentTypeHtml]
  {
    reply := Sent(200, [ContentTypeHtml], DashboardPage);
  }

  /** Checks that the file exists, reads it, renders it and sends the page;
      a read or conversion that raises becomes a 500. */
  method ServeDocument(fs: FileSystem, convert: Converter, filename: string) returns (reply: Reply)
    ensures reply == DocumentReply(DocStyle, fs, convert, filename)
  {
    if !Exists(fs, filename) {
      return ErrorSent(404, None);
    }
    var read := fs[filename];
    if read.Err? {
      return ErrorSent(500, Some("Error: " + read.error));
    }
    var content := read.value;
    var htmlContent: string;
    if EndsWith(filename, ".md") {
      var converted := convert(content);
      if converted.Err? {
        return ErrorSent(500, Some("Error: " + converted.error));
      }
      htmlContent := converted.value;
    } else {
      htmlContent := "<pre>" + content + "</pre>";
    }
    var title := ReplaceAll(ReplaceAll(filename, "_", " "), ".md", "");
    reply := Sent(200, [ContentTypeHtml], DocumentPage(title, htmlContent));
  }

  /** Routes a GET request by its path. */
  method HandleGet(fs: FileSystem, convert: Converter, path: string) returns (reply: Reply)
    ensures reply == GetReply(DocStyle, fs, convert, path)
  {
    if path == "/" || path == "/index.html" {
      reply := ServeMainDashboard();
    } else if StartsWith(path, "/document/") {
      var docName := Last(Split(path, '/'));
      reply := ServeDocument(fs, convert, docName);
    } else {
      reply := Delegated(path);
    }
  }

  /** Given the same files and the same converter, the two handlers send the
      same statuses and pages and leave the same paths to the framework; the
      documentation server's pages lack only the cross-origin header, and its
      404 carries no message. */
  lemma AgreesWithMainServer(fs: FileSystem, convert: Converter, path: string)
    ensures var m := GetReply(MainServer.MainStyle, fs, convert, path);
      var d := GetReply(DocStyle, fs, convert, path);
      (m.Sent? <==> d.Sent?) && (m.ErrorSent? <==> d.ErrorSent?) && (m.Delegated? <==> d.Delegated?) &&
      (m.Sent? ==> m.status == d.status && m.page == d.page &&
                   m.headers == d.headers + [AllowAnyOrigin] && AllowAnyOrigin !in d.headers) &&
      (m.ErrorSent? ==> m.status == d.status && (d.status == 404 ==> d.message == None)) &&
      (m.Delegated? ==> m == d)
  {
  }
}

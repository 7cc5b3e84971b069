/** The request handler of the deployment entry point: it serves the
    dashboard and the documents with the HTML content type and a header that
    allows any origin, and names the missing file in its 404. */
module MainServer {
  import opened Text
  import opened Routing

  const MainStyle: Style := Style([ContentTypeHtml, AllowAnyOrigin], true, "Error reading document: ")

  /** The dashboard: status 200 with the two headers. */
  method ServeMainDashboard() returns (reply: Reply)
    ensures reply.Sent? && reply.status == 200 && reply.page == DashboardPage
    ensures reply.headers == [ContentTypeHtml, AllowAnyOrigin]
  {
    reply := Sent(200, [ContentTypeHtml, AllowAnyOrigin], DashboardPage);
  }

  /** Checks that the file exists, reads it, renders it and sends the page;
      a read or conversion that raises becomes a 500. */
  method ServeDocument(fs: FileSystem, convert: Converter, filename: string) returns (reply: Reply)
    ensures reply == DocumentReply(MainStyle, fs, convert, filename)
  {
    if !Exists(fs, filename) {
      return ErrorSent(404, Some("Document not found: " + filename));
    }
    var read := fs[filename];
    if read.Err? {
      return ErrorSent(500, Some("Error reading document: " + read.error));
    }
    var content := read.value;
    var htmlContent: string;
    if EndsWith(filename, ".md") {
      var converted := convert(content);
      if converted.Err? {
        return ErrorSent(500, Some("Error reading document: " + converted.error));
      }
      htmlContent := converted.value;
    } else {
      htmlContent := "<pre>" + content + "</pre>";
    }
    var title := ReplaceAll(ReplaceAll(filename, "_", " "), ".md", "");
    reply := Sent(200, [ContentTypeHtml, AllowAnyOrigin], DocumentPage(title, htmlContent));
  }

  /** Routes a GET request by its path. */
  method HandleGet(fs: FileSystem, convert: Converter, path: string) returns (reply: Reply)
    ensures reply == GetReply(MainStyle, fs, convert, path)
  {
    if path == "/" || path == "/index.html" {
      reply := ServeMainDashboard();
    } else if StartsWith(path, "/document/") {
      var docName := Last(Split(path, '/'));
      reply := ServeDocument(fs, convert, docName);
    } else {
      reply := Delegated(path);
    }
  }
}

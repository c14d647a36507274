/** The download proxy, `GET` of src/app/api/proxy/route.ts: it fetches the
    asset named by the `url` query parameter and passes its body through as
    an attachment.

    The upstream fetch is replaced by an `Upstream` outcome supplied by the
    caller; the 20-second abort, a network error and a URL `fetch` refuses all
    appear as `FetchFailed`. The body stream itself is not modelled. */
module ProxyRoute {
  import opened Common
  import opened Seqs

  /** The query parameters; an absent parameter is `None`. */
  datatype Query = Query(url: Option<string>, filename: Option<string>)

  datatype Upstream =
    | FetchFailed
    | Responded(status: nat, contentType: Option<string>, contentLength: Option<string>)

  datatype Headers = Headers(contentType: string, contentDisposition: string, contentLength: Option<string>)

  /** A JSON error body with its status, or the streamed asset. */
  datatype Reply = JsonError(status: nat, error: string) | Streamed(status: nat, headers: Headers)

  /** The reply and the URL that was fetched, if any. */
  datatype ProxyRun = ProxyRun(reply: Reply, fetched: Option<string>)

  const DefaultFilename := "instagram-video.mp4"
  const DefaultContentType := "video/mp4"
  const MissingUrlError := "Missing URL parameter"
  const ProxyFailedError := "Failed to proxy video"

  /** The complement of `/[\n\r]/`. */
  predicate NotLineBreak(c: char) {
    c != '\n' && c != '\r'
  }

  /** The class `[\x20-\x7E]`. */
  predicate IsPrintableAscii(c: char) {
    ' ' <= c <= '~'
  }

  /** Line breaks are removed, then every character outside printable ASCII
      (0x20 to 0x7E). A character outside the Basic Multilingual Plane is two
      UTF-16 code units in JavaScript, both outside that range, so it
      disappears there as it does here. */
  function SanitizeFilename(name: string): (safe: string)
    ensures forall i :: 0 <= i < |safe| ==> IsPrintableAscii(safe[i]) && NotLineBreak(safe[i])
    ensures |safe| <= |name|
  {
    Filter(Filter(name, NotLineBreak), IsPrintableAscii)
  }

  function Disposition(safeName: string): string {
    "attachment; filename=\"" + safeName + "\""
  }

  /** The proxy's answer to one request. */
  function Get(q: Query, upstream: Upstream): (run: ProxyRun)
    ensures !Truthy(q.url) ==> run == ProxyRun(JsonError(400, MissingUrlError), None)
    ensures Truthy(q.url) ==> run.fetched == Some(q.url.value)
    ensures Truthy(q.url) && (upstream.FetchFailed? || !IsOkStatus(upstream.status)) ==>
              run.reply == JsonError(500, ProxyFailedError)
    ensures Truthy(q.url) && upstream.Responded? && IsOkStatus(upstream.status) ==>
              run.reply.Streamed? && run.reply.status == 200
    ensures run.reply.Streamed? ==>
              var h := run.reply.headers;
              h.contentType != "" &&
              (Truthy(upstream.contentType) ==> h.contentType == upstream.contentType.value) &&
              (!Truthy(upstream.contentType) ==> h.contentType == "video/mp4") &&
              (h.contentLength.Some? <==> Truthy(upstream.contentLength)) &&
              (h.contentLength.Some? ==> h.contentLength == upstream.contentLength) &&
              h.contentDisposition == Disposition(SanitizeFilename(OrDefault(q.filename, DefaultFilename))) &&
              forall i :: 0 <= i < |h.contentDisposition| ==> IsPrintableAscii(h.contentDisposition[i])
  {
    if !Truthy(q.url) then ProxyRun(JsonError(400, MissingUrlError), None)
    else
      var fetched := Some(q.url.value);
      match upstream
      case FetchFailed => ProxyRun(JsonError(500, ProxyFailedError), fetched)
      case Responded(status, contentType, contentLength) =>
        if !IsOkStatus(status) then ProxyRun(JsonError(500, ProxyFailedError), fetched)
        else
          var safe := SanitizeFilename(OrDefault(q.filename, DefaultFilename));
          var headers := Headers(
            OrDefault(contentType, DefaultContentType),
            Disposition(safe),
            if Truthy(contentLength) then contentLength else None);
          DispositionPrintable(safe);
          ProxyRun(Streamed(200, headers), fetched)
  }

  lemma DispositionPrintable(safe: string)
    requires forall i :: 0 <= i < |safe| ==> IsPrintableAscii(safe[i])
    ensures forall i :: 0 <= i < |Disposition(safe)| ==> IsPrintableAscii(Disposition(safe)[i])
  {
    var pre := "attachment; filename=\"";
    var d := Disposition(safe);
    assert forall i :: 0 <= i < |pre| ==> IsPrintableAscii(pre[i]);
    forall i | 0 <= i < |d|
      ensures IsPrintableAscii(d[i])
    {
      if i < |pre| {
        assert d[i] == pre[i];
      } else if i < |pre| + |safe| {
        assert d[i] == safe[i - |pre|];
      }
    }
  }

  /** Without a filename parameter, or with an empty one, the attachment is
      named `instagram-video.mp4`. */
  lemma DefaultFilenameUsed(q: Query, upstream: Upstream)
    requires Truthy(q.url) && !Truthy(q.filename)
    requires upstream.Responded? && IsOkStatus(upstream.status)
    ensures Get(q, upstream).reply.headers.contentDisposition == Disposition(DefaultFilename)
  {
    DefaultFilenamePrintable();
    SanitizeIdentity(DefaultFilename);
  }

  lemma DefaultFilenamePrintable()
    ensures forall i :: 0 <= i < |DefaultFilename| ==> IsPrintableAscii(DefaultFilename[i])
  {
  }

  /** Dropping line breaks first changes nothing: the result is the
      printable-ASCII characters of the name, in order. */
  lemma SanitizeKeepsPrintable(name: string)
    ensures SanitizeFilename(name) == Filter(name, IsPrintableAscii)
  {
    FilterNarrow(name, NotLineBreak, IsPrintableAscii);
  }

  /** The sanitised name is obtained from the name by deleting characters. */
  lemma SanitizeSubsequence(name: string)
    ensures IsSubsequence(SanitizeFilename(name), name)
  {
    SanitizeKeepsPrintable(name);
    FilterIsSubsequence(name, IsPrintableAscii);
  }

  /** A character survives exactly when it is printable ASCII; so `"` and
      `\` survive and CR and LF never do. */
  lemma SanitizeMembership(name: string, c: char)
    ensures c in SanitizeFilename(name) <==> c in name && IsPrintableAscii(c)
  {
    SanitizeKeepsPrintable(name);
    FilterMembership(name, IsPrintableAscii, c);
  }

  lemma SanitizeIdempotent(name: string)
    ensures SanitizeFilename(SanitizeFilename(name)) == SanitizeFilename(name)
  {
    var safe := SanitizeFilename(name);
    SanitizeKeepsPrintable(safe);
    FilterIdentity(safe, IsPrintableAscii);
  }

  /** The name is left unchanged exactly when it is all printable ASCII. */
  lemma SanitizeIdentity(name: string)
    ensures SanitizeFilename(name) == name <==> forall i :: 0 <= i < |name| ==> IsPrintableAscii(name[i])
  {
    SanitizeKeepsPrintable(name);
    FilterIdentity(name, IsPrintableAscii);
  }

  /** Line breaks are removed and the remaining printable characters,
      including those a file system would refuse, are kept. */
  lemma SanitizeExample()
    ensures SanitizeFilename("ab\r\nc<>:|?*") == "abc<>:|?*"
  {
    SanitizeKeepsPrintable("ab\r\nc<>:|?*");
    var s := "ab\r\nc<>:|?*";
    assert s == "ab" + "\r\n" + "c<>:|?*";
  }
}

// The web client's API module: the base URL every request goes to, chosen
// from the build environment and the page's host name, and the shapes of
// two requests — the body of the web upload and the URL of the session
// status query.  The HTTP client itself is not modelled.

module ApiClient {
  import opened Common
  import WebUpload

  /** The port used when VITE_API_PORT is unset or empty. */
  const DefaultApiPort := "64451"

  /** A build-time variable is truthy when it is set to a non-empty string. */
  predicate IsSet(env: map<string, string>, name: string)
  {
    name in env && env[name] != ""
  }

  /** `import.meta.env.VITE_API_PORT || 64451`. */
  function ApiPort(env: map<string, string>): (r: string)
    ensures r != ""
    ensures IsSet(env, "VITE_API_PORT") ==> r == env["VITE_API_PORT"]
    ensures !IsSet(env, "VITE_API_PORT") ==> r == DefaultApiPort
  {
    if IsSet(env, "VITE_API_PORT") then env["VITE_API_PORT"] else DefaultApiPort
  }

  /** `/^\d+\.\d+\.\d+\.\d+$/`: four non-empty runs of ASCII digits joined by dots. */
  predicate DottedQuad(host: string)
  {
    var parts := Split(host, '.');
    |parts| == 4 && forall k :: 0 <= k < 4 ==> parts[k] != "" && AllDigits(parts[k])
  }

  /**
   * `getApiBaseUrl`: a set VITE_API_URL first; then '' in production; in
   * development the local host names and any other non-address name go to
   * localhost, a dotted-quad host is kept, always on the API port.
   */
  function ApiBaseUrl(env: map<string, string>, prod: bool, hostname: string): string
  {
    if IsSet(env, "VITE_API_URL") then env["VITE_API_URL"]
    else if prod then ""
    else
      var port := ApiPort(env);
      if hostname == "localhost" || hostname == "127.0.0.1" then "http://localhost:" + port
      else if DottedQuad(hostname) then "http://" + hostname + ":" + port
      else "http://localhost:" + port
  }

  /**
   * The base URL is VITE_API_URL whenever it is set, whatever the build and
   * host; otherwise '' in production; otherwise an http URL on the API
   * port whose host is the page's own host exactly when that is a
   * dotted-quad address other than 127.0.0.1, and localhost in every other
   * case.
   */
  lemma BaseUrlChoice(env: map<string, string>, prod: bool, hostname: string)
    ensures IsSet(env, "VITE_API_URL") ==> ApiBaseUrl(env, prod, hostname) == env["VITE_API_URL"]
    ensures !IsSet(env, "VITE_API_URL") && prod ==> ApiBaseUrl(env, prod, hostname) == ""
    ensures !IsSet(env, "VITE_API_URL") && !prod ==>
              var host := if DottedQuad(hostname) && hostname != "127.0.0.1" then hostname else "localhost";
              ApiBaseUrl(env, prod, hostname) == "http://" + host + ":" + ApiPort(env)
  {
    if hostname == "localhost" {
      LocalhostNotDottedQuad();
    }
  }

  /** "localhost" has no dot, so it is not an address. */
  lemma LocalhostNotDottedQuad()
    ensures !DottedQuad("localhost")
  {
    assert '.' !in "localhost";
  }

  /** A dotted quad is exactly four non-empty digit runs joined by dots. */
  lemma DottedQuadIsFourNumbers(a: string, b: string, c: string, d: string)
    requires a != "" && b != "" && c != "" && d != ""
    requires AllDigits(a) && AllDigits(b) && AllDigits(c) && AllDigits(d)
    ensures DottedQuad(a + "." + b + "." + c + "." + d)
  {
    DigitsHaveNoDot(a);
    DigitsHaveNoDot(b);
    DigitsHaveNoDot(c);
    DigitsHaveNoDot(d);
    SplitFour(a, b, c, d, '.');
  }

  lemma DigitsHaveNoDot(s: string)
    requires AllDigits(s)
    ensures '.' !in s
  {
  }

  /** Every dotted quad is four non-empty digit runs joined by dots. */
  lemma DottedQuadParts(host: string)
    requires DottedQuad(host)
    ensures var p := Split(host, '.');
            host == p[0] + "." + p[1] + "." + p[2] + "." + p[3] &&
            forall k :: 0 <= k < 4 ==> p[k] != "" && AllDigits(p[k])
  {
    var p := Split(host, '.');
    JoinSplit(host, '.');
    JoinFour(p, ".");
  }

  /** Four parts joined by a separator. */
  lemma JoinFour(p: seq<string>, sep: string)
    requires |p| == 4
    ensures Join(p, sep) == p[0] + sep + p[1] + sep + p[2] + sep + p[3]
  {
    assert p[1..][1..] == p[2..];
    assert p[2..][1..] == p[3..];
    assert Join(p[3..], sep) == p[3];
    assert Join(p[2..], sep) == p[2] + sep + p[3];
  }

  /** There is no range check: four numbers of any size form an address that is kept. */
  lemma AnyNumbersKept(env: map<string, string>, a: nat, b: nat, c: nat, d: nat)
    requires !IsSet(env, "VITE_API_URL")
    ensures var host := NatToString(a) + "." + NatToString(b) + "." + NatToString(c) + "." + NatToString(d);
            host != "127.0.0.1" ==> ApiBaseUrl(env, false, host) == "http://" + host + ":" + ApiPort(env)
  {
    DottedQuadIsFourNumbers(NatToString(a), NatToString(b), NatToString(c), NatToString(d));
    BaseUrlChoice(env, false, NatToString(a) + "." + NatToString(b) + "." + NatToString(c) + "." + NatToString(d));
  }

  /** `uploadVideosWeb`'s body: `{uploaded_files: [{file_path: p}, ...]}`, one entry per path in order. */
  function UploadVideosWebBody(paths: seq<string>): (r: Json)
    ensures r.JObj? && r.fields.Keys == {"uploaded_files"}
    ensures var items := r.fields["uploaded_files"];
            items.JArr? && |items.items| == |paths| &&
            forall k :: 0 <= k < |paths| ==> items.items[k] == JObj(map["file_path" := JStr(paths[k])])
  {
    JObj(map["uploaded_files" := JArr(seq(|paths|, k requires 0 <= k < |paths| => JObj(map["file_path" := JStr(paths[k])])))])
  }

  /** `uploadVideosWeb`'s URL. */
  function UploadVideosWebUrl(chatId: string): string
  {
    "/api/sessions/" + chatId + "/videos/upload-web"
  }

  /** The upload URL names its chat: two chats never share one, and the chat id reads back from it. */
  lemma UploadUrlNamesChat(a: string, b: string)
    ensures var u := UploadVideosWebUrl(a);
            |u| == |a| + 32 && u[14..|u| - 18] == a
    ensures UploadVideosWebUrl(a) == UploadVideosWebUrl(b) ==> a == b
  {
    var u, v := UploadVideosWebUrl(a), UploadVideosWebUrl(b);
    assert u[14..|u| - 18] == a;
    assert v[14..|v| - 18] == b;
  }

  /** The server's `file_info.get('file_path')` on one entry: a string value, or nothing. */
  function FilePathOf(entry: Json): Option<string>
  {
    match GetField(entry, "file_path", JNull)
    case JStr(s) => Some(s)
    case _ => None
  }

  /** The server's reading of the body: `data.get('uploaded_files', [])`, then each entry's file path. */
  function UploadedFiles(body: Json): (r: seq<Option<string>>)
  {
    var files := GetField(body, "uploaded_files", JArr([]));
    if files.JArr? then seq(|files.items|, k requires 0 <= k < |files.items| => FilePathOf(files.items[k]))
    else []
  }

  /**
   * The body the client sends is the shape the server reads: it finds each
   * path, in order, and accepts the list exactly when it is non-empty and
   * every path is a non-empty existing file.
   */
  lemma UploadBodyReadBack(paths: seq<string>, existing: set<string>)
    ensures UploadedFiles(UploadVideosWebBody(paths)) == seq(|paths|, k requires 0 <= k < |paths| => Some(paths[k]))
    ensures var uploaded := UploadedFiles(UploadVideosWebBody(paths));
            (|uploaded| > 0 && forall k :: 0 <= k < |uploaded| ==> WebUpload.Present(uploaded[k], existing)) <==>
            (|paths| > 0 && forall k :: 0 <= k < |paths| ==> paths[k] != "" && paths[k] in existing)
  {
    var uploaded := UploadedFiles(UploadVideosWebBody(paths));
    assert |uploaded| == |paths|;
    assert forall k :: 0 <= k < |paths| ==> uploaded[k] == Some(paths[k]);
  }

  /** The two kinds of session status. */
  datatype StatusKind = Indexing | Query

  function KindText(kind: StatusKind): string
  {
    match kind
    case Indexing => "indexing"
    case Query => "query"
  }

  /** `getSessionStatus`'s URL; the kind defaults to indexing. */
  function SessionStatusUrl(chatId: string, kind: Option<StatusKind>): string
  {
    var k := if kind.Some? then kind.value else Indexing;
    "/api/sessions/" + chatId + "/status?type=" + KindText(k)
  }

  /**
   * Leaving the kind out asks for the indexing status, and the two kinds
   * give different URLs for the same chat, each ending in its own type.
   */
  lemma SessionStatusDefault(chatId: string)
    ensures SessionStatusUrl(chatId, None) == SessionStatusUrl(chatId, Some(Indexing))
    ensures SessionStatusUrl(chatId, Some(Indexing)) != SessionStatusUrl(chatId, Some(Query))
    ensures EndsWith(SessionStatusUrl(chatId, None), "type=indexing")
  {
    var i := SessionStatusUrl(chatId, Some(Indexing));
    var q := SessionStatusUrl(chatId, Some(Query));
    assert |i| != |q|;
    assert i == ("/api/sessions/" + chatId + "/status?") + "type=indexing";
  }
}

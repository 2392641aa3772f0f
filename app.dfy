/** The rules the web front end applies around the client: which server a
    request talks to, the language setting kept in the session, the
    validation in front of the stop, delete and pull calls, the pull
    stream, and the library search filter. Translations (`t`) are a
    parameter; client calls are given by their replies. */
module App {
  import opened Json
  import opened Strings
  import opened Transport
  import opened Stream
  import opened Client

  /** A response: the JSON body and the HTTP status. */
  datatype Reply = Reply(body: Dict, status: int)

  // ---------------------------------------------------------------------
  // Server URL resolution (`before_request`).

  /** The server URL chosen for a request: the `X-Ollama-URL` header when
      it is non-empty, else `OLLAMA_SERVER_URL`, else the default; then
      one trailing slash removed and `http://` put in front unless it
      already starts with `http`. */
  function ServerUrl(header: Option<string>, envUrl: Option<string>): (r: string)
    ensures var chosen := if header.Some? && header.value != "" then header.value
                          else envUrl.GetOr(DefaultServerUrl);
      var trimmed := DropTrailingSlash(chosen);
      (StartsWith(trimmed, "http") ==> r == trimmed)
      && (!StartsWith(trimmed, "http") ==> r == "http://" + trimmed)
    ensures StartsWith(r, "http")
  {
    var chosen := if header.Some? && header.value != "" then header.value else envUrl.GetOr(DefaultServerUrl);
    var trimmed := DropTrailingSlash(chosen);
    if StartsWith(trimmed, "http") then trimmed
    else
      StartsWithAppend("http", "://" + trimmed);
      assert "http://" + trimmed == "http" + ("://" + trimmed);
      "http://" + trimmed
  }

  /** The session: a string-keyed store that outlives the request. */
  class Session {
    var data: map<string, Json>

    constructor(initial: map<string, Json>)
      ensures data == initial
    {
      data := initial;
    }
  }

  /** `before_request`: gives the session a language if it has none and
      builds the client for the chosen server. */
  method BeforeRequest(session: Session, defaultLanguage: string, header: Option<string>,
                       envUrl: Option<string>, envApiKey: Option<string>)
    returns (client: OllamaClient)
    modifies session
    ensures fresh(client)
    ensures session.data == if "language" in old(session.data) then old(session.data)
                            else old(session.data)["language" := JStr(defaultLanguage)]
    ensures client.baseUrl == DropTrailingSlash(ServerUrl(header, envUrl))
    ensures client.apiKey == envApiKey
    ensures client.serverStatus == None && client.lastCheck == 0.0
  {
    if "language" !in session.data {
      session.data := session.data["language" := JStr(defaultLanguage)];
    }
    var baseUrl := if header.Some? && header.value != "" then header.value else envUrl.GetOr(DefaultServerUrl);
    if EndsWith(baseUrl, "/") {
      baseUrl := baseUrl[..|baseUrl| - 1];
    }
    if !StartsWith(baseUrl, "http") {
      baseUrl := "http://" + baseUrl;
    }
    assert baseUrl == ServerUrl(header, envUrl);
    ClientGetsServerUrl(header, envUrl, envUrl);
    client := new OllamaClient(Some(baseUrl), envUrl, envApiKey);
  }

  /** The client built for a request uses the resolved URL rather than its
      own environment lookup: the resolved URL is never empty. */
  lemma ClientGetsServerUrl(header: Option<string>, envUrl: Option<string>, clientEnvUrl: Option<string>)
    ensures ChosenUrl(Some(ServerUrl(header, envUrl)), clientEnvUrl) == ServerUrl(header, envUrl)
  {
    assert |ServerUrl(header, envUrl)| >= 4;
  }

  /** The client removes one more trailing slash: a header URL ending in
      two slashes loses both, after `http://` is put in front if needed. */
  lemma TwoTrailingSlashes(url: string, envUrl: Option<string>)
    requires EndsWith(url, "//")
    ensures DropTrailingSlash(ServerUrl(Some(url), envUrl)) + "//"
            == if StartsWith(url, "http") then url else "http://" + url
  {
    var w := url[..|url| - 2];
    assert url == w + "//";
    assert w + "//" == (w + "/") + "/";
    DropSlash(w + "/");
    DropSlash(w);
    assert StartsWith(w + "/", "http") <==> StartsWith(url, "http") by {
      if |w + "/"| >= 4 {
        assert (w + "/")[..4] == url[..4];
      } else if |url| == 4 {
        assert url[..4][3] == url[3] == '/';
      }
    }
    if !StartsWith(url, "http") {
      assert "http://" + (w + "/") == ("http://" + w) + "/";
      DropSlash("http://" + w);
    }
  }

  lemma DropSlash(v: string)
    ensures DropTrailingSlash(v + "/") == v
  {
    assert (v + "/")[|v + "/"| - 1..] == "/";
    assert (v + "/")[..|v|] == v;
  }

  // ---------------------------------------------------------------------
  // Language change.

  /** `", ".join(pieces)` */
  function JoinWith(pieces: seq<string>, sep: string): string {
    if pieces == [] then ""
    else if |pieces| == 1 then pieces[0]
    else pieces[0] + sep + JoinWith(pieces[1..], sep)
  }

  /** The language a change request may set: a non-empty string among the available codes. */
  predicate Acceptable(lang: Option<Json>, available: seq<string>) {
    lang.Some? && lang.value.JStr? && lang.value.s != "" && lang.value.s in available
  }

  /** Reference meaning of `change_language`'s reply. `lang` is the
      `language` member of the request body (`None` when absent). */
  function LanguageReply(isJson: bool, lang: Option<Json>, available: seq<string>): (r: Reply)
    ensures r.status == 200 <==> isJson && Acceptable(lang, available)
    ensures r.status != 200 ==> r.status == 400 && "error" in r.body
    ensures r.status == 200 ==>
      "language" in r.body && r.body["language"] == lang.value && "success" in r.body && r.body["success"] == JBool(true)
    ensures isJson && (lang.None? || !Truthy(lang.value)) ==>
      r == Reply(map["error" := JStr("Language parameter is required")], 400)
  {
    if !isJson then Reply(map["error" := JStr("Content-Type must be application/json")], 400)
    else if lang.None? || !Truthy(lang.value) then Reply(map["error" := JStr("Language parameter is required")], 400)
    else if !(lang.value.JStr? && lang.value.s in available) then
      Reply(map["error" := JStr("Invalid language code. Available languages: " + JoinWith(available, ", "))], 400)
    else
      Reply(map["success" := JBool(true), "message" := JStr("Language changed successfully"), "language" := lang.value], 200)
  }

  /** `change_language`: the session's language changes only when the
      request is accepted. */
  method ChangeLanguage(session: Session, isJson: bool, lang: Option<Json>, available: seq<string>)
    returns (reply: Reply)
    modifies session
    ensures reply == LanguageReply(isJson, lang, available)
    ensures session.data == if reply.status == 200 then old(session.data)["language" := lang.value]
                            else old(session.data)
  {
    if !isJson {
      return Reply(map["error" := JStr("Content-Type must be application/json")], 400);
    }
    if lang.None? || !Truthy(lang.value) {
      return Reply(map["error" := JStr("Language parameter is required")], 400);
    }
    if !(lang.value.JStr? && lang.value.s in available) {
      return Reply(map["error" := JStr("Invalid language code. Available languages: " + JoinWith(available, ", "))], 400);
    }
    session.data := session.data["language" := lang.value];
    reply := Reply(map["success" := JBool(true), "message" := JStr("Language changed successfully"), "language" := lang.value], 200);
  }

  // ---------------------------------------------------------------------
  // Status and list routes.

  /** `server_status` */
  function StatusReply(up: bool): (r: Reply)
    ensures r.status == 200 && r.body.Keys == {"status"}
    ensures r.body["status"] == JStr("running") <==> up
    ensures !up ==> r.body["status"] == JStr("stopped")
  {
    Reply(map["status" := JStr(if up then "running" else "stopped")], 200)
  }

  /** What the error-handling wrapper makes of an exception escaping a route. */
  function ErrorReply(text: string): Reply {
    Reply(map["error" := JStr(text), "status" := JStr("error")], 500)
  }

  /** `get_models` and `get_running_models`: an error from the client is a
      503 carrying only the error; otherwise the client's reply as is. */
  function ListReply(response: Call<Dict>): (r: Reply)
    ensures response.Returned? && "error" in response.value ==>
      r == Reply(map["error" := response.value["error"]], 503)
    ensures response.Returned? && "error" !in response.value ==> r == Reply(response.value, 200)
    ensures response.Raised? ==> r.status == 500
  {
    match response
    case Raised(t) => ErrorReply(t)
    case Returned(d) => if "error" in d then Reply(map["error" := d["error"]], 503) else Reply(d, 200)
  }

  /** Every error a list call reports reaches the browser as a 503. */
  lemma ListErrorIs503(tags: Dict, show: Json -> Dict, ps: Dict)
    requires "error" in tags && "error" in ps
    ensures ListReply(ListModelsReply(tags, show)) == Reply(map["error" := tags["error"]], 503)
    ensures ListReply(Returned(RunningReply(ps))) == Reply(map["error" := ps["error"]], 503)
  {
  }

  // ---------------------------------------------------------------------
  // Validation in front of the client calls.

  /** The 400 reply to a missing or empty model name. */
  function ValidationReply(t: string -> string): Reply {
    Reply(map["error" := JStr(t("select_models")), "status" := JStr("validation_error")], 400)
  }

  /** A route's reply and the model name it passed to the client, if it
      called the client at all. */
  datatype Routed = Routed(reply: Reply, called: Option<string>)

  /** How the stop and delete routes turn the client's reply into a
      response: a reply without a truthy `success` is a 500. */
  function ActionReply(result: Dict, fallback: string): (r: Reply)
    ensures ("success" in result && Truthy(result["success"])) ==> r == Reply(result, 200)
    ensures !("success" in result && Truthy(result["success"])) ==>
      r.status == 500 && "error" in r.body && r.body["error"] == Get(result, "error", JStr(fallback))
  {
    if "success" in result && Truthy(result["success"]) then Reply(result, 200)
    else Reply(map["error" := Get(result, "error", JStr(fallback)), "status" := JStr("error")], 500)
  }

  /** `stop_model` route. `stop(n)` is the client's reply to stopping `n`;
      `name` is the body's `name`, `None` when absent. */
  function StopRoute(isJson: bool, name: Option<string>, stop: string -> Dict, t: string -> string): (r: Routed)
    ensures !isJson ==> r == Routed(Reply(map["error" := JStr("Content-Type must be application/json")], 400), None)
    ensures isJson && (name.None? || name.value == "") ==> r == Routed(ValidationReply(t), None)
    ensures r.called.Some? <==> isJson && name.Some? && name.value != ""
    ensures r.called.Some? ==> r.called == name && r.reply == ActionReply(stop(name.value), t("error_stopping"))
  {
    if !isJson then Routed(Reply(map["error" := JStr("Content-Type must be application/json")], 400), None)
    else if name.None? || name.value == "" then Routed(ValidationReply(t), None)
    else Routed(ActionReply(stop(name.value), t("error_stopping")), name)
  }

  /** The text of the exception `request.json` raises on a request whose
      body is not JSON (a placeholder). */
  const NotJsonText := "UnsupportedMediaType"

  /** `delete_model` route: the same guard on the name, but no check of
      the content type, so a non-JSON request fails in `request.json` and
      the error-handling wrapper answers 500. */
  function DeleteRoute(isJson: bool, name: Option<string>, delete: string -> Dict, t: string -> string): (r: Routed)
    ensures !isJson ==> r == Routed(ErrorReply(NotJsonText), None)
    ensures isJson && (name.None? || name.value == "") ==> r == Routed(ValidationReply(t), None)
    ensures r.called.Some? <==> isJson && name.Some? && name.value != ""
    ensures r.called.Some? ==> r.called == name && r.reply == ActionReply(delete(name.value), t("error_deleting"))
  {
    if !isJson then Routed(ErrorReply(NotJsonText), None)
    else if name.None? || name.value == "" then Routed(ValidationReply(t), None)
    else Routed(ActionReply(delete(name.value), t("error_deleting")), name)
  }

  /** A stop whose client reply succeeds passes the reply through; the
      reply `stop_model` gives for a model that is not running is one. */
  lemma StopRouteNotRunning(name: string, first: Dict, stop: string -> Dict, t: string -> string)
    requires name != "" && "error" !in first && Listed(first, name) == Returned(false)
    requires stop(name) == StopReply(name, first, map[], map[]).reply
    ensures StopRoute(true, Some(name), stop, t) == Routed(Reply(Success(NotRunningText(name)), 200), Some(name))
  {
    StopReplyMeaning(name, first, map[], map[]);
    var reply := Success(NotRunningText(name));
    assert stop(name) == reply;
    assert "success" in reply && Truthy(reply["success"]);
  }

  // ---------------------------------------------------------------------
  // Pull.

  /** `pull_model` route: the guard, then the streamed pull. `post` is what
      the `/api/pull` post yields. Returns the request it sent, if any, and
      how many stream lines it read. */
  method PullModel(client: OllamaClient, isJson: bool, name: Option<string>, post: CreateResponse, t: string -> string)
    returns (reply: Reply, request: Option<Request>, consumed: nat)
    ensures !isJson ==> reply == ErrorReply(NotJsonText) && request == None && consumed == 0
    ensures isJson && (name.None? || name.value == "") ==> reply == ValidationReply(t) && request == None && consumed == 0
    ensures request.Some? <==> isJson && name.Some? && name.value != ""
    ensures request.Some? ==>
      request == Some(Request(POST, client.Url("api/pull"), DefaultHeaders(client.apiKey), None,
                              Some(map["name" := JStr(name.value)])))
    ensures request.Some? ==> reply == PullReply(name.value, post)
    ensures request.Some? && post.Streamed? ==> consumed == PullStreamEnd(post.lines)
  {
    if !isJson {
      return ErrorReply(NotJsonText), None, 0;
    }
    if name.None? || name.value == "" {
      return ValidationReply(t), None, 0;
    }
    request := Some(Request(POST, client.Url("api/pull"), DefaultHeaders(client.apiKey), None,
                            Some(map["name" := JStr(name.value)])));
    if post.PostRaised? {
      return Reply(map["error" := JStr(post.text)], 500), request, 0;
    }
    consumed := ReducePullStream(post.lines);
    reply := Reply(map["success" := JBool(true), "message" := JStr("Successfully pulled model " + name.value)], 200);
  }

  /** The pull route's answer: a request exception is a 500; a stream,
      whatever its events, is a success. */
  function PullReply(name: string, post: CreateResponse): (r: Reply)
    ensures post.PostRaised? ==> r == Reply(map["error" := JStr(post.text)], 500)
    ensures post.Streamed? ==> r.status == 200 && "success" in r.body && r.body["success"] == JBool(true)
  {
    match post
    case PostRaised(text) => Reply(map["error" := JStr(text)], 500)
    case Streamed(_) => Reply(map["success" := JBool(true), "message" := JStr("Successfully pulled model " + name)], 200)
  }

  /** Error events do not fail a pull: the reply to a stream does not
      depend on its lines. */
  lemma PullIgnoresErrors(name: string, lines1: seq<Line>, lines2: seq<Line>)
    ensures PullReply(name, Streamed(lines1)) == PullReply(name, Streamed(lines2))
  {
  }

  // ---------------------------------------------------------------------
  // Library search.

  /** The scraped names whose lower-case form contains the lower-case keyword, in order. */
  function FilterModels(keyword: string, models: seq<string>): (r: seq<string>)
    ensures |r| <= |models|
    ensures forall m :: m in r <==> m in models && Contains(Lower(m), Lower(keyword))
    decreases |models|
  {
    if models == [] then []
    else
      var rest := FilterModels(keyword, models[1..]);
      assert forall m :: m in models <==> m == models[0] || m in models[1..];
      if Contains(Lower(models[0]), Lower(keyword)) then [models[0]] + rest else rest
  }

  /** Filtering keeps the original order: it distributes over concatenation. */
  lemma {:induction false} FilterAppend(keyword: string, a: seq<string>, b: seq<string>)
    ensures FilterModels(keyword, a + b) == FilterModels(keyword, a) + FilterModels(keyword, b)
    decreases |a|
  {
    if a == [] {
      assert a + b == b;
    } else {
      assert (a + b)[1..] == a[1..] + b;
      FilterAppend(keyword, a[1..], b);
    }
  }

  /** An empty keyword keeps every name. */
  lemma {:induction false} FilterEmptyKeyword(models: seq<string>)
    ensures FilterModels("", models) == models
    decreases |models|
  {
    if models != [] {
      FilterEmptyKeyword(models[1..]);
      assert Lower(models[0])[..0] == "";
      assert [models[0]] + models[1..] == models;
    }
  }

  /** The size tags offered for every search result. */
  const SizeTags: seq<string> := ["1b", "1.5b", "2b", "3b", "7b", "8b", "9b", "13b", "34b", "70b"]

  /** The size-tag list as the JSON array each search result carries. */
  function SizeTagsJson(): (r: Json)
    ensures r.JArr? && |r.items| == |SizeTags|
    ensures forall j :: 0 <= j < |SizeTags| ==> r.items[j] == JStr(SizeTags[j])
  {
    JArr(seq(|SizeTags|, j requires 0 <= j < |SizeTags| => JStr(SizeTags[j])))
  }

  /** `{'name': model, 'tags': size_tags}` for each kept name. */
  function WithTags(models: seq<string>): seq<Json> {
    seq(|models|, i requires 0 <= i < |models| => JObj(map["name" := JStr(models[i]), "tags" := SizeTagsJson()]))
  }

  /** `search_models` once the names are scraped: the kept names with their tags. */
  function SearchReply(keyword: string, scraped: seq<string>): (r: Reply)
    ensures r.status == 200 && r.body.Keys == {"models"} && r.body["models"].JArr?
    ensures |r.body["models"].items| == |FilterModels(keyword, scraped)|
    ensures forall i :: 0 <= i < |r.body["models"].items| ==>
      var e := r.body["models"].items[i];
      e.JObj? && "name" in e.fields && e.fields["name"] == JStr(FilterModels(keyword, scraped)[i])
      && "tags" in e.fields && e.fields["tags"] == SizeTagsJson()
  {
    Reply(map["models" := JArr(WithTags(FilterModels(keyword, scraped)))], 200)
  }
}

/** `OllamaClient`: the gateway object. Its settings are fixed at
    construction; the liveness cache is its only mutable state. Every call
    into `requests` is replaced by an injected outcome per attempt, and the
    clock by a `now` argument. */
module Client {
  import opened Json
  import opened Strings
  import opened Transport
  import opened Modelfile
  import opened Stream

  const DefaultServerUrl := "http://localhost:11434"

  /** `base_url or os.environ.get('OLLAMA_SERVER_URL', default)`: an empty
      argument falls through to the environment; an empty environment value
      is kept. */
  function ChosenUrl(baseUrl: Option<string>, envUrl: Option<string>): (r: string)
    ensures baseUrl.Some? && baseUrl.value != "" ==> r == baseUrl.value
    ensures (baseUrl.None? || baseUrl.value == "") && envUrl.Some? ==> r == envUrl.value
    ensures (baseUrl.None? || baseUrl.value == "") && envUrl.None? ==> r == DefaultServerUrl
  {
    if baseUrl.Some? && baseUrl.value != "" then baseUrl.value else envUrl.GetOr(DefaultServerUrl)
  }

  /** Exactly one trailing slash is removed, when there is one. */
  function DropTrailingSlash(url: string): (r: string)
    ensures EndsWith(url, "/") ==> r + "/" == url
    ensures !EndsWith(url, "/") ==> r == url
  {
    if EndsWith(url, "/") then url[..|url| - 1] else url
  }

  /** The liveness cache: the last probe's verdict (`None` before the first
      check) and when it was taken. */
  datatype Cache = Cache(status: Option<bool>, lastCheck: real)

  /** What `check_server` does to the cache: the verdict it returns, the new
      cache, and whether it sent a probe. */
  datatype Check = Check(up: bool, cache: Cache, probed: bool)

  /** Reference meaning of `check_server`. `probe` is the status code of the
      `GET /api/tags`, or `None` when it raised. */
  function CheckStep(c: Cache, interval: real, baseUrl: string, now: real, probe: Option<int>): (r: Check)
    ensures c.status.Some? && now - c.lastCheck < interval ==> r == Check(c.status.value, c, false)
    ensures !(c.status.Some? && now - c.lastCheck < interval) && baseUrl == "" ==>
      r == Check(false, Cache(Some(false), c.lastCheck), false)
    ensures !(c.status.Some? && now - c.lastCheck < interval) && baseUrl != "" ==>
      r.probed && r.cache == Cache(Some(r.up), now) && (r.up <==> probe == Some(200))
    ensures r.cache.status == Some(r.up)
  {
    if c.status.Some? && now - c.lastCheck < interval then Check(c.status.value, c, false)
    else if baseUrl == "" then Check(false, Cache(Some(false), c.lastCheck), false)
    else
      var up := probe == Some(200);
      Check(up, Cache(Some(up), now), true)
  }

  /** A second check within the interval of a probe returns the same verdict
      without probing again. */
  lemma CachedWithinInterval(c: Cache, interval: real, baseUrl: string, now1: real, probe1: Option<int>,
                             now2: real, probe2: Option<int>)
    requires CheckStep(c, interval, baseUrl, now1, probe1).probed
    requires 0.0 <= now2 - now1 < interval
    ensures var first := CheckStep(c, interval, baseUrl, now1, probe1);
      var second := CheckStep(first.cache, interval, baseUrl, now2, probe2);
      !second.probed && second.up == first.up && second.cache == first.cache
  {
  }

  /** Once the interval has passed, the next check probes again and adopts
      the new verdict. */
  lemma ProbesAfterInterval(c: Cache, interval: real, baseUrl: string, now: real, probe: Option<int>)
    requires baseUrl != "" && c.status.Some? && now - c.lastCheck >= interval
    ensures var r := CheckStep(c, interval, baseUrl, now, probe);
      r.probed && r.up == (probe == Some(200)) && r.cache.lastCheck == now
  {
  }

  // ---------------------------------------------------------------------
  // Result shaping of the public calls. Messages pass through `gettext`
  // unchanged; exception texts are placeholders.

  const TypeErrorText := "TypeError"
  const AttributeErrorText := "AttributeError"

  /** `{'success': False, 'error': error}` */
  function Failure(error: Json): Dict {
    map["success" := JBool(false), "error" := error]
  }

  /** `{'success': True, 'message': message}` */
  function Success(message: string): Dict {
    map["success" := JBool(true), "message" := JStr(message)]
  }

  function NotRunningText(name: string): string {
    "The model " + name + " is not running"
  }

  function StoppedText(name: string): string {
    "The model " + name + " has been stopped successfully"
  }

  function UnableToStopText(name: string): string {
    "Unable to stop model " + name
  }

  function DeletedText(name: string): string {
    "The model " + name + " was successfully deleted"
  }

  function SavedText(name: string): string {
    "Configuration for " + name + " saved successfully"
  }

  /** `list_running`: an error becomes an empty model list carrying the
      error; any other reply is passed through. */
  function RunningReply(ps: Dict): (r: Dict)
    ensures ("error" in r) <==> ("error" in ps)
    ensures "error" in ps ==> r.Keys == {"models", "error"} && r["models"] == JArr([]) && r["error"] == ps["error"]
    ensures "error" !in ps ==> r == ps
  {
    if "error" in ps then map["models" := JArr([]), "error" := ps["error"]] else ps
  }

  /** `delete_model`: success exactly when the delete call reports no error. */
  function DeleteReply(name: string, response: Dict): (r: Dict)
    ensures "success" in r && r["success"] == JBool("error" !in response)
    ensures "error" in response ==> r == Failure(response["error"])
    ensures "error" !in response ==> r == Success(DeletedText(name))
  {
    if "error" in response then Failure(response["error"]) else Success(DeletedText(name))
  }

  /** `get_model_details`: the error, or exactly the details and the
      modification time (`''` when the show reply has none). */
  function DetailsReply(show: Dict): (r: Dict)
    ensures ("error" in r) <==> ("error" in show)
    ensures "error" in show ==> r == map["error" := show["error"]]
    ensures "error" !in show ==>
      (r.Keys == {"details", "modified_at"}
       && r["details"] == Get(show, "details", JObj(map[]))
       && r["modified_at"] == Get(show, "modified_at", JStr("")))
  {
    if "error" in show then map["error" := show["error"]]
    else map["details" := Get(show, "details", JObj(map[])), "modified_at" := Get(show, "modified_at", JStr(""))]
  }

  /** The elements `for model in v` visits, as far as the `model['name']`
      lookup on each can tell: a list gives its items; an empty string or
      object gives none; a non-empty string or object gives strings, on
      which the lookup raises; other values are not iterable. */
  function Entries(v: Json): (r: Call<seq<Json>>)
    ensures v.JArr? ==> r == Returned(v.items)
    ensures v == JStr("") || v == JObj(map[]) ==> r == Returned([])
    ensures (v.JStr? && v.s != "") || (v.JObj? && v.fields != map[]) ==> r.Raised?
    ensures !v.JArr? && r.Returned? ==> r.value == []
    ensures (v.JNull? || v.JBool? || v.JNum?) ==> r.Raised?
  {
    match v
    case JArr(xs) => Returned(xs)
    case JStr(s) => if s == "" then Returned([]) else Raised(TypeErrorText)
    case JObj(m) => if m == map[] then Returned([]) else Raised(TypeErrorText)
    case _ => Raised(TypeErrorText)
  }

  /** `model['name']` succeeds. */
  predicate HasName(j: Json) {
    j.JObj? && "name" in j.fields
  }

  /** `model['name'] == name` */
  predicate Matches(j: Json, name: string) {
    HasName(j) && j.fields["name"] == JStr(name)
  }

  /** The text of the exception `model['name']` raises. */
  function LookupError(j: Json): string {
    if j.JObj? then "'name'" else TypeErrorText
  }

  /** `any(model['name'] == name for model in items)`: true at the first
      match; a lookup that raises before a match escapes. */
  function AnyNamed(items: seq<Json>, name: string): (r: Call<bool>)
    ensures r == Returned(false) <==> forall i :: 0 <= i < |items| ==> HasName(items[i]) && !Matches(items[i], name)
    ensures r == Returned(true) ==>
      exists i :: 0 <= i < |items| && Matches(items[i], name) && forall j :: 0 <= j < i ==> HasName(items[j])
    ensures r.Raised? ==>
      exists i :: 0 <= i < |items| && !HasName(items[i]) && forall j :: 0 <= j < i ==> !Matches(items[j], name)
    decreases |items|
  {
    if items == [] then Returned(false)
    else if !HasName(items[0]) then Raised(LookupError(items[0]))
    else if Matches(items[0], name) then Returned(true)
    else
      var r := AnyNamed(items[1..], name);
      assert forall i :: 1 <= i < |items| ==> items[i] == items[1..][i - 1];
      r
  }

  /** Whether `name` is in the `models` of a running-list reply. */
  function Listed(running: Dict, name: string): (r: Call<bool>)
    ensures "models" !in running ==> r == Returned(false)
    ensures r == Returned(true) ==>
      "models" in running && running["models"].JArr?
      && exists i :: 0 <= i < |running["models"].items| && Matches(running["models"].items[i], name)
  {
    match Entries(Get(running, "models", JArr([])))
    case Raised(t) => Raised(t)
    case Returned(xs) => AnyNamed(xs, name)
  }

  /** The body of the unload request: generate nothing and keep the model
      loaded for zero seconds. */
  function GenerateBody(name: string): Dict {
    map["model" := JStr(name), "prompt" := JStr(""), "keep_alive" := JStr("0s")]
  }

  /** What `stop_model` answers, and how many backend calls it made: the
      running list, the unload request, the running list again. */
  datatype Stop = Stop(reply: Dict, calls: nat)

  /** Reference meaning of `stop_model`, given what its three
      `_handle_request` calls return. */
  function StopReply(name: string, first: Dict, generate: Dict, second: Dict): (r: Stop)
    ensures 1 <= r.calls <= 3
    ensures "success" in r.reply && r.reply["success"].JBool?
  {
    match BeforeUnload(name, first)
    case Some(reply) => Stop(reply, 1)
    case None =>
      if "error" in generate then Stop(Failure(generate["error"]), 2)
      else Stop(AfterUnload(name, second), 3)
  }

  /** What `stop_model` answers in each case: the unload request is sent
      only for a model the first list names; an error from either list or
      from the unload request is passed on; the reply is a success flag. */
  lemma StopReplyMeaning(name: string, first: Dict, generate: Dict, second: Dict)
    ensures var r := StopReply(name, first, generate, second);
      && (r.calls >= 2 <==> "error" !in first && Listed(first, name) == Returned(true))
      && ("error" in first ==> r == Stop(Failure(first["error"]), 1))
      && ("error" !in first && Listed(first, name) == Returned(false) ==> r == Stop(Success(NotRunningText(name)), 1))
      && (r.calls >= 2 && "error" in generate ==> r == Stop(Failure(generate["error"]), 2))
      && (r.calls >= 2 && "error" !in generate ==> r.calls == 3)
      && (r.calls == 3 ==>
           (r.reply["success"] == JBool(true) <==> "error" !in second && Listed(second, name) == Returned(false)))
  {
  }

  /** The verdict of `stop_model` from the first running list, when that
      list decides it: an error, a lookup that raises, or a model that is
      not running. `None` means the unload request is sent. */
  function BeforeUnload(name: string, first: Dict): (r: Option<Dict>)
    ensures r.None? <==> "error" !in first && Listed(first, name) == Returned(true)
    ensures r.Some? ==> "success" in r.value && r.value["success"].JBool?
    ensures "error" in first ==> r == Some(Failure(first["error"]))
    ensures "error" !in first && Listed(first, name) == Returned(false) ==> r == Some(Success(NotRunningText(name)))
  {
    var running := RunningReply(first);
    if "error" in running then Some(Failure(running["error"]))
    else match Listed(running, name)
      case Raised(t) => Some(Failure(JStr(t)))
      case Returned(false) => Some(Success(NotRunningText(name)))
      case Returned(true) => None
  }

  /** The verdict of `stop_model` from the running list taken after the
      unload request: stopped exactly when the list has no error and no
      longer names the model. */
  function AfterUnload(name: string, second: Dict): (r: Dict)
    ensures "success" in r && r["success"].JBool?
    ensures r["success"] == JBool(true) <==> "error" !in second && Listed(second, name) == Returned(false)
    ensures r["success"] == JBool(true) ==> r == Success(StoppedText(name))
    ensures "error" in second ==> r == Failure(second["error"])
  {
    var after := RunningReply(second);
    if "error" in after then Failure(after["error"])
    else match Listed(after, name)
      case Raised(t) => Failure(JStr(t))
      case Returned(false) => Success(StoppedText(name))
      case Returned(true) => Failure(JStr(UnableToStopText(name)))
  }

  /** `stop_model` succeeds exactly when the model was not running to begin
      with, or the unload went through and the second list no longer has it. */
  lemma StopSucceedsIff(name: string, first: Dict, generate: Dict, second: Dict)
    ensures StopReply(name, first, generate, second).reply["success"] == JBool(true) <==>
      ("error" !in first && Listed(first, name) == Returned(false))
      || ("error" !in first && Listed(first, name) == Returned(true) && "error" !in generate
          && "error" !in second && Listed(second, name) == Returned(false))
  {
    StopReplyMeaning(name, first, generate, second);
  }

  /** One model of the list after enrichment: the lookup of its name may
      raise; when its details come back, `modified_at` is overwritten. */
  function Enriched(model: Json, show: Json -> Dict): (r: Call<Json>)
    ensures r.Raised? <==> !HasName(model)
  {
    if !HasName(model) then Raised(LookupError(model))
    else
      var details := DetailsReply(show(model.fields["name"]));
      if "error" !in details then
        Returned(JObj(model.fields["modified_at" := Get(details, "modified_at", Get(model.fields, "modified_at", JStr("")))]))
      else Returned(model)
  }

  /** Enrichment keeps the name and every other field but `modified_at`,
      and leaves the model alone when its details failed. */
  lemma EnrichedMeaning(model: Json, show: Json -> Dict)
    requires HasName(model)
    ensures var r := Enriched(model, show);
      && HasName(r.value) && r.value.fields["name"] == model.fields["name"]
      && (forall k :: k in model.fields && k != "modified_at" ==>
            k in r.value.fields && r.value.fields[k] == model.fields[k])
      && ("error" in show(model.fields["name"]) ==> r.value == model)
  {
  }

  /** The fallback to the model's own `modified_at` is never used: the
      details reply always has one, so a show reply without a modification
      time overwrites the listed one with `''`. */
  lemma ModifiedAtFromShow(model: Json, show: Json -> Dict)
    requires HasName(model) && "error" !in show(model.fields["name"])
    ensures Enriched(model, show).value
      == JObj(model.fields["modified_at" := Get(show(model.fields["name"]), "modified_at", JStr(""))])
  {
  }

  /** The enrichment loop over the visited models, in order; the first
      entry whose lookup raises ends it. */
  function EnrichAll(models: seq<Json>, show: Json -> Dict): (r: Call<seq<Json>>)
    ensures r.Returned? ==> |r.value| == |models|
    decreases |models|
  {
    if models == [] then Returned([])
    else
      var n := |models|;
      match EnrichAll(models[..n - 1], show)
      case Raised(t) => Raised(t)
      case Returned(ys) =>
        match Enriched(models[n - 1], show)
        case Raised(t) => Raised(t)
        case Returned(y) => Returned(ys + [y])
  }

  /** The loop enriches every entry, each as `Enriched` does, and raises
      exactly when some entry has no name. */
  lemma {:induction false} EnrichAllMeaning(models: seq<Json>, show: Json -> Dict)
    ensures var r := EnrichAll(models, show);
      r.Returned? ==> forall i :: 0 <= i < |models| ==> Enriched(models[i], show) == Returned(r.value[i])
    ensures EnrichAll(models, show).Raised? <==> exists i :: 0 <= i < |models| && !HasName(models[i])
    decreases |models|
  {
    if models != [] {
      var n := |models|;
      var front := models[..n - 1];
      EnrichAllMeaning(front, show);
      assert forall i :: 0 <= i < n - 1 ==> front[i] == models[i];
      var p := EnrichAll(front, show);
      if p.Raised? {
        var i :| 0 <= i < n - 1 && !HasName(front[i]);
        assert !HasName(models[i]);
      } else if !HasName(models[n - 1]) {
      } else {
        var y := Enriched(models[n - 1], show).value;
        assert EnrichAll(models, show) == Returned(p.value + [y]);
        forall i | 0 <= i < n
          ensures Enriched(models[i], show) == Returned((p.value + [y])[i])
        {
          if i < n - 1 {
            assert front[i] == models[i];
          }
        }
        forall i | 0 <= i < n
          ensures HasName(models[i])
        {
          if i < n - 1 {
            assert front[i] == models[i];
          }
        }
      }
    }
  }

  /** The first entry whose lookup raises ends the loop with its exception. */
  lemma {:induction false} EnrichStepRaised(xs: seq<Json>, i: nat, show: Json -> Dict, t: string)
    requires i < |xs| && EnrichAll(xs[..i], show).Returned?
    requires Enriched(xs[i], show) == Raised(t)
    ensures EnrichAll(xs, show) == Raised(t)
    decreases |xs|
  {
    var n := |xs|;
    var front := xs[..n - 1];
    if i < n - 1 {
      assert front[..i] == xs[..i] && front[i] == xs[i];
      EnrichStepRaised(front, i, show, t);
    } else {
      assert front == xs[..i];
    }
  }

  /** A turn of the enrichment loop with `models` overwritten in place up
      to index `i`, whose lookup returns `y`. */
  lemma EnrichStepReturned(xs: seq<Json>, i: nat, show: Json -> Dict, models: seq<Json>, y: Json)
    requires i < |xs| && |models| == |xs| && models[i..] == xs[i..]
    requires EnrichAll(xs[..i], show) == Returned(models[..i])
    requires Enriched(xs[i], show) == Returned(y)
    ensures EnrichAll(xs[..i + 1], show) == Returned(models[i := y][..i + 1])
    ensures models[i := y][i + 1..] == xs[i + 1..]
  {
    var front := xs[..i + 1];
    assert front[..i] == xs[..i] && front[i] == xs[i];
    assert EnrichAll(front, show) == Returned(models[..i] + [y]);
    var m := models[i := y];
    assert m[..i + 1] == models[..i] + [y];
    assert m[i + 1..] == models[i + 1..];
  }

  /** Reference meaning of `list_models`, given the tags reply and the show
      reply for each name. The model list is returned as it was iterated:
      a list of enriched entries, or the empty string or object it was. */
  function ListModelsReply(tags: Dict, show: Json -> Dict): (r: Call<Dict>)
    ensures "error" in tags ==> r == Returned(map["models" := JArr([]), "error" := tags["error"]])
    ensures r.Returned? ==> "models" in r.value
    ensures "error" !in tags && r.Returned? ==> r.value.Keys == {"models"}
  {
    if "error" in tags then Returned(map["models" := JArr([]), "error" := tags["error"]])
    else
      var v := Get(tags, "models", JArr([]));
      match Entries(v)
      case Raised(t) => Raised(t)
      case Returned(xs) =>
        match EnrichAll(xs, show)
        case Raised(t) => Raised(t)
        case Returned(ys) => Returned(map["models" := if v.JArr? then JArr(ys) else v])
  }

  /** On a list of named models, `list_models` keeps every model, in order,
      with all its fields but `modified_at`, and takes that from the show
      reply whenever the show call did not fail. */
  lemma {:induction false} ListModelsKeepsModels(tags: Dict, xs: seq<Json>, show: Json -> Dict)
    requires "error" !in tags && "models" in tags && tags["models"] == JArr(xs)
    requires forall i :: 0 <= i < |xs| ==> HasName(xs[i])
    ensures var r := ListModelsReply(tags, show);
      r.Returned? && r.value["models"].JArr? && |r.value["models"].items| == |xs|
      && forall i :: 0 <= i < |xs| ==> var y := r.value["models"].items[i];
        HasName(xs[i]) && HasName(y) && y.fields["name"] == xs[i].fields["name"]
        && (forall k :: k in xs[i].fields && k != "modified_at" ==>
              k in y.fields && y.fields[k] == xs[i].fields[k])
        && ("error" !in show(xs[i].fields["name"]) ==>
              "modified_at" in y.fields && y.fields["modified_at"] == Get(show(xs[i].fields["name"]), "modified_at", JStr("")))
  {
    var e := EnrichAll(xs, show);
    EnrichAllMeaning(xs, show);
    forall i | 0 <= i < |xs|
      ensures HasName(e.value[i]) && e.value[i].fields["name"] == xs[i].fields["name"]
      ensures forall k :: k in xs[i].fields && k != "modified_at" ==>
        k in e.value[i].fields && e.value[i].fields[k] == xs[i].fields[k]
      ensures "error" !in show(xs[i].fields["name"]) ==>
        "modified_at" in e.value[i].fields && e.value[i].fields["modified_at"] == Get(show(xs[i].fields["name"]), "modified_at", JStr(""))
    {
      EnrichedMeaning(xs[i], show);
      if "error" !in show(xs[i].fields["name"]) {
        ModifiedAtFromShow(xs[i], show);
      }
    }
  }

  /** Parameters as the JSON object the configuration reply carries. */
  function ParamsJson(m: map<string, string>): (r: Dict)
    ensures r.Keys == m.Keys && forall k :: k in m ==> r[k] == JStr(m[k])
  {
    map k | k in m :: JStr(m[k])
  }

  /** Reference meaning of `get_model_config`, given the show reply: the
      model file and what the three scanners read from it; a model file
      that is not a string makes the scanners raise. */
  function ConfigReply(show: Dict): (r: Dict)
    ensures "error" in show ==> r == map["error" := show["error"]]
    ensures "error" !in show && !Get(show, "modelfile", JStr("")).JStr? ==> r.Keys == {"error"}
    ensures "error" !in show && Get(show, "modelfile", JStr("")).JStr? ==>
      var s := Get(show, "modelfile", JStr("")).s;
      r.Keys == {"modelfile", "parameters", "template", "system"}
      && r["modelfile"] == JStr(s)
      && r["parameters"] == JObj(ParamsJson(ParamsFromLines(Split(s, '\n'))))
      && r["template"] == JStr(ExtractTemplate(s))
      && r["system"] == JStr(ExtractSystem(s))
  {
    if "error" in show then map["error" := show["error"]]
    else
      var mf := Get(show, "modelfile", JStr(""));
      if !mf.JStr? then map["error" := JStr(AttributeErrorText)]
      else
        map["modelfile" := mf,
            "parameters" := JObj(ParamsJson(ParamsFromLines(Split(mf.s, '\n')))),
            "template" := JStr(ExtractTemplate(mf.s)),
            "system" := JStr(ExtractSystem(mf.s))]
  }

  /** Reading back a configuration the gateway saved: the parameters come
      back, the template comes back empty, and the system prompt keeps its
      triple quotes. */
  lemma ConfigOfSavedModel(name: string, ps: seq<Parameter>, system: string, template: string, show: Dict)
    requires "error" !in show && "modelfile" in show && show["modelfile"] == JStr(Text(name, ps, system, template))
    requires ScansBack(name, ps, system, template)
    ensures ConfigReply(show)["parameters"] == JObj(ParamsJson(ToMap(ps)))
    ensures ConfigReply(show)["template"] == JStr("")
    ensures ConfigReply(show)["system"] == JStr("\"\"\"" + system + "\"\"\"")
  {
    BuilderOutputReadsBack(name, ps, system, template);
  }

  /** What the `/api/create` post yields: an exception from the post or
      from `raise_for_status`, or the streamed reply lines. */
  datatype CreateResponse = PostRaised(text: string) | Streamed(lines: seq<Line>)

  /** Reference meaning of the reply of `save_model_config`. */
  function SaveReply(name: string, post: CreateResponse): (r: Dict)
    ensures "success" in r
    ensures r["success"] == JBool(false) <==> post.PostRaised? || Truthy(CreateStreamEnd(post.lines).error)
    ensures post.PostRaised? ==> r == Failure(JStr(post.text))
    ensures post.Streamed? && Truthy(CreateStreamEnd(post.lines).error) ==> r == Failure(CreateStreamEnd(post.lines).error)
    ensures r["success"] == JBool(true) ==> r == Success(SavedText(name))
  {
    match post
    case PostRaised(t) => Failure(JStr(t))
    case Streamed(lines) =>
      var error := CreateStreamEnd(lines).error;
      if Truthy(error) then Failure(error) else Success(SavedText(name))
  }

  /** A create stream that simply ends, without an error event, saves. */
  lemma SaveSucceedsWhenStreamEnds(name: string, lines: seq<Line>)
    requires forall i :: 0 <= i < |lines| ==> !StopsCreate(lines[i])
    ensures SaveReply(name, Streamed(lines)) == Success(SavedText(name))
  {
    CreateStreamThatEnds(lines);
  }

  /** An error event whose error is empty stops the stream but still counts
      as a successful save. */
  lemma EmptyErrorCountsAsSaved(name: string, rest: seq<Line>)
    ensures SaveReply(name, Streamed([Some(map["error" := JStr("")])] + rest)) == Success(SavedText(name))
  {
    FirstErrorDecides([Some(map["error" := JStr("")])] + rest, 0);
  }

  /** The number of delays the retry loop has slept after `r` attempts:
      one per failed attempt except the last permitted one. */
  function SleepCount(maxRetries: nat, r: nat): nat {
    if r < maxRetries || r == 0 then r else r - 1
  }

  /** The delays after one more failed attempt: the current delay is slept
      and doubled, unless that attempt was the last permitted one. */
  lemma RetryStep(maxRetries: nat, retryDelay: nat, r: nat, sleeps: seq<nat>, delay: nat)
    requires r < maxRetries
    requires sleeps == Backoff(retryDelay, SleepCount(maxRetries, r))
    requires delay == retryDelay * Pow2(SleepCount(maxRetries, r))
    ensures r + 1 < maxRetries ==>
      sleeps + [delay] == Backoff(retryDelay, SleepCount(maxRetries, r + 1))
      && delay * 2 == retryDelay * Pow2(SleepCount(maxRetries, r + 1))
    ensures r + 1 == maxRetries ==>
      sleeps == Backoff(retryDelay, SleepCount(maxRetries, r + 1))
      && delay == retryDelay * Pow2(SleepCount(maxRetries, r + 1))
  {
    BackoffSnoc(retryDelay, r);
  }

  class OllamaClient {
    const baseUrl: string
    const apiKey: Option<string>
    const maxRetries: nat
    const retryDelay: nat
    const checkInterval: real
    var serverStatus: Option<bool>
    var lastCheck: real

    /** `__init__`: `envUrl` and `envApiKey` are `OLLAMA_SERVER_URL` and
        `OLLAMA_API_KEY` from the environment. */
    constructor(baseUrlArg: Option<string>, envUrl: Option<string>, envApiKey: Option<string>)
      ensures baseUrl == DropTrailingSlash(ChosenUrl(baseUrlArg, envUrl))
      ensures apiKey == envApiKey
      ensures maxRetries == 3 && retryDelay == 1 && checkInterval == 5.0
      ensures serverStatus == None && lastCheck == 0.0
    {
      var url := ChosenUrl(baseUrlArg, envUrl);
      if EndsWith(url, "/") {
        url := url[..|url| - 1];
      }
      baseUrl := url;
      apiKey := envApiKey;
      maxRetries := 3;
      retryDelay := 1;
      serverStatus := None;
      lastCheck := 0.0;
      checkInterval := 5.0;
    }

    /** The address of `path` on the server: `f"{self.base_url}/{path}"`. */
    function Url(path: string): string {
      baseUrl + "/" + path
    }

    /** What `_handle_request` returns for an endpoint without a leading
        slash when attempt `i` has outcome `outcome(i)`. */
    function Result(endpoint: string, outcome: nat -> Outcome): Dict {
      Execute(maxRetries, retryDelay, endpoint, outcome).result
    }

    /** `_handle_request`: the request sent on every attempt, and what the
        retry loop returns, slept and tried. `verb` is the `method` argument;
        `headers`, `timeout` and `json` are the caller's keyword arguments. */
    method HandleRequest(verb: Verb, endpoint: string, headers: map<string, string>, timeout: Option<int>, json: Option<Dict>,
                         outcome: nat -> Outcome)
      returns (request: Request, d: Dispatch)
      ensures request.verb == verb
      ensures request.url == Url(StripLeadingSlash(endpoint))
      ensures request.headers == DefaultHeaders(apiKey) + headers
      ensures request.timeout == Some(timeout.GetOr(30))
      ensures request.json == json
      ensures d == Execute(maxRetries, retryDelay, StripLeadingSlash(endpoint), outcome)
    {
      var ep := endpoint;
      if StartsWith(ep, "/") {
        ep := ep[1..];
      }
      var url := Url(ep);
      request := Request(verb, url, DefaultHeaders(apiKey) + headers, Some(timeout.GetOr(30)), json);
      d := Retry(ep, outcome);
    }

    /** The retry loop of `_handle_request`: attempt `i` has outcome
        `outcome(i)`; a failed attempt other than the last is followed by a
        delay that doubles each time. */
    method Retry(ep: string, outcome: nat -> Outcome) returns (d: Dispatch)
      ensures d == Execute(maxRetries, retryDelay, ep, outcome)
    {
      var retries: nat := 0;
      var lastError: Option<string> := None;
      var currentDelay: nat := retryDelay;
      var sleeps: seq<nat> := [];
      while retries < maxRetries
        invariant retries <= maxRetries
        invariant forall i :: 0 <= i < retries ==> Attempt(ep, outcome(i)).Failed?
        invariant retries == 0 ==> lastError == None
        invariant retries > 0 ==> lastError == Some(Attempt(ep, outcome(retries - 1)).message)
        invariant sleeps == Backoff(retryDelay, SleepCount(maxRetries, retries))
        invariant currentDelay == retryDelay * Pow2(SleepCount(maxRetries, retries))
        decreases maxRetries - retries
      {
        var step := Attempt(ep, outcome(retries));
        if step.Done? {
          FirstDoneAt(ep, outcome, 0, maxRetries, retries);
          return Dispatch(step.value, sleeps, retries + 1);
        }
        RetryStep(maxRetries, retryDelay, retries, sleeps, currentDelay);
        lastError := Some(step.message);
        retries := retries + 1;
        if retries < maxRetries {
          sleeps := sleeps + [currentDelay];
          currentDelay := currentDelay * 2;
        }
      }
      FirstDoneAt(ep, outcome, 0, maxRetries, maxRetries);
      d := Dispatch(ErrorResult(lastError), sleeps, retries);
    }

    /** `check_server` at time `now`; `probe` is what the probe would yield
        if one is sent. */
    method CheckServer(now: real, probe: Option<int>) returns (up: bool, probed: bool)
      modifies this
      ensures Check(up, Cache(serverStatus, lastCheck), probed)
        == CheckStep(old(Cache(serverStatus, lastCheck)), checkInterval, baseUrl, now, probe)
    {
      if serverStatus.Some? && now - lastCheck < checkInterval {
        return serverStatus.value, false;
      }
      if baseUrl == "" {
        serverStatus := Some(false);
        return false, false;
      }
      serverStatus := Some(probe == Some(200));
      probed := true;
      lastCheck := now;
      up := serverStatus.value;
    }

    /** `list_running`; `ps` is the outcome oracle of its `GET /api/ps`. */
    method ListRunning(ps: nat -> Outcome) returns (reply: Dict)
      ensures reply == RunningReply(Result("api/ps", ps))
    {
      PlainEndpoint("api/ps");
      var _, d := HandleRequest(GET, "api/ps", map[], None, None, ps);
      reply := RunningReply(d.result);
    }

    /** `get_model_details` for the name `name`. */
    method GetModelDetails(name: Json, show: nat -> Outcome) returns (request: Request, reply: Dict)
      ensures request.verb == POST && request.url == Url("api/show") && request.json == Some(map["name" := name])
      ensures reply == DetailsReply(Result("api/show", show))
    {
      var d;
      PlainEndpoint("api/show");
      request, d := HandleRequest(POST, "api/show", map[], None, Some(map["name" := name]), show);
      reply := DetailsReply(d.result);
    }

    /** One turn of the `list_models` loop: look up the name, fetch the
        details, overwrite `modified_at` unless the details failed. */
    method EnrichModel(model: Json, show: Json -> (nat -> Outcome)) returns (r: Call<Json>)
      ensures r == Enriched(model, n => Result("api/show", show(n)))
    {
      if !HasName(model) {
        return Raised(LookupError(model));
      }
      var _, details := GetModelDetails(model.fields["name"], show(model.fields["name"]));
      if "error" !in details {
        r := Returned(JObj(model.fields["modified_at" := Get(details, "modified_at", Get(model.fields, "modified_at", JStr("")))]));
      } else {
        r := Returned(model);
      }
    }

    /** The `for model in models` loop of `list_models`: each model is
        overwritten in place; the first lookup that raises ends it. */
    method EnrichModels(xs: seq<Json>, show: Json -> (nat -> Outcome)) returns (r: Call<seq<Json>>)
      ensures r == EnrichAll(xs, n => Result("api/show", show(n)))
    {
      ghost var shown := n => Result("api/show", show(n));
      var models := xs;
      for i := 0 to |models|
        invariant |models| == |xs| && models[i..] == xs[i..]
        invariant EnrichAll(xs[..i], shown) == Returned(models[..i])
      {
        assert models[i] == xs[i];
        var e := EnrichModel(models[i], show);
        if e.Raised? {
          EnrichStepRaised(xs, i, shown, e.text);
          return Raised(e.text);
        }
        EnrichStepReturned(xs, i, shown, models, e.value);
        models := models[i := e.value];
      }
      assert models[..|models|] == models && xs[..|xs|] == xs;
      r := Returned(models);
    }

    /** `list_models`: `tags` is the oracle of the tags request, `show(n)`
        that of the show request for the name `n`. */
    method ListModels(tags: nat -> Outcome, show: Json -> (nat -> Outcome)) returns (r: Call<Dict>)
      ensures r == ListModelsReply(Result("api/tags", tags), n => Result("api/show", show(n)))
    {
      PlainEndpoint("api/tags");
      var _, d := HandleRequest(GET, "api/tags", map[], None, None, tags);
      var response := d.result;
      if "error" in response {
        return Returned(map["models" := JArr([]), "error" := response["error"]]);
      }
      var v := Get(response, "models", JArr([]));
      var entries := Entries(v);
      if entries.Raised? {
        return Raised(entries.text);
      }
      var models := EnrichModels(entries.value, show);
      if models.Raised? {
        return Raised(models.text);
      }
      r := Returned(map["models" := if v.JArr? then JArr(models.value) else v]);
    }

    /** `stop_model`: `first`, `generate` and `second` are the oracles of
        the running list, the unload request and the second running list.
        `sent` is the requests made, in order. */
    method StopModel(name: string, first: nat -> Outcome, generate: nat -> Outcome, second: nat -> Outcome)
      returns (reply: Dict, sent: seq<Request>)
      ensures Stop(reply, |sent|)
        == StopReply(name, Result("api/ps", first), Result("api/generate", generate), Result("api/ps", second))
      ensures sent != [] && sent[0].verb == GET && sent[0].url == Url("api/ps")
      ensures |sent| >= 2 ==> sent[1].verb == POST && sent[1].url == Url("api/generate") && sent[1].json == Some(GenerateBody(name))
      ensures |sent| == 3 ==> sent[2].verb == GET && sent[2].url == Url("api/ps")
    {
      var q1, verdict := CheckRunning(name, first);
      sent := [q1];
      if verdict.Some? {
        return verdict.value, sent;
      }
      PlainEndpoint("api/generate");
      var q2, d2 := HandleRequest(POST, "api/generate", map[], None, Some(GenerateBody(name)), generate);
      sent := sent + [q2];
      if "error" in d2.result {
        return Failure(d2.result["error"]), sent;
      }
      var q3, after := ConfirmStopped(name, second);
      sent := sent + [q3];
      reply := after;
    }

    /** The first check of `stop_model`: is the model running? */
    method CheckRunning(name: string, first: nat -> Outcome) returns (request: Request, verdict: Option<Dict>)
      ensures request.verb == GET && request.url == Url("api/ps")
      ensures verdict == BeforeUnload(name, Result("api/ps", first))
    {
      var d;
      PlainEndpoint("api/ps");
      request, d := HandleRequest(GET, "api/ps", map[], None, None, first);
      var running := RunningReply(d.result);
      if "error" in running {
        return request, Some(Failure(running["error"]));
      }
      var listed := Listed(running, name);
      if listed.Raised? {
        verdict := Some(Failure(JStr(listed.text)));
      } else if !listed.value {
        verdict := Some(Success(NotRunningText(name)));
      } else {
        verdict := None;
      }
    }

    /** The re-check of `stop_model` after the unload request. */
    method ConfirmStopped(name: string, second: nat -> Outcome) returns (request: Request, reply: Dict)
      ensures request.verb == GET && request.url == Url("api/ps")
      ensures reply == AfterUnload(name, Result("api/ps", second))
    {
      var d;
      PlainEndpoint("api/ps");
      request, d := HandleRequest(GET, "api/ps", map[], None, None, second);
      var running := RunningReply(d.result);
      if "error" in running {
        return request, Failure(running["error"]);
      }
      var listed := Listed(running, name);
      if listed.Raised? {
        reply := Failure(JStr(listed.text));
      } else if !listed.value {
        reply := Success(StoppedText(name));
      } else {
        reply := Failure(JStr(UnableToStopText(name)));
      }
    }

    /** `delete_model` */
    method DeleteModel(name: string, delete: nat -> Outcome) returns (request: Request, reply: Dict)
      ensures request.verb == DELETE && request.url == Url("api/delete") && request.json == Some(map["name" := JStr(name)])
      ensures reply == DeleteReply(name, Result("api/delete", delete))
    {
      var d;
      PlainEndpoint("api/delete");
      request, d := HandleRequest(DELETE, "api/delete", map[], None, Some(map["name" := JStr(name)]), delete);
      reply := DeleteReply(name, d.result);
    }

    /** `get_model_config` */
    method GetModelConfig(name: string, show: nat -> Outcome) returns (request: Request, reply: Dict)
      ensures request.verb == POST && request.url == Url("api/show") && request.json == Some(map["name" := JStr(name)])
      ensures reply == ConfigReply(Result("api/show", show))
    {
      var d;
      PlainEndpoint("api/show");
      request, d := HandleRequest(POST, "api/show", map[], None, Some(map["name" := JStr(name)]), show);
      var response := d.result;
      if "error" in response {
        return request, map["error" := response["error"]];
      }
      var mf := Get(response, "modelfile", JStr(""));
      if !mf.JStr? {
        return request, map["error" := JStr(AttributeErrorText)];
      }
      var params := ExtractParameters(mf.s);
      reply := map["modelfile" := mf,
                   "parameters" := JObj(ParamsJson(params)),
                   "template" := JStr(ExtractTemplate(mf.s)),
                   "system" := JStr(ExtractSystem(mf.s))];
    }

    /** `save_model_config`: builds the model file (absent prompts are "")
        and posts it to `/api/create`, then reads the streamed reply. */
    method SaveModelConfig(name: string, system: string, template: string, ps: seq<Parameter>, post: CreateResponse)
      returns (request: Request, reply: Dict)
      ensures request == Request(POST, Url("api/create"), DefaultHeaders(apiKey), None,
                                 Some(map["name" := JStr(name), "modelfile" := JStr(Text(name, ps, system, template))]))
      ensures reply == SaveReply(name, post)
    {
      var modelfile := Build(name, ps, system, template);
      request := Request(POST, Url("api/create"), DefaultHeaders(apiKey), None,
                         Some(map["name" := JStr(name), "modelfile" := JStr(modelfile)]));
      if post.PostRaised? {
        return request, Failure(JStr(post.text));
      }
      var error, _ := ReduceCreateStream(post.lines);
      if Truthy(error) {
        reply := Failure(error);
      } else {
        reply := Success(SavedText(name));
      }
    }
  }
}

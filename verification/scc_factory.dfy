/** The tool factory of the firewall-management tool server: one tool per
    configured URL entry, the request each tool sends, and the three cache
    management tools with the cache settings they read and write. */
module SccFactory {

  import opened Wrappers
  import opened Text
  import opened SccUtils

  // ---------------------------------------------------------------------
  // Tools from URL entries
  // ---------------------------------------------------------------------

  /** A URL entry of the configuration; `None` is a missing key. */
  datatype UrlEntry = UrlEntry(
    name: Option<string>,
    url: Option<string>,
    httpMethod: Option<string>,
    filterableFields: Option<seq<string>>)

  /** The input model a generated tool accepts. */
  datatype InputModel = ListDevicesInput | DeployAsaDeviceChangesInput

  /** What a registered tool does when called. */
  datatype ToolAction =
    | ApiCall(path: string, inputModel: InputModel, httpMethod: string)
    | CacheClearTool
    | CacheInfoTool
    | CacheConfigTool

  /** A registered tool: its name, description, filtering metadata and action. */
  datatype ToolRecord = ToolRecord(
    name: string,
    doc: string,
    supportsFiltering: bool,
    filterableFields: seq<string>,
    action: ToolAction)

  /** An entry is skipped when its sanitized name or its URL is empty or missing. */
  predicate Skipped(e: UrlEntry) {
    SanitizeToolName(e.name.GetOr("")) == "" || e.url.GetOr("") == ""
  }

  /** The tool for one URL entry: nothing for an entry without a name or URL,
      a tool named by the sanitized name and described without its fields
      for a GET or POST entry, and the description's error for any other
      method, including a missing one. */
  function CreateToolFromUrlEntry(e: UrlEntry): (r: Result<Option<ToolRecord>, string>)
    ensures r == Ok(None) <==> Skipped(e)
    ensures r.Err? <==> !Skipped(e) && e.httpMethod != Some("GET") && e.httpMethod != Some("POST")
    ensures r.Err? ==> r.error == UnboundDescription
  {
    if Skipped(e) then Ok(None)
    else
      var httpMethod := e.httpMethod.GetOr("");
      var fields := e.filterableFields.GetOr([]);
      var inputModel := if httpMethod == "GET" then ListDevicesInput else DeployAsaDeviceChangesInput;
      match GenerateToolDocstring(e.name.value, e.url.value, httpMethod, None)
      case Err(error) => Err(error)
      case Ok(doc) =>
        Ok(Some(ToolRecord(SanitizeToolName(e.name.value), doc, |fields| > 0, fields,
                           ApiCall(e.url.value, inputModel, httpMethod))))
  }

  /** A created tool is named by the sanitized name, is filterable exactly
      when the entry lists fields, echoes those fields, carries the
      description generated without them, and calls the entry's URL with the
      list-devices input for GET and the change-deployment input otherwise. */
  lemma CreatedToolRecord(e: UrlEntry)
    requires CreateToolFromUrlEntry(e).Ok? && CreateToolFromUrlEntry(e).value.Some?
    ensures var t := CreateToolFromUrlEntry(e).value.value;
            && e.name.Some? && e.url.Some? && e.httpMethod.Some?
            && t.name == SanitizeToolName(e.name.value) && t.name != ""
            && (t.supportsFiltering <==> |e.filterableFields.GetOr([])| > 0)
            && t.filterableFields == e.filterableFields.GetOr([])
            && t.doc == GenerateToolDocstring(e.name.value, e.url.value, e.httpMethod.value, None).value
            && t.action == ApiCall(e.url.value,
                                   if e.httpMethod.value == "GET" then ListDevicesInput else DeployAsaDeviceChangesInput,
                                   e.httpMethod.value)
  {
  }

  /** A tool whose entry lists filterable fields is marked as filterable,
      yet its description says filtering is unsupported: the fields are not
      passed to the description. */
  lemma DescriptionIgnoresFilterableFields(e: UrlEntry)
    requires CreateToolFromUrlEntry(e).Ok? && CreateToolFromUrlEntry(e).value.Some?
    requires |e.filterableFields.GetOr([])| > 0
    ensures CreateToolFromUrlEntry(e).value.value.supportsFiltering
    ensures EndsWith(CreateToolFromUrlEntry(e).value.value.doc, " Does not support filtering.")
  {
    DocstringWithoutFields(e.name.value, e.url.value, e.httpMethod.value, None);
  }

  /** The tool a creation result contributes: one when a tool was created. */
  function ToolOf(r: Result<Option<ToolRecord>, string>): (ts: seq<ToolRecord>)
    ensures |ts| <= 1
    ensures r.Ok? && r.value.Some? ==> ts == [r.value.value]
  {
    if r.Ok? && r.value.Some? then [r.value.value] else []
  }

  /** What creates the tool for one entry. */
  type Creator = UrlEntry -> Result<Option<ToolRecord>, string>

  /** The tools a run collects from the first `n` entries when none of them
      raises: one per entry that yields a tool, in entry order. */
  function CollectedUpTo(create: Creator, entries: seq<UrlEntry>, n: nat): (tools: seq<ToolRecord>)
    requires n <= |entries|
    ensures |tools| <= n
  {
    if n == 0 then [] else CollectedUpTo(create, entries, n - 1) + ToolOf(create(entries[n - 1]))
  }

  /** The tools a run over all of `entries` collects when none of them raises. */
  function CreatedTools(entries: seq<UrlEntry>): (tools: seq<ToolRecord>)
    ensures |tools| <= |entries|
  {
    CollectedUpTo(CreateToolFromUrlEntry, entries, |entries|)
  }

  /** Every tool collected from the first `n` entries is the tool of one of them. */
  lemma {:induction false} CollectedComeFromEntries(create: Creator, entries: seq<UrlEntry>, n: nat, k: nat)
    requires n <= |entries| && k < |CollectedUpTo(create, entries, n)|
    ensures exists i :: 0 <= i < n && create(entries[i]) == Ok(Some(CollectedUpTo(create, entries, n)[k]))
  {
    var before := CollectedUpTo(create, entries, n - 1);
    if k < |before| {
      CollectedComeFromEntries(create, entries, n - 1, k);
      var i :| 0 <= i < n - 1 && create(entries[i]) == Ok(Some(before[k]));
      assert CollectedUpTo(create, entries, n)[k] == before[k];
    } else {
      assert create(entries[n - 1]) == Ok(Some(CollectedUpTo(create, entries, n)[k]));
    }
  }

  /** Every collected tool comes from a non-skipped entry of the list. */
  lemma CreatedToolsComeFromEntries(entries: seq<UrlEntry>, k: nat)
    requires k < |CreatedTools(entries)|
    ensures exists i :: 0 <= i < |entries| && CreateToolFromUrlEntry(entries[i]) == Ok(Some(CreatedTools(entries)[k]))
  {
    CollectedComeFromEntries(CreateToolFromUrlEntry, entries, |entries|, k);
  }

  /** Every tool of one of the first `n` entries is collected. */
  lemma {:induction false} EntriesAreCollected(create: Creator, entries: seq<UrlEntry>, n: nat, i: nat, t: ToolRecord)
    requires i < n <= |entries| && create(entries[i]) == Ok(Some(t))
    ensures t in CollectedUpTo(create, entries, n)
  {
    if i < n - 1 {
      EntriesAreCollected(create, entries, n - 1, i, t);
    }
  }

  /** Conversely, every entry that yields a tool has that tool collected. */
  lemma EveryToolIsCollected(entries: seq<UrlEntry>, i: nat, t: ToolRecord)
    requires i < |entries| && CreateToolFromUrlEntry(entries[i]) == Ok(Some(t))
    ensures t in CreatedTools(entries)
  {
    EntriesAreCollected(CreateToolFromUrlEntry, entries, |entries|, i, t);
  }

  /** The loop over the entries, for any way of creating one entry's tool:
      the created tools in entry order, skipping entries that yield none,
      and the first failure's error if an entry fails. */
  method CollectTools(create: Creator, entries: seq<UrlEntry>) returns (r: Result<seq<ToolRecord>, string>)
    ensures r.Err? <==> exists i :: 0 <= i < |entries| && create(entries[i]).Err?
    ensures r.Err? ==> exists i :: 0 <= i < |entries| && create(entries[i]) == Err(r.error) &&
                                   forall j :: 0 <= j < i ==> create(entries[j]).Ok?
    ensures r.Ok? ==> r.value == CollectedUpTo(create, entries, |entries|)
  {
    var tools: seq<ToolRecord> := [];
    var i := 0;
    while i < |entries|
      invariant 0 <= i <= |entries|
      invariant tools == CollectedUpTo(create, entries, i)
      invariant forall j :: 0 <= j < i ==> create(entries[j]).Ok?
    {
      var created := create(entries[i]);
      if created.Err? {
        return Err(created.error);
      }
      if created.value.Some? {
        tools := tools + [created.value.value];
      }
      i := i + 1;
    }
    return Ok(tools);
  }

  /** The tools for all URL entries, in order, skipping entries without a
      name or URL. The first entry whose description cannot be generated
      aborts the whole run with its error. */
  method CreateToolsFromUrlEntries(entries: seq<UrlEntry>) returns (r: Result<seq<ToolRecord>, string>)
    ensures r.Err? <==> exists i :: 0 <= i < |entries| && CreateToolFromUrlEntry(entries[i]).Err?
    ensures r.Err? ==> r.error == UnboundDescription
    ensures r.Ok? ==> r.value == CreatedTools(entries)
  {
    r := CollectTools(CreateToolFromUrlEntry, entries);
  }

  // ---------------------------------------------------------------------
  // The request a generated tool sends
  // ---------------------------------------------------------------------

  /** The arguments a generated tool is called with: the optional filter
      expression, the optional extra query parameters, and the model's other
      fields. */
  datatype ToolParams = ToolParams(
    filterExpression: Option<string>,
    queryParams: Option<map<string, string>>,
    fields: map<string, string>)

  /** A POST body: every argument except the query parameters. */
  datatype Payload = Payload(filterExpression: Option<string>, fields: map<string, string>)

  datatype ApiRequest =
    | GetRequest(path: string, params: map<string, string>)
    | PostRequest(path: string, payload: Payload)

  /** The query parameters of a GET: the filter expression under "filter",
      then every extra query parameter except "use_cache", which overrides. */
  function RequestParams(p: ToolParams): (r: map<string, string>)
    ensures "use_cache" !in r
    ensures forall k :: k in r <==>
              (k == "filter" && p.filterExpression.Some?) ||
              (p.queryParams.Some? && k in p.queryParams.value && k != "use_cache")
    ensures forall k :: k in r ==>
              r[k] == if p.queryParams.Some? && k in p.queryParams.value then p.queryParams.value[k]
                      else p.filterExpression.value
  {
    var base: map<string, string> :=
      if p.filterExpression.Some? then map["filter" := p.filterExpression.value] else map[];
    match p.queryParams
    case None => base
    case Some(qp) => base + (qp - {"use_cache"})
  }

  /** The "use_cache" value the tool extracts from the query parameters. */
  function UseCache(p: ToolParams): (v: Option<string>)
    ensures v.Some? <==> p.queryParams.Some? && "use_cache" in p.queryParams.value
  {
    if p.queryParams.Some? && "use_cache" in p.queryParams.value then Some(p.queryParams.value["use_cache"])
    else None
  }

  /** The request a generated tool sends: a GET with the query parameters,
      a POST with every argument but the query parameters, and no request at
      all for any other method. */
  function ToolRequest(path: string, httpMethod: string, p: ToolParams): (r: Option<ApiRequest>)
    ensures r.None? <==> httpMethod != "GET" && httpMethod != "POST"
    ensures r.Some? ==> r.value.path == path
    ensures httpMethod == "GET" ==> r == Some(GetRequest(path, RequestParams(p)))
    ensures httpMethod == "POST" ==> r == Some(PostRequest(path, Payload(p.filterExpression, p.fields)))
  {
    if httpMethod == "GET" then Some(GetRequest(path, RequestParams(p)))
    else if httpMethod == "POST" then Some(PostRequest(path, Payload(p.filterExpression, p.fields)))
    else None
  }

  /** The extracted "use_cache" value never reaches the request, and neither
      do the query parameters of a POST: two calls that differ only in their
      query parameters' "use_cache" send the same request, and two POST calls
      that differ only in their query parameters send the same body. */
  lemma UseCacheIsDropped(path: string, httpMethod: string, p: ToolParams, q: ToolParams)
    requires p.filterExpression == q.filterExpression && p.fields == q.fields
    ensures (p.queryParams.None? <==> q.queryParams.None?) &&
            (p.queryParams.Some? ==> p.queryParams.value - {"use_cache"} == q.queryParams.value - {"use_cache"}) ==>
              ToolRequest(path, httpMethod, p) == ToolRequest(path, httpMethod, q)
    ensures httpMethod == "POST" ==> ToolRequest(path, httpMethod, p) == ToolRequest(path, httpMethod, q)
  {
  }

  /** A "filter" query parameter overrides the filter expression. */
  lemma QueryFilterOverridesExpression(p: ToolParams)
    requires p.queryParams.Some? && "filter" in p.queryParams.value
    ensures RequestParams(p)["filter"] == p.queryParams.value["filter"]
  {
  }

  /** The request a registered API tool sends on a call. */
  function InvokeTool(t: ToolRecord, p: ToolParams): (r: Option<ApiRequest>)
    requires t.action.ApiCall?
    ensures r.Some? <==> t.action.httpMethod == "GET" || t.action.httpMethod == "POST"
    ensures r.Some? ==> r.value.path == t.action.path
    ensures t.action.httpMethod == "GET" ==> r.value.GetRequest? && "use_cache" !in r.value.params
    ensures t.action.httpMethod == "POST" ==> r.value.PostRequest? && r.value.payload.fields == p.fields
  {
    ToolRequest(t.action.path, t.action.httpMethod, p)
  }

  /** Every tool created from an entry sends a request to the entry's URL
      on every call: creation has already rejected every other method. */
  lemma CreatedToolsAlwaysSend(e: UrlEntry, p: ToolParams)
    requires CreateToolFromUrlEntry(e).Ok? && CreateToolFromUrlEntry(e).value.Some?
    ensures InvokeTool(CreateToolFromUrlEntry(e).value.value, p).Some?
    ensures InvokeTool(CreateToolFromUrlEntry(e).value.value, p).value.path == e.url.value
  {
  }

  // ---------------------------------------------------------------------
  // Cache management
  // ---------------------------------------------------------------------

  /** The client's cache settings. `ttl` is `None` while the attribute has
      never been assigned. */
  datatype CacheSettings = CacheSettings(enabled: bool, ttl: Option<int>)

  /** The client's class-level default time-to-live, in seconds. */
  const DefaultCacheTtl: int := 300

  /** A new client as written: caching off and no time-to-live attribute. */
  function NewClientSettings(): (c: CacheSettings)
    ensures !c.enabled && c.ttl.None?
  {
    CacheSettings(false, None)
  }

  /** A new client with the time-to-live initialised to the class default. */
  function NewClientSettingsCorrected(): (c: CacheSettings)
    ensures !c.enabled && c.ttl == Some(DefaultCacheTtl)
  {
    CacheSettings(false, Some(DefaultCacheTtl))
  }

  /** What reading the never-assigned time-to-live raises. */
  const MissingTtl: string := "AttributeError: 'FirewallManagerApiClient' object has no attribute 'cache_ttl'"

  datatype CacheReport = CacheReport(cacheEnabled: bool, cacheTtl: int, message: string)

  /** The cache configuration tool: each given setting is stored, then the
      current settings are reported. The settings are stored even when
      reading them back raises. */
  function CacheConfig(c: CacheSettings, enabled: Option<bool>, ttl: Option<int>)
    : (r: (Result<CacheReport, string>, CacheSettings))
    ensures r.1.enabled == enabled.GetOr(c.enabled)
    ensures r.1.ttl == Overwrite(c.ttl, ttl)
    ensures r.0.Err? <==> r.1.ttl.None?
    ensures r.0.Err? ==> r.0.error == MissingTtl
    ensures r.0.Ok? ==> r.0.value == CacheReport(r.1.enabled, r.1.ttl.value, "Cache configuration updated successfully")
  {
    var c' := CacheSettings(if enabled.Some? then enabled.value else c.enabled,
                            if ttl.Some? then ttl else c.ttl);
    if c'.ttl.None? then (Err(MissingTtl), c')
    else (Ok(CacheReport(c'.enabled, c'.ttl.value, "Cache configuration updated successfully")), c')
  }

  /** On a client as written, configuring the cache without a time-to-live
      raises, even though the class declares a default. */
  lemma CacheConfigFailsOnNewClient(enabled: Option<bool>)
    ensures CacheConfig(NewClientSettings(), enabled, None).0 == Err(MissingTtl)
  {
  }

  /** The settings after a sequence of configuration calls, and whether every
      call answered. */
  function ConfigureAll(c: CacheSettings, calls: seq<(Option<bool>, Option<int>)>): (r: (bool, CacheSettings))
    decreases |calls|
  {
    if |calls| == 0 then (true, c)
    else
      var (reply, c') := CacheConfig(c, calls[0].0, calls[0].1);
      var (ok, last) := ConfigureAll(c', calls[1..]);
      (reply.Ok? && ok, last)
  }

  /** From a client whose time-to-live starts at the class default, every
      configuration call answers, and the time-to-live is the default while
      no call gives one (ConfigureKeepsLastTtl covers the calls that do). */
  lemma {:induction false} CorrectedClientAlwaysAnswers(c: CacheSettings, calls: seq<(Option<bool>, Option<int>)>)
    requires c.ttl.Some?
    ensures ConfigureAll(c, calls).0
    ensures ConfigureAll(c, calls).1.ttl.Some?
    ensures (forall k :: 0 <= k < |calls| ==> calls[k].1.None?) ==> ConfigureAll(c, calls).1.ttl == c.ttl
    decreases |calls|
  {
    if |calls| > 0 {
      var c' := CacheConfig(c, calls[0].0, calls[0].1).1;
      CorrectedClientAlwaysAnswers(c', calls[1..]);
      if forall k :: 0 <= k < |calls| ==> calls[k].1.None? {
        assert calls[0].1.None?;
        assert forall k :: 0 <= k < |calls[1..]| ==> calls[1..][k].1.None? by {
          forall k | 0 <= k < |calls[1..]| ensures calls[1..][k].1.None? {
            assert calls[1..][k] == calls[k + 1];
          }
        }
      }
    }
  }

  /** Calls that give no time-to-live leave it as it was, set or not. */
  lemma {:induction false} ConfigureWithoutTtlKeepsTtl(c: CacheSettings, calls: seq<(Option<bool>, Option<int>)>)
    requires forall k :: 0 <= k < |calls| ==> calls[k].1.None?
    ensures ConfigureAll(c, calls).1.ttl == c.ttl
    decreases |calls|
  {
    if |calls| > 0 {
      assert calls[0].1.None?;
      assert forall k :: 0 <= k < |calls[1..]| ==> calls[1..][k].1.None? by {
        forall k | 0 <= k < |calls[1..]| ensures calls[1..][k].1.None? {
          assert calls[1..][k] == calls[k + 1];
        }
      }
      ConfigureWithoutTtlKeepsTtl(CacheConfig(c, calls[0].0, calls[0].1).1, calls[1..]);
    }
  }

  /** After a sequence of configuration calls the time-to-live is the one the
      last call that gave one stored, on any client. */
  lemma {:induction false} ConfigureKeepsLastTtl(c: CacheSettings, calls: seq<(Option<bool>, Option<int>)>, k: nat)
    requires k < |calls| && calls[k].1.Some?
    requires forall j :: k < j < |calls| ==> calls[j].1.None?
    ensures ConfigureAll(c, calls).1.ttl == calls[k].1
    decreases |calls|
  {
    var c' := CacheConfig(c, calls[0].0, calls[0].1).1;
    if k == 0 {
      assert forall j :: 0 <= j < |calls[1..]| ==> calls[1..][j].1.None? by {
        forall j | 0 <= j < |calls[1..]| ensures calls[1..][j].1.None? {
          assert calls[1..][j] == calls[j + 1];
        }
      }
      ConfigureWithoutTtlKeepsTtl(c', calls[1..]);
    } else {
      assert forall j :: k - 1 < j < |calls[1..]| ==> calls[1..][j].1.None? by {
        forall j | k - 1 < j < |calls[1..]| ensures calls[1..][j].1.None? {
          assert calls[1..][j] == calls[j + 1];
        }
      }
      assert calls[1..][k - 1] == calls[k];
      ConfigureKeepsLastTtl(c', calls[1..], k - 1);
    }
  }

  /** Whether a namespace was given: a missing or empty namespace is not. */
  predicate HasNamespace(namespace: Option<string>) {
    namespace.Some? && namespace.value != ""
  }

  /** The cache-clear message as written: the namespace phrase is glued to
      "Cache" without a space. */
  function CacheClearMessage(namespace: Option<string>): (m: string)
    ensures StartsWith(m, "Cache") && EndsWith(m, " cleared successfully")
    ensures !HasNamespace(namespace) ==> m == "Cache cleared successfully"
    ensures HasNamespace(namespace) ==> Contains(m, "for namespace: " + namespace.value)
  {
    var middle := if HasNamespace(namespace) then "for namespace: " + namespace.value else "";
    FramedText("Cache", middle, " cleared successfully");
    PlainClearMessage();
    "Cache" + middle + " cleared successfully"
  }

  /** The two halves of the message meet in "Cache cleared successfully". */
  lemma PlainClearMessage()
    ensures "Cache" + " cleared successfully" == "Cache cleared successfully"
  {
  }

  /** A text framed by a head and a tail starts with the head, ends with the
      tail and contains what lies between. */
  lemma FramedText(head: string, middle: string, tail: string)
    ensures StartsWith(head + middle + tail, head) && EndsWith(head + middle + tail, tail)
    ensures Contains(head + middle + tail, middle)
    ensures middle == [] ==> head + middle + tail == head + tail
  {
    var t := head + middle + tail;
    assert t[..|head|] == head;
    assert t[|t| - |tail|..] == tail;
    ContainsMiddle(head, middle, tail);
  }

  /** The cache-clear message with "Cache" and the namespace phrase separated. */
  function CacheClearMessageCorrected(namespace: Option<string>): (m: string)
    ensures !HasNamespace(namespace) ==> m == CacheClearMessage(namespace)
  {
    "Cache" + (if HasNamespace(namespace) then " for namespace: " + namespace.value else "") + " cleared successfully"
  }

  /** With a namespace the written message runs "Cache" into the next word. */
  lemma ClearMessageRunsWordsTogether(namespace: string)
    requires namespace != ""
    ensures StartsWith(CacheClearMessage(Some(namespace)), "Cachefor namespace: " + namespace)
    ensures !StartsWith(CacheClearMessage(Some(namespace)), "Cache ")
  {
    var m := CacheClearMessage(Some(namespace));
    assert m == "Cachefor namespace: " + namespace + " cleared successfully";
    assert m[..|"Cachefor namespace: " + namespace|] == "Cachefor namespace: " + namespace;
    assert m[5] == 'f';
  }

  /** The corrected message always starts with the word "Cache", names the
      namespace when one is given, and ends the same way in every case. */
  lemma CorrectedClearMessageSeparatesWords(namespace: Option<string>)
    ensures StartsWith(CacheClearMessageCorrected(namespace), "Cache ")
    ensures EndsWith(CacheClearMessageCorrected(namespace), " cleared successfully")
    ensures HasNamespace(namespace) ==> Contains(CacheClearMessageCorrected(namespace), " for namespace: " + namespace.value + " ")
  {
    var m := CacheClearMessageCorrected(namespace);
    var middle := if HasNamespace(namespace) then " for namespace: " + namespace.value else "";
    assert m == "Cache" + middle + " cleared successfully";
    assert m[..6] == "Cache ";
    assert m[|m| - |" cleared successfully"|..] == " cleared successfully";
    if HasNamespace(namespace) {
      assert m == "Cache" + (middle + " ") + "cleared successfully";
      ContainsMiddle("Cache", middle + " ", "cleared successfully");
    }
  }

  datatype ClearReply = ClearReply(status: string, message: string)

  /** The cache-clear tool as written: the client's clear call, then a
      success reply with the run-together message. `clearError` is what the
      client's clear call raised, if anything. */
  function CacheClear(clearError: Option<string>, namespace: Option<string>): (r: Result<ClearReply, string>)
    ensures r.Err? <==> clearError.Some?
    ensures r.Err? ==> r.error == clearError.value
    ensures r.Ok? ==> r.value.status == "success"
    ensures r.Ok? ==> StartsWith(r.value.message, "Cache") && EndsWith(r.value.message, " cleared successfully")
    ensures r.Ok? && !HasNamespace(namespace) ==> r.value.message == "Cache cleared successfully"
    ensures r.Ok? && HasNamespace(namespace) ==> Contains(r.value.message, "for namespace: " + namespace.value)
  {
    if clearError.Some? then Err(clearError.value)
    else Ok(ClearReply("success", CacheClearMessage(namespace)))
  }

  /** The cache-clear tool with the corrected message. */
  function CacheClearCorrected(clearError: Option<string>, namespace: Option<string>): (r: Result<ClearReply, string>)
    ensures r.Err? <==> clearError.Some?
    ensures r.Err? ==> r.error == clearError.value
    ensures r.Ok? ==> r.value.status == "success"
    ensures r.Ok? ==> StartsWith(r.value.message, "Cache ") && EndsWith(r.value.message, " cleared successfully")
    ensures r.Ok? && HasNamespace(namespace) ==> Contains(r.value.message, " for namespace: " + namespace.value + " ")
  {
    CorrectedClearMessageSeparatesWords(namespace);
    if clearError.Some? then Err(clearError.value)
    else Ok(ClearReply("success", CacheClearMessageCorrected(namespace)))
  }

  /** The two tools differ only in the message they send with a namespace:
      their failures, their statuses and their namespace-less replies agree. */
  lemma {:induction false} CacheClearToolsAgreeWithoutNamespace(clearError: Option<string>, namespace: Option<string>)
    ensures CacheClear(clearError, namespace).Err? <==> CacheClearCorrected(clearError, namespace).Err?
    ensures !HasNamespace(namespace) ==> CacheClear(clearError, namespace) == CacheClearCorrected(clearError, namespace)
    ensures HasNamespace(namespace) && clearError.None? ==>
              CacheClear(clearError, namespace) != CacheClearCorrected(clearError, namespace)
  {
    if HasNamespace(namespace) && clearError.None? {
      ClearMessageRunsWordsTogether(namespace.value);
      CorrectedClearMessageSeparatesWords(namespace);
    }
  }

  /** Which cache methods a client class defines. The tools call the
      client's `clear_cache` and `get_cache_info`; calling a method the class
      does not define raises AttributeError. */
  datatype ClientCacheMethods = ClientCacheMethods(definesClearCache: bool, definesCacheInfo: bool)

  /** The client of `api/client.py`: it defines `get`, `put`, `post` and
      `delete`, and neither cache method. */
  const ShippedClient: ClientCacheMethods := ClientCacheMethods(false, false)

  /** A client that defines both cache methods the tools call. */
  const CorrectedClient: ClientCacheMethods := ClientCacheMethods(true, true)

  const MissingClearCache: string := "AttributeError: 'FirewallManagerApiClient' object has no attribute 'clear_cache'"
  const MissingCacheInfo: string := "AttributeError: 'FirewallManagerApiClient' object has no attribute 'get_cache_info'"

  /** The cache-clear tool on a given client: the attribute lookup fails
      before anything is cleared when the client lacks `clear_cache`;
      otherwise `clearError` is what the defined method raised, if anything. */
  function CacheClearOn(client: ClientCacheMethods, clearError: Option<string>, namespace: Option<string>)
    : (r: Result<ClearReply, string>)
    ensures !client.definesClearCache ==> r == Err(MissingClearCache)
    ensures client.definesClearCache ==> (r.Err? <==> clearError.Some?)
    ensures client.definesClearCache && clearError.None? ==>
              r.Ok? && r.value.status == "success" && r.value.message == CacheClearMessage(namespace)
  {
    if client.definesClearCache then CacheClear(clearError, namespace) else Err(MissingClearCache)
  }

  /** The cache-info tool on a given client: it passes on the client's
      answer `info`, or the failed attribute lookup when there is no
      `get_cache_info`. */
  function CacheInfoOn<I>(client: ClientCacheMethods, info: Result<I, string>): (r: Result<I, string>)
    ensures !client.definesCacheInfo ==> r == Err(MissingCacheInfo)
    ensures client.definesCacheInfo ==> r == info
  {
    if client.definesCacheInfo then info else Err(MissingCacheInfo)
  }

  /** With the client as written, every cache-clear call raises, whatever
      the namespace: the success reply, and so its message, is never sent. */
  lemma ShippedCacheClearAlwaysRaises(clearError: Option<string>, namespace: Option<string>)
    ensures CacheClearOn(ShippedClient, clearError, namespace) == Err(MissingClearCache)
    ensures CacheClearOn(ShippedClient, clearError, namespace) != CacheClearOn(CorrectedClient, None, namespace)
  {
  }

  /** With the client as written, every cache-info call raises. */
  lemma ShippedCacheInfoAlwaysRaises<I>(info: Result<I, string>)
    ensures CacheInfoOn(ShippedClient, info) == Err(MissingCacheInfo)
  {
  }

  /** With a client that defines `clear_cache`, a successful clear replies
      "success" with the clear message; with a namespace that message is the
      run-together one, and the corrected tool's reply then differs. */
  lemma CorrectedClientClears(namespace: Option<string>)
    ensures CacheClearOn(CorrectedClient, None, namespace) == Ok(ClearReply("success", CacheClearMessage(namespace)))
    ensures HasNamespace(namespace) ==>
              StartsWith(CacheClearOn(CorrectedClient, None, namespace).value.message, "Cachefor namespace: " + namespace.value) &&
              CacheClearOn(CorrectedClient, None, namespace) != CacheClearCorrected(None, namespace)
  {
    if HasNamespace(namespace) {
      ClearMessageRunsWordsTogether(namespace.value);
      CacheClearToolsAgreeWithoutNamespace(None, namespace);
    }
  }

  /** With a client that defines `get_cache_info`, the tool answers exactly
      what the client answers, failures included. */
  lemma CorrectedClientReportsCacheInfo<I>(info: Result<I, string>)
    ensures CacheInfoOn(CorrectedClient, info) == info
    ensures CacheInfoOn(CorrectedClient, info).Ok? <==> info.Ok?
  {
  }

  /** The three cache management tools: clear, info and configure, none of
      them filterable. */
  function CacheManagementTools(): (tools: seq<ToolRecord>)
    ensures |tools| == 3
    ensures forall k :: 0 <= k < 3 ==> !tools[k].supportsFiltering && tools[k].filterableFields == []
    ensures [tools[0].name, tools[1].name, tools[2].name] == ["cache_clear", "cache_info", "cache_config"]
    ensures [tools[0].action, tools[1].action, tools[2].action] == [CacheClearTool, CacheInfoTool, CacheConfigTool]
  {
    [ToolRecord("cache_clear", "Clear the API response cache to ensure fresh data from Cisco SCC.", false, [], CacheClearTool),
     ToolRecord("cache_info", "Get information about the current cache state.", false, [], CacheInfoTool),
     ToolRecord("cache_config", "Configure cache settings for the SCC API client.", false, [], CacheConfigTool)]
  }
}

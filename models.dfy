/**
 * src/dp_models.c: dp_list_models once the transfer is over. The reply's
 * model array is copied, element by element, into a freshly allocated
 * array of model descriptions. The transfer (URL, headers, curl) is an
 * input: its outcome is a `Transfer`.
 */
module Models {
  import opened Wrappers
  import opened Json
  import opened Text
  import opened Types
  import MockServer

  /** dp_model_info_t; absent strings are NULL, absent limits stay 0 from memset. */
  datatype ModelInfo = ModelInfo(
    modelId: Option<string>,
    displayName: Option<string>,
    version: Option<string>,
    description: Option<string>,
    inputTokenLimit: int,
    outputTokenLimit: int)

  /** A calloc'd entry before the loop fills it. */
  const ZeroInfo := ModelInfo(None, None, None, None, 0, 0)

  const GeminiModelPrefix := "models/"

  const UnsupportedProvider := "Unsupported provider for list_models."

  /** Gemini names its models "models/<id>"; only that leading prefix is dropped. */
  function StripModelsPrefix(name: string): (r: string)
    ensures StartsWith(name, GeminiModelPrefix) ==> GeminiModelPrefix + r == name
    ensures !StartsWith(name, GeminiModelPrefix) ==> r == name
  {
    if StartsWith(name, GeminiModelPrefix) then
      assert name == name[..7] + name[7..];
      name[7..]
    else name
  }

  /** Stripping undoes the prefix, whatever follows it. */
  lemma StripUndoesPrefix(id: string)
    ensures StripModelsPrefix(GeminiModelPrefix + id) == id
  {
    var name := GeminiModelPrefix + id;
    assert name[..7] == GeminiModelPrefix;
    assert name[7..] == id;
  }

  /** C's (long) cast of a double: the fractional part is dropped toward zero. */
  function TruncateTowardZero(x: real): (r: int)
    ensures x >= 0.0 ==> 0 <= r && r as real <= x < r as real + 1.0
    ensures x < 0.0 ==> r <= 0 && r as real - 1.0 < x <= r as real
  {
    if x >= 0.0 then x.Floor else -((-x).Floor)
  }

  /** The string an item holds under `key`, when it is a string. */
  function StringMember(j: Json, key: string): Option<string> {
    GetString(j, key)
  }

  /** A token limit: the truncated number under `key`, else 0. */
  function LimitMember(j: Json, key: string): int {
    match Get(j, key)
    case Some(JNumber(n)) => TruncateTowardZero(n)
    case _ => 0
  }

  /** The member a provider keeps its model list under. */
  function ListKey(provider: Provider): string
    requires !provider.OtherProvider?
  {
    if provider == GoogleGemini then "models" else "data"
  }

  /**
   * The description of one array element: the id from "id" (from "name",
   * prefix dropped, for Gemini), "displayName" or, for Anthropic only when
   * that member is absent, "display_name", and the optional version,
   * description and token limits.
   */
  function InfoOf(provider: Provider, j: Json): (info: ModelInfo)
    requires !provider.OtherProvider?
  {
    var id := if provider == GoogleGemini then GetString(j, "name") else GetString(j, "id");
    var display := if Get(j, "displayName").None? && provider == Anthropic then Get(j, "display_name") else Get(j, "displayName");
    ModelInfo(
      if id.Some? && provider == GoogleGemini then Some(StripModelsPrefix(id.value)) else id,
      match display case Some(JString(s)) => Some(s) case _ => None,
      StringMember(j, "version"),
      StringMember(j, "description"),
      LimitMember(j, "inputTokenLimit"),
      LimitMember(j, "outputTokenLimit"))
  }

  /** The descriptions of an array's elements, in order. */
  function InfosOf(provider: Provider, items: seq<Json>): (r: seq<ModelInfo>)
    requires !provider.OtherProvider?
    ensures |r| == |items|
    ensures forall k :: 0 <= k < |items| ==> r[k] == InfoOf(provider, items[k])
  {
    seq(|items|, k requires 0 <= k < |items| => InfoOf(provider, items[k]))
  }

  /** What dp_list_models leaves in its dp_model_list_t: the array (None for NULL), the error and the status. */
  datatype Listing = Listing(models: Option<seq<ModelInfo>>, error: Option<string>, httpStatus: nat)

  function TransferFailure(t: Transfer): string {
    "curl_easy_perform() failed for list_models: " + t.curlError + " (HTTP status: " + NatToString(t.httpStatus) + ")"
  }

  function Unparsable(body: string): string {
    "Failed to parse JSON response for list_models. Body: " + Prefix(UpToNul(body), 200) + "..."
  }

  function NotAnArray(body: string): string {
    "Expected an array for model listing response. Body: " + Prefix(UpToNul(body), 200) + "..."
  }

  function HttpFailure(status: nat, body: string): string {
    "list_models HTTP error " + NatToString(status) + ". Body: " + Prefix(UpToNul(body), 500)
  }

  /** The listing for a supported provider once the transfer is over. */
  function ListingOf(provider: Provider, parse: Parser, t: Transfer): Listing
    requires !provider.OtherProvider?
  {
    if !t.ok then Listing(None, Some(TransferFailure(t)), t.httpStatus)
    else if !(200 <= t.httpStatus < 300) then Listing(None, Some(HttpFailure(t.httpStatus, t.body)), t.httpStatus)
    else BodyListing(provider, parse, t.body).(httpStatus := t.httpStatus)
  }

  /** The listing read from a 2xx body: the array's descriptions, or why there are none. */
  function BodyListing(provider: Provider, parse: Parser, body: string): Listing
    requires !provider.OtherProvider?
  {
    match parse(UpToNul(body))
    case None => Listing(None, Some(Unparsable(body)), 0)
    case Some(root) => RootListing(provider, root, body)
  }

  /** The listing read from a parsed 2xx body: the array under the provider's key, or the complaint. */
  function RootListing(provider: Provider, root: Json, body: string): Listing
    requires !provider.OtherProvider?
  {
    var data := Get(root, ListKey(provider));
    if data.Some? && data.value.JArray? then Listing(Some(InfosOf(provider, data.value.items)), None, 0)
    else Listing(None, Some(NotAnArray(body)), 0)
  }

  /** dp_model_list_t. */
  class ModelList {
    var models: array?<ModelInfo>
    var count: nat
    var error: Option<string>
    var httpStatus: nat

    /** The calloc'd, zeroed list. */
    constructor ()
      ensures models == null && count == 0 && error.None? && httpStatus == 0
    {
      models := null;
      count := 0;
      error := None;
      httpStatus := 0;
    }

    /** The list as a value: the array's contents when it is allocated. */
    function State(): Listing
      reads this, models
    {
      Listing(if models == null then None else Some(models[..]), error, httpStatus)
    }
  }

  /**
   * The loop over the reply's array: a zeroed array of the same length,
   * whose entry at each index is filled from the element at that index.
   */
  method FillModels(provider: Provider, items: seq<Json>) returns (models: array<ModelInfo>)
    requires !provider.OtherProvider?
    ensures fresh(models) && models[..] == InfosOf(provider, items)
  {
    models := new ModelInfo[|items|](_ => ZeroInfo);
    var i := 0;
    while i < |items|
      invariant 0 <= i <= |items|
      invariant forall k :: 0 <= k < i ==> models[k] == InfoOf(provider, items[k])
      modifies models
    {
      models[i] := InfoOf(provider, items[i]);
      i := i + 1;
    }
    assert models[..] == InfosOf(provider, items);
  }

  /** The 2xx branch: parse the body and copy its array, or say why not. */
  method ReadBody(provider: Provider, parse: Parser, body: string) returns (models: array?<ModelInfo>, error: Option<string>)
    requires !provider.OtherProvider?
    ensures models != null ==> fresh(models)
    ensures (if models == null then None else Some(models[..])) == BodyListing(provider, parse, body).models
    ensures error == BodyListing(provider, parse, body).error
  {
    var parsed := parse(UpToNul(body));
    if parsed.None? {
      error, models := Some(Unparsable(body)), null;
    } else {
      models, error := ReadRoot(provider, parsed.value, body);
    }
  }

  /** The parsed body's array under the provider's key, copied, or the complaint that there is none. */
  method ReadRoot(provider: Provider, root: Json, body: string) returns (models: array?<ModelInfo>, error: Option<string>)
    requires !provider.OtherProvider?
    ensures models != null ==> fresh(models)
    ensures (if models == null then None else Some(models[..])) == RootListing(provider, root, body).models
    ensures error == RootListing(provider, root, body).error
  {
    var data := Get(root, ListKey(provider));
    if data.Some? && data.value.JArray? {
      models := FillModels(provider, data.value.items);
      error := None;
    } else {
      models, error := null, Some(NotAnArray(body));
    }
  }

  /** The branches on the transfer's outcome: the filled array, or the error message. */
  method ReadListing(provider: Provider, parse: Parser, t: Transfer) returns (models: array?<ModelInfo>, error: Option<string>)
    requires !provider.OtherProvider?
    ensures models != null ==> fresh(models)
    ensures (if models == null then None else Some(models[..])) == ListingOf(provider, parse, t).models
    ensures error == ListingOf(provider, parse, t).error
  {
    error, models := None, null;
    if !t.ok {
      error := Some(TransferFailure(t));
    } else if 200 <= t.httpStatus < 300 {
      models, error := ReadBody(provider, parse, t.body);
    } else {
      error := Some(HttpFailure(t.httpStatus, t.body));
    }
  }

  /**
   * dp_list_models. `context` is the context's provider (None for a NULL
   * context) and `outGiven` says whether model_list_out is non-NULL; the
   * list returned is the one *model_list_out points to (null when nothing
   * is allocated).
   */
  method ListModels(context: Option<Provider>, outGiven: bool, parse: Parser, t: Transfer)
    returns (code: int, list: ModelList?)
    ensures code == -1 || code == 0
    ensures context.None? || !outGiven ==> code == -1 && list == null
    ensures context.Some? && outGiven ==> list != null && fresh(list) && (list.models == null || fresh(list.models))
    ensures context.Some? && outGiven && context.value.OtherProvider? ==>
      code == -1 && list.State() == Listing(None, Some(UnsupportedProvider), 0)
    ensures context.Some? && outGiven && !context.value.OtherProvider? ==>
      list.State() == ListingOf(context.value, parse, t) && (code == 0 <==> list.error.None?)
    ensures list != null && list.models != null ==> list.count == list.models.Length
    ensures list != null && list.models == null ==> list.count == 0
  {
    if context.None? || !outGiven {
      return -1, null;
    }
    list := new ModelList();
    var provider := context.value;
    if provider.OtherProvider? {
      list.error := Some(UnsupportedProvider);
      return -1, list;
    }
    var models, error := ReadListing(provider, parse, t);
    list.models, list.error, list.httpStatus := models, error, t.httpStatus;
    list.count := if models == null then 0 else models.Length;
    code := if error.Some? then -1 else 0;
  }

  // ---------------------------------------------------------------------
  // Properties of a listing
  // ---------------------------------------------------------------------

  /**
   * A listing succeeds exactly when the transfer completes with a 2xx
   * status and the provider's list member is an array; it then has one
   * description per element, in order, and otherwise no array at all.
   */
  lemma ListingSucceedsIff(provider: Provider, parse: Parser, t: Transfer)
    requires !provider.OtherProvider?
    ensures var l := ListingOf(provider, parse, t);
      var root := parse(UpToNul(t.body));
      && l.httpStatus == t.httpStatus
      && (l.error.None? <==> t.ok && 200 <= t.httpStatus < 300 && root.Some?
                             && Get(root.value, ListKey(provider)).Some? && Get(root.value, ListKey(provider)).value.JArray?)
      && (l.error.None? ==> l.models == Some(InfosOf(provider, Get(root.value, ListKey(provider)).value.items)))
      && (l.error.Some? <==> l.models.None?)
  {
    if t.ok && 200 <= t.httpStatus < 300 {
      BodyListingSucceedsIff(provider, parse, t.body);
    }
  }

  /** A 2xx body yields the array's descriptions exactly when it parses and holds an array under the provider's key. */
  lemma BodyListingSucceedsIff(provider: Provider, parse: Parser, body: string)
    requires !provider.OtherProvider?
    ensures var l := BodyListing(provider, parse, body);
      var root := parse(UpToNul(body));
      && (l.error.None? <==> root.Some? && Get(root.value, ListKey(provider)).Some? && Get(root.value, ListKey(provider)).value.JArray?)
      && (l.error.None? ==> l.models == Some(InfosOf(provider, Get(root.value, ListKey(provider)).value.items)))
      && (l.error.Some? <==> l.models.None?)
  {
    var root := parse(UpToNul(body));
    if root.Some? {
      RootListingSucceedsIff(provider, root.value, body);
    }
  }

  /** A parsed body yields the array's descriptions exactly when it holds an array under the provider's key. */
  lemma RootListingSucceedsIff(provider: Provider, root: Json, body: string)
    requires !provider.OtherProvider?
    ensures var l := RootListing(provider, root, body);
      var data := Get(root, ListKey(provider));
      && (l.error.None? <==> data.Some? && data.value.JArray?)
      && (l.error.None? ==> l.models == Some(InfosOf(provider, data.value.items)))
      && (l.error.Some? <==> l.models.None?)
  {
    var data := Get(root, ListKey(provider));
    if !(data.Some? && data.value.JArray?) {
      assert RootListing(provider, root, body).error == Some(NotAnArray(body));
    }
  }

  /** A non-2xx answer reports its status and at most 500 characters of the body. */
  lemma HttpErrorListing(provider: Provider, parse: Parser, t: Transfer)
    requires !provider.OtherProvider? && t.ok && !(200 <= t.httpStatus < 300)
    ensures var l := ListingOf(provider, parse, t);
      && l.error.Some? && StartsWith(l.error.value, "list_models HTTP error " + NatToString(t.httpStatus) + ". Body: ")
      && l.models.None? && l.httpStatus == t.httpStatus
  {
    var head := "list_models HTTP error " + NatToString(t.httpStatus) + ". Body: ";
    assert HttpFailure(t.httpStatus, t.body)[..|head|] == head;
  }

  /** OpenAI lists its models under "data" and names each by "id". */
  lemma OpenAIModelIds(id: string)
    ensures InfoOf(OpenAICompatible, JObject([("id", JString(id)), ("object", JString("model"))])).modelId == Some(id)
  {
  }

  /** Gemini's "models/<id>" names become "<id>"; the display name is read from "displayName". */
  lemma GeminiModelIds(id: string, display: string)
    ensures var item := JObject([("name", JString(GeminiModelPrefix + id)), ("displayName", JString(display))]);
      && InfoOf(GoogleGemini, item).modelId == Some(id)
      && InfoOf(GoogleGemini, item).displayName == Some(display)
  {
    var item := JObject([("name", JString(GeminiModelPrefix + id)), ("displayName", JString(display))]);
    LookupFirst(item.fields, "displayName", 1);
    StripUndoesPrefix(id);
  }

  /** Anthropic's "display_name" is used when "displayName" is absent; other providers ignore it. */
  lemma DisplayNameFallback(id: string, display: string)
    ensures var item := JObject([("id", JString(id)), ("display_name", JString(display))]);
      && InfoOf(Anthropic, item).displayName == Some(display)
      && InfoOf(OpenAICompatible, item).displayName.None?
      && InfoOf(Anthropic, item).modelId == Some(id)
  {
    var item := JObject([("id", JString(id)), ("display_name", JString(display))]);
    LookupMissing(item.fields, "displayName");
    LookupFirst(item.fields, "display_name", 1);
  }

  /** The mock server's EMPTY_LIST reply, as parsed, gives a successful, empty listing. */
  lemma EmptyListSucceeds(provider: Provider, parse: Parser, req: MockServer.Request, t: Transfer)
    requires provider == OpenAICompatible || provider == Anthropic
    requires MockServer.Selector(req) == Some(MockServer.EmptyList)
    requires t.ok && t.httpStatus == MockServer.ListModels(req).Status()
    requires parse(UpToNul(t.body)) == Some(MockServer.ListModels(req).body.json)
    ensures ListingOf(provider, parse, t) == Listing(Some([]), None, 200)
  {
    var reply := MockServer.ListModels(req);
    assert reply.Status() == 200 && Get(reply.body.json, "data") == Some(JArray([]));
    assert BodyListing(provider, parse, t.body) == Listing(Some(InfosOf(provider, [])), None, 0);
  }

  /** The mock server's RATE_LIMIT_LIST_MODELS reply fails, keeping status 429. */
  lemma RateLimitListing(provider: Provider, parse: Parser, req: MockServer.Request, t: Transfer)
    requires !provider.OtherProvider?
    requires MockServer.Selector(req) == Some(MockServer.RateLimitListModels)
    requires t.ok && t.httpStatus == MockServer.ListModels(req).Status()
    ensures var l := ListingOf(provider, parse, t);
      && l.httpStatus == 429 && l.models.None?
      && l.error.Some? && StartsWith(l.error.value, "list_models HTTP error " + NatToString(l.httpStatus))
  {
    assert t.httpStatus == 429;
    HttpErrorListing(provider, parse, t);
    var head := "list_models HTTP error " + NatToString(t.httpStatus);
    assert (head + ". Body: ")[..|head|] == head;
  }
}

/**
 * src/dp_context.c: building the client context, with the base URL each
 * provider defaults to and the User-Agent the library sends. A NULL
 * argument is `None`.
 */
module Context {
  import opened Wrappers
  import opened Types
  import opened Text

  /** Which token-limit parameter the library tries first. */
  datatype TokenParam = MaxCompletionTokens | MaxTokens

  /** The library's own product token, "disasterparty/0.2.0". */
  const ProductToken := "disasterparty/" + Version

  /** The base URL of a provider from dp_constants.c; a value outside the enumeration has none. */
  function DefaultBaseUrl(provider: Provider): Option<string> {
    match provider
    case OpenAICompatible => Some(DefaultOpenAIBaseUrl)
    case GoogleGemini => Some(DefaultGeminiBaseUrl)
    case Anthropic => Some(DefaultAnthropicBaseUrl)
    case OtherProvider(_) => None
  }

  /** An explicit base URL is kept as given; otherwise the provider's default. */
  function BaseUrl(provider: Provider, given: Option<string>): Option<string> {
    if given.Some? then given else DefaultBaseUrl(provider)
  }

  /**
   * The User-Agent: "<name>/<version> (disasterparty/0.2.0)" when both are
   * given, "<name> (disasterparty/0.2.0)" with a name only, and the bare
   * product token without a name, whatever the version. Only `None` counts
   * as absent: empty strings are names and versions like any other.
   */
  function UserAgent(name: Option<string>, version: Option<string>): string {
    if name.Some? && version.Some? then name.value + "/" + version.value + " (" + ProductToken + ")"
    else if name.Some? then name.value + " (" + ProductToken + ")"
    else ProductToken
  }

  /** The fields of a dp_context_t. */
  datatype ContextData = ContextData(
    provider: Provider,
    apiKey: string,
    apiBaseUrl: string,
    userAgent: string,
    tokenParam: TokenParam)

  /**
   * dp_init_context_with_app_info on values: no context without an API key,
   * nor without a base URL (none given and no default for the provider).
   */
  function NewContext(provider: Provider, apiKey: Option<string>, baseUrl: Option<string>,
                      appName: Option<string>, appVersion: Option<string>): Option<ContextData> {
    if apiKey.None? then None
    else match BaseUrl(provider, baseUrl)
      case None => None
      case Some(url) => Some(ContextData(provider, apiKey.value, url, UserAgent(appName, appVersion), MaxCompletionTokens))
  }

  /**
   * Construction fails exactly when the API key is missing, or when no
   * base URL is given for a provider outside the enumeration.
   */
  lemma NewContextFails(provider: Provider, apiKey: Option<string>, baseUrl: Option<string>,
                        appName: Option<string>, appVersion: Option<string>)
    ensures NewContext(provider, apiKey, baseUrl, appName, appVersion).None? <==>
      apiKey.None? || (baseUrl.None? && provider.OtherProvider?)
  {
  }

  /**
   * A context that is built keeps the provider and a copy of the key, uses
   * the given base URL verbatim or else the provider's default, and starts
   * out preferring max_completion_tokens.
   */
  lemma NewContextFields(provider: Provider, apiKey: Option<string>, baseUrl: Option<string>,
                         appName: Option<string>, appVersion: Option<string>)
    requires NewContext(provider, apiKey, baseUrl, appName, appVersion).Some?
    ensures var c := NewContext(provider, apiKey, baseUrl, appName, appVersion).value;
      && c.provider == provider && Some(c.apiKey) == apiKey
      && (baseUrl.Some? ==> c.apiBaseUrl == baseUrl.value)
      && (baseUrl.None? && provider == OpenAICompatible ==> c.apiBaseUrl == "https://api.openai.com/v1")
      && (baseUrl.None? && provider == GoogleGemini ==> c.apiBaseUrl == "https://generativelanguage.googleapis.com/v1beta")
      && (baseUrl.None? && provider == Anthropic ==> c.apiBaseUrl == "https://api.anthropic.com/v1")
      && c.userAgent == UserAgent(appName, appVersion)
      && c.tokenParam == MaxCompletionTokens
  {
  }

  /**
   * What the User-Agent is made of: it starts with the name when there is
   * one, then the version after a '/' when there is one too, and it ends
   * with the product token, in parentheses after a name. Without a name it
   * is the product token alone and the version does not appear.
   */
  lemma UserAgentParts(name: Option<string>, version: Option<string>)
    ensures var ua := UserAgent(name, version);
      && (name.Some? ==> StartsWith(ua, name.value) && OccursAt(ua, " (" + ProductToken + ")", |ua| - |ProductToken| - 3))
      && (name.Some? && version.Some? ==> OccursAt(ua, "/" + version.value, |name.value|))
      && (name.Some? && version.None? ==> |ua| == |name.value| + |ProductToken| + 3)
      && (name.None? ==> ua == ProductToken)
  {
    var ua := UserAgent(name, version);
    var tail := " (" + ProductToken + ")";
    if name.Some? && version.Some? {
      assert ua == name.value + ("/" + version.value) + tail;
      assert ua[..|name.value|] == name.value;
      assert ua[|name.value|..|name.value| + |version.value| + 1] == "/" + version.value;
      assert ua[|ua| - |tail|..] == tail;
    } else if name.Some? {
      assert ua == name.value + tail;
      assert ua[..|name.value|] == name.value;
      assert ua[|ua| - |tail|..] == tail;
    }
  }

  /** The cases of the user-agent test: a name and a version. */
  lemma UserAgentNameAndVersion()
    ensures UserAgent(Some("MyApp"), Some("1.2.3")) == "MyApp/1.2.3 (disasterparty/0.2.0)"
  {
    UserAgentWithBoth("MyApp", "1.2.3");
    assert "MyApp" + "/" + "1.2.3" == "MyApp/1.2.3";
  }

  /** With a name and a version: both, then the product token in parentheses. */
  lemma UserAgentWithBoth(name: string, version: string)
    ensures UserAgent(Some(name), Some(version)) == name + "/" + version + " (disasterparty/0.2.0)"
  {
    ProductTail();
    assert name + "/" + version + " (" + ProductToken + ")" == (name + "/" + version) + (" (" + ProductToken + ")");
  }

  /** The product token as it appears after a name. */
  lemma ProductTail()
    ensures " (" + ProductToken + ")" == " (disasterparty/0.2.0)"
  {
    assert ProductToken == "disasterparty/0.2.0";
  }

  /** A version without a name does not appear. */
  lemma UserAgentVersionOnly()
    ensures UserAgent(None, Some("1.0.0")) == "disasterparty/0.2.0"
  {
    assert ProductToken == "disasterparty/0.2.0";
  }

  /** Empty strings are not treated as missing. */
  lemma UserAgentEmptyStrings()
    ensures UserAgent(Some(""), Some("")) == "/ (disasterparty/0.2.0)"
  {
    UserAgentWithBoth("", "");
    assert "" + "/" + "" == "/";
  }

  /** dp_context_t. */
  class Context {
    var provider: Provider
    var apiKey: string
    var apiBaseUrl: string
    var userAgent: string
    var tokenParam: TokenParam

    constructor (provider: Provider, apiKey: string, apiBaseUrl: string, userAgent: string)
      ensures Data() == ContextData(provider, apiKey, apiBaseUrl, userAgent, MaxCompletionTokens)
    {
      this.provider := provider;
      this.apiKey := apiKey;
      this.apiBaseUrl := apiBaseUrl;
      this.userAgent := userAgent;
      this.tokenParam := MaxCompletionTokens;
    }

    function Data(): ContextData
      reads this
    {
      ContextData(provider, apiKey, apiBaseUrl, userAgent, tokenParam)
    }
  }

  /**
   * dp_init_context_with_app_info: refuses a NULL key, picks the base URL,
   * assembles the User-Agent, and refuses a context left without a base URL.
   */
  method InitContextWithAppInfo(provider: Provider, apiKey: Option<string>, baseUrl: Option<string>,
                                appName: Option<string>, appVersion: Option<string>) returns (context: Context?)
    ensures context == null <==> NewContext(provider, apiKey, baseUrl, appName, appVersion).None?
    ensures context != null ==> fresh(context) && context.Data() == NewContext(provider, apiKey, baseUrl, appName, appVersion).value
  {
    if apiKey.None? {
      return null;
    }
    var url: Option<string>;
    if baseUrl.Some? {
      url := baseUrl;
    } else {
      match provider
      case OpenAICompatible => url := Some(DefaultOpenAIBaseUrl);
      case GoogleGemini => url := Some(DefaultGeminiBaseUrl);
      case Anthropic => url := Some(DefaultAnthropicBaseUrl);
      case OtherProvider(_) => url := None;
    }
    var agent: string;
    if appName.Some? && appVersion.Some? {
      agent := appName.value + "/" + appVersion.value + " (" + ProductToken + ")";
    } else if appName.Some? {
      agent := appName.value + " (" + ProductToken + ")";
    } else {
      agent := ProductToken;
    }
    if url.None? {
      return null;
    }
    context := new Context(provider, apiKey.value, url.value, agent);
  }

  /** dp_init_context: the same with no application name and no version. */
  method InitContext(provider: Provider, apiKey: Option<string>, baseUrl: Option<string>) returns (context: Context?)
    ensures context == null <==> NewContext(provider, apiKey, baseUrl, None, None).None?
    ensures context != null ==> fresh(context) && context.Data() == NewContext(provider, apiKey, baseUrl, None, None).value
    ensures context != null ==> context.userAgent == "disasterparty/0.2.0"
  {
    assert ProductToken == "disasterparty/0.2.0";
    context := InitContextWithAppInfo(provider, apiKey, baseUrl, None, None);
  }
}

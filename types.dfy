/**
 * The library's public datatypes (disasterparty.h) as the split sources use
 * them, and its constants (dp_constants.c).
 */
module Types {
  import opened Wrappers

  const Version := "0.2.0"
  const DefaultOpenAIBaseUrl := "https://api.openai.com/v1"
  const DefaultGeminiBaseUrl := "https://generativelanguage.googleapis.com/v1beta"
  const DefaultAnthropicBaseUrl := "https://api.anthropic.com/v1"

  /** dp_provider_type_t; `OtherProvider` is any value cast from outside the enumeration. */
  datatype Provider = OpenAICompatible | GoogleGemini | Anthropic | OtherProvider(code: int)

  /** dp_message_role_t; the zero of calloc is System. */
  datatype Role = System | User | Assistant | Tool

  /** dp_content_part_type_t, with the two kinds the later sources added. */
  datatype PartType = TextType | ImageUrlType | ImageBase64Type | FileDataType | FileReferenceType

  /** dp_content_part_t: one tagged content part with the strings its kind owns. */
  datatype ContentPart =
    | TextPart(text: string)
    | ImageUrlPart(url: string)
    | ImageBase64Part(mimeType: string, data: string)
    | FileDataPart(mimeType: string, data: string, filename: Option<string>)
    | FileReferencePart(fileId: string, mimeType: string)
  {
    function Kind(): PartType {
      match this
      case TextPart(_) => TextType
      case ImageUrlPart(_) => ImageUrlType
      case ImageBase64Part(_, _) => ImageBase64Type
      case FileDataPart(_, _, _) => FileDataType
      case FileReferencePart(_, _) => FileReferenceType
    }
  }

  /** The value of a dp_message_t: its role and its parts in order. */
  datatype MessageData = MessageData(role: Role, parts: seq<ContentPart>)

  /**
   * dp_request_config_t. Floating-point fields are reals (only their
   * threshold comparisons matter); a NULL stop-sequence array is the empty
   * sequence, since the builders treat NULL and a count of 0 alike.
   */
  datatype RequestConfig = RequestConfig(
    model: string,
    messages: seq<MessageData>,
    systemPrompt: Option<string>,
    temperature: real,
    maxTokens: int,
    stream: bool,
    topP: real,
    topK: int,
    stopSequences: seq<string>)

  /** The result of the network exchange, which this model takes as input. */
  datatype Transfer = Transfer(ok: bool, curlError: string, httpStatus: nat, body: string)

  /**
   * dp_response_t: the text parts of a completion, the error message, the
   * HTTP status and the finish reason.
   */
  datatype Response = Response(parts: seq<string>, error: Option<string>, httpStatus: nat, finish: Option<string>)

  /** The zeroed response the perform functions start from (memset to 0). */
  const EmptyResponse := Response([], None, 0, None)

  predicate IsSuccessStatus(status: nat) {
    200 <= status < 300
  }
}

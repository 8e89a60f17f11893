/**
 * src/dp_message.c: a message's growable list of tagged content parts.
 * A part is appended only when every string its kind needs is given
 * (NULL is `None`); on failure the list is left as it was.
 */
module Message {
  import opened Wrappers
  import opened Types

  /** The string arguments of dpinternal_message_add_part_internal; None is NULL. */
  datatype PartArgs = PartArgs(
    text: Option<string>,
    imageUrl: Option<string>,
    mimeType: Option<string>,
    data: Option<string>,
    filename: Option<string>)

  /**
   * The strings a kind of part needs: text for TEXT, a URL for IMAGE_URL,
   * a MIME type and data for IMAGE_BASE64 and FILE_DATA; every other kind
   * is refused.
   */
  predicate HasRequiredFields(kind: PartType, args: PartArgs) {
    match kind
    case TextType => args.text.Some?
    case ImageUrlType => args.imageUrl.Some?
    case ImageBase64Type => args.mimeType.Some? && args.data.Some?
    case FileDataType => args.mimeType.Some? && args.data.Some?
    case FileReferenceType => false
  }

  /** The part the if/else chain of the add builds, when it builds one. */
  function NewPart(kind: PartType, args: PartArgs): (r: Option<ContentPart>)
    ensures r.Some? <==> HasRequiredFields(kind, args)
    ensures r.Some? ==> r.value.Kind() == kind
  {
    if kind == TextType && args.text.Some? then Some(TextPart(args.text.value))
    else if kind == ImageUrlType && args.imageUrl.Some? then Some(ImageUrlPart(args.imageUrl.value))
    else if kind == ImageBase64Type && args.mimeType.Some? && args.data.Some? then
      Some(ImageBase64Part(args.mimeType.value, args.data.value))
    else if kind == FileDataType && args.mimeType.Some? && args.data.Some? then
      Some(FileDataPart(args.mimeType.value, args.data.value, args.filename))
    else None
  }

  /** The arguments that name the strings of a part: its inverse of `NewPart`. */
  function ArgsOf(p: ContentPart): PartArgs {
    match p
    case TextPart(t) => PartArgs(Some(t), None, None, None, None)
    case ImageUrlPart(u) => PartArgs(None, Some(u), None, None, None)
    case ImageBase64Part(m, d) => PartArgs(None, None, Some(m), Some(d), None)
    case FileDataPart(m, d, f) => PartArgs(None, None, Some(m), Some(d), f)
    case FileReferencePart(_, m) => PartArgs(None, None, Some(m), None, None)
  }

  /**
   * A part that is built holds copies of exactly the strings its kind
   * uses (a FILE_DATA filename is carried over, NULL included), and every
   * part but a file reference is what its own strings build.
   */
  lemma NewPartCopiesArguments(kind: PartType, args: PartArgs)
    ensures NewPart(kind, args).Some? && kind == TextType ==> ArgsOf(NewPart(kind, args).value).text == args.text
    ensures NewPart(kind, args).Some? && kind == ImageUrlType ==> ArgsOf(NewPart(kind, args).value).imageUrl == args.imageUrl
    ensures NewPart(kind, args).Some? && kind in {ImageBase64Type, FileDataType} ==>
      ArgsOf(NewPart(kind, args).value).mimeType == args.mimeType && ArgsOf(NewPart(kind, args).value).data == args.data
    ensures NewPart(kind, args).Some? && kind == FileDataType ==> ArgsOf(NewPart(kind, args).value).filename == args.filename
    ensures forall p: ContentPart :: !p.FileReferencePart? ==> NewPart(p.Kind(), ArgsOf(p)) == Some(p)
  {
  }

  /**
   * The add on the value of the part list: whether it succeeded and the
   * new list, which on success is the old one with the new part appended
   * and otherwise the old one.
   */
  function AddPart(parts: seq<ContentPart>, kind: PartType, args: PartArgs): (r: (bool, seq<ContentPart>))
    ensures r.0 <==> HasRequiredFields(kind, args)
    ensures r.0 ==> |r.1| == |parts| + 1 && r.1[..|parts|] == parts && r.1[|parts|].Kind() == kind
    ensures !r.0 ==> r.1 == parts
  {
    match NewPart(kind, args)
    case Some(p) =>
      assert (parts + [p])[..|parts|] == parts;
      (true, parts + [p])
    case None => (false, parts)
  }

  /** One add request: the kind and the strings. */
  type PartRequest = (PartType, PartArgs)

  /** A run of adds, one after another, starting from `parts`. */
  function AddAll(parts: seq<ContentPart>, requests: seq<PartRequest>): seq<ContentPart> {
    if |requests| == 0 then parts
    else
      var last := requests[|requests| - 1];
      AddPart(AddAll(parts, requests[..|requests| - 1]), last.0, last.1).1
  }

  /** The parts the accepted requests of a run build, in request order. */
  function Accepted(requests: seq<PartRequest>): seq<ContentPart> {
    if |requests| == 0 then []
    else
      var last := requests[|requests| - 1];
      Accepted(requests[..|requests| - 1]) + (match NewPart(last.0, last.1) case Some(p) => [p] case None => [])
  }

  /**
   * Successive adds keep insertion order: after a run of adds the list is
   * the old one followed by the accepted parts, in the order requested, and
   * the refused requests leave no trace.
   */
  lemma {:induction false} AddAllAppendsAccepted(parts: seq<ContentPart>, requests: seq<PartRequest>)
    ensures AddAll(parts, requests) == parts + Accepted(requests)
    decreases |requests|
  {
    if |requests| > 0 {
      var init := requests[..|requests| - 1];
      AddAllAppendsAccepted(parts, init);
      var last := requests[|requests| - 1];
      match NewPart(last.0, last.1)
      case Some(p) =>
        assert AddAll(parts, requests) == (parts + Accepted(init)) + [p];
      case None =>
    }
  }

  /** dp_message_t: a role and the parts array with its count. */
  class Message {
    var role: Role
    var parts: seq<ContentPart>

    /** A zeroed message, as calloc leaves it: role SYSTEM and no parts. */
    constructor ()
      ensures role == System && parts == []
    {
      role := System;
      parts := [];
    }

    function Data(): MessageData
      reads this
    {
      MessageData(role, parts)
    }
  }

  /**
   * dpinternal_message_add_part_internal: refuses a NULL message, builds
   * the part the kind and strings call for, and appends it only when it
   * was built; the role is never touched.
   */
  method AddPartInternal(message: Message?, kind: PartType, args: PartArgs) returns (ok: bool)
    modifies message
    ensures message == null ==> !ok
    ensures message != null ==> (ok, message.parts) == AddPart(old(message.parts), kind, args)
    ensures message != null ==> message.role == old(message.role)
  {
    if message == null {
      return false;
    }
    var part: ContentPart := TextPart("");
    ok := false;
    if kind == TextType && args.text.Some? {
      part, ok := TextPart(args.text.value), true;
    } else if kind == ImageUrlType && args.imageUrl.Some? {
      part, ok := ImageUrlPart(args.imageUrl.value), true;
    } else if kind == ImageBase64Type && args.mimeType.Some? && args.data.Some? {
      part, ok := ImageBase64Part(args.mimeType.value, args.data.value), true;
    } else if kind == FileDataType && args.mimeType.Some? && args.data.Some? {
      part, ok := FileDataPart(args.mimeType.value, args.data.value, args.filename), true;
    }
    if ok {
      message.parts := message.parts + [part];
    }
  }

  method AddTextPart(message: Message?, text: Option<string>) returns (ok: bool)
    modifies message
    ensures ok <==> message != null && text.Some?
    ensures message != null ==>
      message.parts == old(message.parts) + (if ok then [TextPart(text.value)] else []) && message.role == old(message.role)
  {
    ok := AddPartInternal(message, TextType, PartArgs(text, None, None, None, None));
  }

  method AddImageUrlPart(message: Message?, url: Option<string>) returns (ok: bool)
    modifies message
    ensures ok <==> message != null && url.Some?
    ensures message != null ==>
      message.parts == old(message.parts) + (if ok then [ImageUrlPart(url.value)] else []) && message.role == old(message.role)
  {
    ok := AddPartInternal(message, ImageUrlType, PartArgs(None, url, None, None, None));
  }

  method AddBase64ImagePart(message: Message?, mimeType: Option<string>, data: Option<string>) returns (ok: bool)
    modifies message
    ensures ok <==> message != null && mimeType.Some? && data.Some?
    ensures message != null ==>
      message.parts == old(message.parts) + (if ok then [ImageBase64Part(mimeType.value, data.value)] else [])
      && message.role == old(message.role)
  {
    ok := AddPartInternal(message, ImageBase64Type, PartArgs(None, None, mimeType, data, None));
  }

  method AddFileDataPart(message: Message?, mimeType: Option<string>, data: Option<string>, filename: Option<string>)
    returns (ok: bool)
    modifies message
    ensures ok <==> message != null && mimeType.Some? && data.Some?
    ensures message != null ==>
      message.parts == old(message.parts) + (if ok then [FileDataPart(mimeType.value, data.value, filename)] else [])
      && message.role == old(message.role)
  {
    ok := AddPartInternal(message, FileDataType, PartArgs(None, None, mimeType, data, filename));
  }

  /**
   * dp_message_add_file_reference_part, as the deserialiser relies on it:
   * appends a file reference when both strings are given. Its definition
   * is not part of this model.
   */
  method AddFileReferencePart(message: Message?, fileId: Option<string>, mimeType: Option<string>) returns (ok: bool)
    modifies message
    ensures ok <==> message != null && fileId.Some? && mimeType.Some?
    ensures message != null ==>
      message.parts == old(message.parts) + (if ok then [FileReferencePart(fileId.value, mimeType.value)] else [])
      && message.role == old(message.role)
  {
    if message == null || fileId.None? || mimeType.None? {
      return false;
    }
    message.parts := message.parts + [FileReferencePart(fileId.value, mimeType.value)];
    ok := true;
  }

  /**
   * dp_free_messages: a NULL array is left alone; otherwise every one of
   * the first `count` messages ends with no parts and its role unchanged.
   */
  method FreeMessages(messages: array?<Message>, count: nat)
    requires messages != null ==> count <= messages.Length
    modifies if messages == null then {} else set i | 0 <= i < count :: messages[i]
    ensures messages != null ==> forall i :: 0 <= i < count ==> messages[i].parts == [] && messages[i].role == old(messages[i].role)
  {
    if messages == null {
      return;
    }
    var i := 0;
    while i < count
      invariant 0 <= i <= count
      invariant forall k :: 0 <= k < i ==> messages[k].parts == []
      invariant forall k :: 0 <= k < count ==> messages[k].role == old(messages[k].role)
    {
      if messages[i].parts != [] {
        messages[i].parts := [];
      }
      i := i + 1;
    }
  }
}

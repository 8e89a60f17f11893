/**
 * src/dp_serialize.c at the level of JSON trees: messages become an array
 * of {"role", "parts"} objects and back. Printing the tree and parsing
 * the text are cJSON's and are not modelled; the parse is a `Parser`.
 */
module Serialize {
  import opened Wrappers
  import opened Json
  import opened Types
  import opened Message

  /** The role names; the switch covers every role. */
  function RoleName(role: Role): string {
    match role
    case System => "system"
    case User => "user"
    case Assistant => "assistant"
    case Tool => "tool"
  }

  /** The role a name reads back as: any name but the other three is USER. */
  function RoleFromName(s: string): (role: Role)
    ensures s != "system" && s != "assistant" && s != "tool" ==> role == User
  {
    if s == "system" then System
    else if s == "assistant" then Assistant
    else if s == "tool" then Tool
    else User
  }

  /**
   * The two maps are inverse: every role reads back as itself, and a name
   * reads as a role other than USER only when it is that role's name.
   */
  lemma RoleNamesInverse(role: Role, s: string)
    ensures RoleFromName(RoleName(role)) == role
    ensures RoleFromName(s) != User ==> RoleName(RoleFromName(s)) == s
  {
  }

  /** The "type" tag of each kind of part. */
  function TypeTag(kind: PartType): string {
    match kind
    case TextType => "text"
    case ImageUrlType => "image_url"
    case ImageBase64Type => "image_base64"
    case FileDataType => "file_data"
    case FileReferenceType => "file_reference"
  }

  /** The object a part becomes; a FILE_DATA filename only when there is one. */
  function PartToJson(p: ContentPart): Json {
    match p
    case TextPart(t) => JObject([("type", JString("text")), ("text", JString(t))])
    case ImageUrlPart(u) => JObject([("type", JString("image_url")), ("url", JString(u))])
    case ImageBase64Part(m, d) =>
      JObject([("type", JString("image_base64")), ("mime_type", JString(m)), ("data", JString(d))])
    case FileDataPart(m, d, f) =>
      JObject([("type", JString("file_data")), ("mime_type", JString(m)), ("data", JString(d))]
        + (if f.Some? then [("filename", JString(f.value))] else []))
    case FileReferencePart(id, m) =>
      JObject([("type", JString("file_reference")), ("file_id", JString(id)), ("mime_type", JString(m))])
  }

  /**
   * The part an object reads back as: by its string "type", when the
   * strings that type needs are present; otherwise the object is dropped.
   */
  function PartFromJson(j: Json): Option<ContentPart> {
    match GetString(j, "type")
    case None => None
    case Some(t) =>
      var mime := GetString(j, "mime_type");
      var data := GetString(j, "data");
      if t == "text" then
        (match GetString(j, "text") case Some(x) => Some(TextPart(x)) case None => None)
      else if t == "image_url" then
        (match GetString(j, "url") case Some(u) => Some(ImageUrlPart(u)) case None => None)
      else if t == "image_base64" then
        if mime.Some? && data.Some? then Some(ImageBase64Part(mime.value, data.value)) else None
      else if t == "file_data" then
        if mime.Some? && data.Some? then Some(FileDataPart(mime.value, data.value, GetString(j, "filename"))) else None
      else if t == "file_reference" then
        var id := GetString(j, "file_id");
        if id.Some? && mime.Some? then Some(FileReferencePart(id.value, mime.value)) else None
      else None
  }

  /** Every part reads back as itself, filename presence included. */
  lemma PartRoundTrip(p: ContentPart)
    ensures PartFromJson(PartToJson(p)) == Some(p)
  {
    var j := PartToJson(p);
    LookupFirst(j.fields, "type", 0);
    match p
    case TextPart(_) =>
      LookupFirst(j.fields, "text", 1);
    case ImageUrlPart(_) =>
      LookupFirst(j.fields, "url", 1);
    case ImageBase64Part(_, _) =>
      LookupFirst(j.fields, "mime_type", 1);
      LookupFirst(j.fields, "data", 2);
    case FileDataPart(m, d, f) =>
      FileDataRoundTrip(m, d, f);
    case FileReferencePart(_, _) =>
      LookupFirst(j.fields, "file_id", 1);
      LookupFirst(j.fields, "mime_type", 2);
  }

  lemma FileDataRoundTrip(mime: string, data: string, filename: Option<string>)
    ensures PartFromJson(PartToJson(FileDataPart(mime, data, filename))) == Some(FileDataPart(mime, data, filename))
  {
    var j := PartToJson(FileDataPart(mime, data, filename));
    LookupFirst(j.fields, "type", 0);
    LookupFirst(j.fields, "mime_type", 1);
    LookupFirst(j.fields, "data", 2);
    if filename.Some? {
      LookupFirst(j.fields, "filename", 3);
    } else {
      LookupMissing(j.fields, "filename");
    }
  }

  function PartsToJson(parts: seq<ContentPart>): seq<Json> {
    seq(|parts|, i requires 0 <= i < |parts| => PartToJson(parts[i]))
  }

  /** The parts an array reads back as, in order, with the unreadable ones dropped. */
  function PartsFromJson(items: seq<Json>): (r: seq<ContentPart>)
    ensures |r| <= |items|
  {
    if |items| == 0 then []
    else
      PartsFromJson(items[..|items| - 1])
        + (match PartFromJson(items[|items| - 1]) case Some(p) => [p] case None => [])
  }

  /** An object that does not read as a part leaves the parts read so far as they are. */
  lemma {:induction false} PartsFromJsonDrops(items: seq<Json>, x: Json)
    ensures PartFromJson(x).None? ==> PartsFromJson(items + [x]) == PartsFromJson(items)
    ensures PartFromJson(x).Some? ==> PartsFromJson(items + [x]) == PartsFromJson(items) + [PartFromJson(x).value]
  {
    assert (items + [x])[..|items|] == items;
  }

  lemma {:induction false} PartsRoundTrip(parts: seq<ContentPart>)
    ensures PartsFromJson(PartsToJson(parts)) == parts
    decreases |parts|
  {
    if |parts| > 0 {
      var n := |parts| - 1;
      assert PartsToJson(parts)[..n] == PartsToJson(parts[..n]);
      PartsRoundTrip(parts[..n]);
      PartRoundTrip(parts[n]);
      assert parts == parts[..n] + [parts[n]];
    }
  }

  function MessageToJson(m: MessageData): Json {
    JObject([("role", JString(RoleName(m.role))), ("parts", JArray(PartsToJson(m.parts)))])
  }

  /**
   * The message an element reads back as: a string "role" by name, else
   * the zeroed role SYSTEM; the parts of a "parts" array, else none.
   */
  function MessageFromJson(j: Json): MessageData {
    var role := match GetString(j, "role") case Some(s) => RoleFromName(s) case None => System;
    var parts := match Get(j, "parts") case Some(JArray(items)) => PartsFromJson(items) case _ => [];
    MessageData(role, parts)
  }

  /**
   * An element without a string "role" keeps the zeroed role, SYSTEM; one
   * without a "parts" array has no parts.
   */
  lemma UnnamedRoleIsSystem(j: Json)
    ensures GetString(j, "role").None? ==> MessageFromJson(j).role == System
    ensures (Get(j, "parts").None? || !Get(j, "parts").value.JArray?) ==> MessageFromJson(j).parts == []
  {
  }

  lemma MessageRoundTrip(m: MessageData)
    ensures MessageFromJson(MessageToJson(m)) == m
  {
    var fields := MessageToJson(m).fields;
    LookupFirst(fields, "role", 0);
    LookupFirst(fields, "parts", 1);
    RoleNamesInverse(m.role, "");
    PartsRoundTrip(m.parts);
  }

  /** The tree dp_serialize_messages_to_json_str prints. */
  function SerializeTree(messages: seq<MessageData>): Json {
    JArray(seq(|messages|, i requires 0 <= i < |messages| => MessageToJson(messages[i])))
  }

  /**
   * The messages dp_deserialize_messages_from_json_str reads from a
   * parsed tree: one per element of an array root; any other root fails.
   */
  function DeserializeTree(root: Json): (r: Option<seq<MessageData>>)
    ensures r.Some? <==> root.JArray?
    ensures r.Some? ==> |r.value| == |root.items|
  {
    if root.JArray? then Some(seq(|root.items|, i requires 0 <= i < |root.items| => MessageFromJson(root.items[i])))
    else None
  }

  /**
   * The round trip: every conversation reads back as itself, in count,
   * roles, part kinds, strings and filename presence.
   */
  lemma SerializeRoundTrip(messages: seq<MessageData>)
    ensures DeserializeTree(SerializeTree(messages)) == Some(messages)
  {
    var r := DeserializeTree(SerializeTree(messages)).value;
    forall i | 0 <= i < |messages| ensures r[i] == messages[i] {
      MessageRoundTrip(messages[i]);
    }
    assert r == messages;
  }

  /** The values of the first `count` messages of an array. */
  ghost function Snapshot(messages: array<Message>, count: nat): (r: seq<MessageData>)
    requires count <= messages.Length
    reads messages, set i | 0 <= i < count :: messages[i]
    ensures |r| == count && forall i :: 0 <= i < count ==> r[i] == messages[i].Data()
    decreases count
  {
    if count == 0 then [] else Snapshot(messages, count - 1) + [messages[count - 1].Data()]
  }

  /**
   * dp_serialize_messages_to_json_str: a NULL array or output argument
   * fails; otherwise the tree of the messages is produced.
   */
  method SerializeMessages(messages: array?<Message>, count: nat, outGiven: bool) returns (code: int, tree: Option<Json>)
    requires messages != null ==> count <= messages.Length
    ensures messages == null || !outGiven ==> code == -1 && tree.None?
    ensures messages != null && outGiven ==> code == 0 && tree == Some(SerializeTree(Snapshot(messages, count)))
  {
    if messages == null || !outGiven {
      return -1, None;
    }
    var items: seq<Json> := [];
    var i := 0;
    while i < count
      invariant 0 <= i <= count && |items| == i
      invariant forall k :: 0 <= k < i ==> items[k] == MessageToJson(messages[k].Data())
    {
      var obj := SerializeMessage(messages[i]);
      items := items + [obj];
      i := i + 1;
    }
    ghost var snapshot := Snapshot(messages, count);
    assert items == SerializeTree(snapshot).items;
    code, tree := 0, Some(JArray(items));
  }

  /** One message: its role name and its parts appended one by one. */
  method SerializeMessage(message: Message) returns (obj: Json)
    ensures obj == MessageToJson(message.Data())
  {
    var parts: seq<Json> := [];
    var j := 0;
    while j < |message.parts|
      invariant 0 <= j <= |message.parts| && |parts| == j
      invariant forall k :: 0 <= k < j ==> parts[k] == PartToJson(message.parts[k])
    {
      parts := parts + [PartToJson(message.parts[j])];
      j := j + 1;
    }
    assert parts == PartsToJson(message.parts);
    obj := JObject([("role", JString(RoleName(message.role))), ("parts", JArray(parts))]);
  }

  /**
   * dp_deserialize_messages_from_json_str: a NULL text or output argument,
   * text that does not parse, or a root that is not an array fails and
   * writes no output; otherwise a fresh array of one message per element.
   */
  method DeserializeMessages(parse: Parser, text: Option<string>, outGiven: bool)
    returns (code: int, written: Option<array<Message>>)
    ensures code == (if written.Some? then 0 else -1)
    ensures written.Some? <==> text.Some? && outGiven && parse(text.value).Some? && parse(text.value).value.JArray?
    ensures written.Some? ==> fresh(written.value)
    ensures written.Some? ==> Snapshot(written.value, written.value.Length) == DeserializeTree(parse(text.value).value).value
  {
    if text.None? || !outGiven {
      return -1, None;
    }
    var root := parse(text.value);
    if root.None? || !root.value.JArray? {
      return -1, None;
    }
    var items := root.value.items;
    var zeroed := new Message();
    var msgArray := new Message[|items|](_ => zeroed);
    var idx := 0;
    while idx < |items|
      invariant 0 <= idx <= |items|
      invariant forall k :: 0 <= k < idx ==> msgArray[k].Data() == MessageFromJson(items[k])
    {
      var current := BuildMessage(items[idx]);
      msgArray[idx] := current;
      idx := idx + 1;
    }
    code, written := 0, Some(msgArray);
  }

  /** The loop body for one element: role by name, then each readable part added in turn. */
  method BuildMessage(obj: Json) returns (message: Message)
    ensures fresh(message) && message.Data() == MessageFromJson(obj)
  {
    message := new Message();
    var role := GetString(obj, "role");
    if role.Some? {
      message.role := RoleFromName(role.value);
    }
    var partsArray := Get(obj, "parts");
    if partsArray.Some? && partsArray.value.JArray? {
      var items := partsArray.value.items;
      var j := 0;
      while j < |items|
        invariant 0 <= j <= |items|
        invariant message.role == MessageFromJson(obj).role
        invariant message.parts == PartsFromJson(items[..j])
      {
        AddPartFromJson(message, items[j]);
        assert items[..j + 1][..j] == items[..j];
        j := j + 1;
      }
      assert items[..j] == items;
    }
  }

  /** The dispatch on "type" that calls the matching dp_message_add_* function. */
  method AddPartFromJson(message: Message, obj: Json)
    modifies message
    ensures message.role == old(message.role)
    ensures message.parts == old(message.parts) + match PartFromJson(obj) case Some(p) => [p] case None => []
  {
    var tag := GetString(obj, "type");
    if tag.None? {
      return;
    }
    var mime := GetString(obj, "mime_type");
    var data := GetString(obj, "data");
    if tag.value == "text" {
      var text := GetString(obj, "text");
      if text.Some? {
        var added := AddTextPart(message, text);
      }
    } else if tag.value == "image_url" {
      var url := GetString(obj, "url");
      if url.Some? {
        var added := AddImageUrlPart(message, url);
      }
    } else if tag.value == "image_base64" {
      if mime.Some? && data.Some? {
        var added := AddBase64ImagePart(message, mime, data);
      }
    } else if tag.value == "file_data" {
      if mime.Some? && data.Some? {
        var added := AddFileDataPart(message, mime, data, GetString(obj, "filename"));
      }
    } else if tag.value == "file_reference" {
      var fileId := GetString(obj, "file_id");
      if fileId.Some? && mime.Some? {
        var added := AddFileReferencePart(message, fileId, mime);
      }
    }
  }
}

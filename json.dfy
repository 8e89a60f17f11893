/**
 * The JSON trees the library builds and reads through cJSON. Parsing and
 * printing text are not modelled: every place the C code calls cJSON_Parse
 * receives the parse as a function value (see `Parser`).
 */
module Json {
  import opened Wrappers

  datatype Json =
    | JNull
    | JBool(b: bool)
    | JNumber(n: real)
    | JString(s: string)
    | JArray(items: seq<Json>)
    | JObject(fields: seq<(string, Json)>)

  /** cJSON_Parse: None stands for a NULL result (text that does not parse). */
  type Parser = string -> Option<Json>

  /** First field named `key` in `fields` (cJSON keeps duplicates in order). */
  function Lookup(fields: seq<(string, Json)>, key: string): Option<Json> {
    if |fields| == 0 then None
    else if fields[0].0 == key then Some(fields[0].1)
    else Lookup(fields[1..], key)
  }

  /** A key is found exactly when some member has it, and what is found is that member's value. */
  lemma {:induction false} LookupFinds(fields: seq<(string, Json)>, key: string)
    ensures Lookup(fields, key).Some? <==> exists i :: 0 <= i < |fields| && fields[i].0 == key
    ensures Lookup(fields, key).Some? ==> exists i :: 0 <= i < |fields| && fields[i] == (key, Lookup(fields, key).value)
    decreases |fields|
  {
    if |fields| > 0 && fields[0].0 != key {
      LookupFinds(fields[1..], key);
      assert forall i :: 0 <= i < |fields| - 1 ==> fields[1..][i] == fields[i + 1];
      if Lookup(fields, key).Some? {
        var i :| 0 <= i < |fields| - 1 && fields[1..][i] == (key, Lookup(fields, key).value);
        assert fields[i + 1] == (key, Lookup(fields, key).value);
      }
    }
  }

  /** The member found is the first one with the key, wherever it stands. */
  lemma {:induction false} LookupFirst(fields: seq<(string, Json)>, key: string, i: nat)
    requires i < |fields| && fields[i].0 == key
    requires forall j :: 0 <= j < i ==> fields[j].0 != key
    ensures Lookup(fields, key) == Some(fields[i].1)
    decreases i
  {
    if i > 0 {
      LookupFirst(fields[1..], key, i - 1);
    }
  }

  /** No member has the key: nothing is found. */
  lemma {:induction false} LookupMissing(fields: seq<(string, Json)>, key: string)
    requires forall i :: 0 <= i < |fields| ==> fields[i].0 != key
    ensures Lookup(fields, key).None?
    decreases |fields|
  {
    if |fields| > 0 {
      LookupMissing(fields[1..], key);
    }
  }

  /** Looking a key up in two runs of members: the first run wins, the second is searched only after it. */
  lemma {:induction false} LookupAppend(a: seq<(string, Json)>, b: seq<(string, Json)>, key: string)
    ensures Lookup(a + b, key) == if Lookup(a, key).Some? then Lookup(a, key) else Lookup(b, key)
    decreases |a|
  {
    if |a| > 0 {
      assert (a + b)[0] == a[0];
      assert (a + b)[1..] == a[1..] + b;
      LookupAppend(a[1..], b, key);
    } else {
      assert a + b == b;
    }
  }

  /**
   * cJSON_GetObjectItemCaseSensitive: only members of an object have keys, so
   * any other node (including an array) yields None.
   */
  function Get(j: Json, key: string): Option<Json> {
    if j.JObject? then Lookup(j.fields, key) else None
  }

  /** `Get` followed by cJSON_IsString. */
  function GetString(j: Json, key: string): Option<string> {
    match Get(j, key)
    case Some(JString(s)) => Some(s)
    case _ => None
  }

  /** True when `Get(j, key)` finds something (the C tests `if (item)`). */
  predicate Has(j: Json, key: string) {
    Get(j, key).Some?
  }

  /** The first element of an array that cJSON_IsArray accepts with size > 0. */
  function FirstItem(j: Option<Json>): Option<Json> {
    if j.Some? && j.value.JArray? && |j.value.items| > 0 then Some(j.value.items[0]) else None
  }
}

/**
 * `org.apache.hadoop.util.HttpExceptionUtils`: the one-line message of an
 * exception and the JSON error body `{"RemoteException": {...}}` that the
 * Jersey and the servlet variants send back.
 */
module HttpExceptions {
  import opened Wrappers
  import opened JavaLang

  /**
   * Lines 33-43 with the line separator `enter` as a parameter: the message
   * up to its first line separator, or the whole message when it has none.
   */
  function GetOneLineMessage(message: Option<string>, enter: string): (r: Option<string>)
    ensures r.None? <==> message.None?
    ensures message.Some? ==> StartsWith(message.value, r.value)
    ensures message.Some? && !Contains(message.value, enter) ==> r == message
    ensures message.Some? && Contains(message.value, enter) ==>
      OccursAt(message.value, enter, |r.value|) &&
      forall k :: 0 <= k < |r.value| ==> !OccursAt(message.value, enter, k)
  {
    if message.None? then None
    else
      var i := IndexOf(message.value, enter);
      if i > -1 then Some(message.value[..i]) else message
  }

  /** A non-empty separator never occurs in the one-line message. */
  lemma OneLineHasNoSeparator(message: string, enter: string)
    requires enter != ""
    ensures !Contains(GetOneLineMessage(Some(message), enter).value, enter)
  {
    var r := GetOneLineMessage(Some(message), enter).value;
    assert r == message[..|r|];
    forall k | 0 <= k <= |r|
      ensures !OccursAt(r, enter, k)
    {
      if k + |enter| <= |r| {
        assert k < |r| && r[k..k + |enter|] == message[k..k + |enter|];
        assert !OccursAt(message, enter, k);
      }
    }
  }

  /** Taking the first line of the first line changes nothing. */
  lemma OneLineIdempotent(message: Option<string>, enter: string)
    ensures GetOneLineMessage(GetOneLineMessage(message, enter), enter) == GetOneLineMessage(message, enter)
  {
    if message.Some? {
      var r := GetOneLineMessage(message, enter).value;
      if enter == "" {
        assert OccursAt(message.value, enter, 0);
        assert OccursAt(r, enter, 0);
      } else {
        OneLineHasNoSeparator(message.value, enter);
      }
    }
  }

  /** The values placed in the error body: strings, `null`, and nested maps in insertion order. */
  datatype Json = JNull | JString(text: string) | JObject(members: seq<(string, Json)>)

  /** The keys of a member list, in order. */
  function Keys(members: seq<(string, Json)>): (r: seq<string>)
    ensures |r| == |members|
    ensures forall i :: 0 <= i < |members| ==> r[i] == members[i].0
  {
    if |members| == 0 then [] else [members[0].0] + Keys(members[1..])
  }

  /** The value bound to `key`, if any. */
  function Get(members: seq<(string, Json)>, key: string): Option<Json> {
    if |members| == 0 then None
    else if members[0].0 == key then Some(members[0].1)
    else Get(members[1..], key)
  }

  /** `LinkedHashMap.put`: a present key keeps its position and gets the new value; a new key goes last. */
  function PutEntry(members: seq<(string, Json)>, key: string, value: Json): (r: seq<(string, Json)>)
    ensures key in Keys(members) ==> Keys(r) == Keys(members)
    ensures key !in Keys(members) ==> Keys(r) == Keys(members) + [key]
  {
    if |members| == 0 then [(key, value)]
    else if members[0].0 == key then [(key, value)] + members[1..]
    else [members[0]] + PutEntry(members[1..], key, value)
  }

  /** After a `put`, the key maps to the new value and every other key to what it had. */
  lemma {:induction false} PutThenGet(members: seq<(string, Json)>, key: string, value: Json, other: string)
    ensures Get(PutEntry(members, key, value), key) == Some(value)
    ensures other != key ==> Get(PutEntry(members, key, value), other) == Get(members, other)
  {
    if |members| > 0 && members[0].0 != key {
      PutThenGet(members[1..], key, value, other);
      assert PutEntry(members, key, value)[1..] == PutEntry(members[1..], key, value);
    }
  }

  /** A `put` of a new key appends the entry at the end: insertion order. */
  lemma {:induction false} PutNewKeyAppends(members: seq<(string, Json)>, key: string, value: Json)
    requires key !in Keys(members)
    ensures PutEntry(members, key, value) == members + [(key, value)]
  {
    if |members| > 0 {
      assert Keys(members) == [members[0].0] + Keys(members[1..]);
      assert members[0].0 != key;
      PutNewKeyAppends(members[1..], key, value);
      assert PutEntry(members, key, value) == [members[0]] + (members[1..] + [(key, value)]);
      assert members == [members[0]] + members[1..];
    }
  }

  /** Keys without repetition. */
  predicate DistinctKeys(members: seq<(string, Json)>) {
    forall i, j :: 0 <= i < j < |members| ==> members[i].0 != members[j].0
  }

  /** A `put` keeps the keys of a map distinct. */
  lemma PutKeepsKeysDistinct(members: seq<(string, Json)>, key: string, value: Json)
    requires DistinctKeys(members)
    ensures DistinctKeys(PutEntry(members, key, value))
  {
    var r := PutEntry(members, key, value);
    var ks := Keys(r);
    assert forall i :: 0 <= i < |r| ==> r[i].0 == ks[i];
    if key in Keys(members) {
      assert ks == Keys(members);
    } else {
      assert ks == Keys(members) + [key];
    }
  }

  /** `java.util.LinkedHashMap<String, Object>`, as the list of its entries in insertion order. */
  class LinkedHashMap {
    var members: seq<(string, Json)>

    constructor ()
      ensures members == []
    {
      members := [];
    }

    method Put(key: string, value: Json)
      modifies this
      ensures members == PutEntry(old(members), key, value)
    {
      members := PutEntry(members, key, value);
    }
  }

  /** What the builders read of the exception: `getMessage()`, and the simple and full class names. */
  datatype Throwable = Throwable(message: Option<string>, simpleName: string, className: string)

  function JsonString(s: Option<string>): Json {
    if s.Some? then JString(s.value) else JNull
  }

  /** The body both builders produce: one outer key, three inner keys in insertion order. */
  function ErrorBody(ex: Throwable, enter: string): (r: Json)
    ensures r.JObject? && Keys(r.members) == ["RemoteException"]
  {
    JObject([("RemoteException", JObject([
      ("message", JsonString(GetOneLineMessage(ex.message, enter))),
      ("exception", JString(ex.simpleName)),
      ("javaClassName", JString(ex.className))]))])
  }

  /**
   * The body names the exception by its simple and its full class name, and
   * its `message` is the exception's message cut at its first separator: a
   * prefix of it, without a (non-empty) separator, or null exactly when the
   * exception has no message.
   */
  lemma ErrorBodyMessage(ex: Throwable, enter: string)
    ensures var inner := Get(ErrorBody(ex, enter).members, "RemoteException");
      && Keys(ErrorBody(ex, enter).members) == ["RemoteException"]
      && inner.Some? && inner.value.JObject?
      && Keys(inner.value.members) == ["message", "exception", "javaClassName"]
      && Get(inner.value.members, "exception") == Some(JString(ex.simpleName))
      && Get(inner.value.members, "javaClassName") == Some(JString(ex.className))
      && var message := Get(inner.value.members, "message").value;
      && (message.JNull? <==> ex.message.None?)
      && (message.JString? ==> StartsWith(ex.message.value, message.text))
      && (message.JString? && enter != "" ==> !Contains(message.text, enter))
  {
    var inner := Get(ErrorBody(ex, enter).members, "RemoteException").value.members;
    assert Get(inner[2..], "javaClassName") == Some(JString(ex.className));
    if ex.message.Some? && enter != "" {
      OneLineHasNoSeparator(ex.message.value, enter);
    }
  }

  /**
   * Lines 46-51 and 58-63, which both builders repeat: the inner map with
   * its three puts, then the outer map with its single put.
   */
  method BuildErrorBody(ex: Throwable, enter: string) returns (body: Json)
    ensures body == ErrorBody(ex, enter)
  {
    var json := new LinkedHashMap();
    var message := JsonString(GetOneLineMessage(ex.message, enter));
    json.Put("message", message);
    json.Put("exception", JString(ex.simpleName));
    assert json.members == [("message", message), ("exception", JString(ex.simpleName))];
    assert Keys(json.members) == ["message", "exception"];
    PutNewKeyAppends(json.members, "javaClassName", JString(ex.className));
    json.Put("javaClassName", JString(ex.className));
    assert json.members == [("message", message), ("exception", JString(ex.simpleName)),
                            ("javaClassName", JString(ex.className))];
    var response := new LinkedHashMap();
    response.Put("RemoteException", JObject(json.members));
    assert response.members == [("RemoteException", JObject(json.members))];
    body := JObject(response.members);
  }

  /** The parts of the built `jakarta.ws.rs.core.Response` that the builder sets. */
  datatype JaxResponse = JaxResponse(status: int, mediaType: string, entity: Json)

  /** `createJerseyExceptionResponse`, lines 45-53. */
  method CreateJerseyExceptionResponse(status: int, ex: Throwable, enter: string) returns (r: JaxResponse)
    ensures r.status == status && r.mediaType == "application/json"
    ensures r.entity == ErrorBody(ex, enter)
  {
    var response := BuildErrorBody(ex, enter);
    r := JaxResponse(status, "application/json", response);
  }

  /** What a servlet response is told, in order. */
  datatype ServletEvent = SetStatus(code: int) | SetContentType(contentType: string) | Write(json: Json) | Flush

  /** `jakarta.servlet.http.HttpServletResponse`, as the log of the calls made on it and its writer. */
  class HttpServletResponse {
    var events: seq<ServletEvent>

    constructor ()
      ensures events == []
    {
      events := [];
    }

    method SetStatusCode(code: int)
      modifies this
      ensures events == old(events) + [SetStatus(code)]
    {
      events := events + [SetStatus(code)];
    }

    method SetResponseContentType(contentType: string)
      modifies this
      ensures events == old(events) + [SetContentType(contentType)]
    {
      events := events + [SetContentType(contentType)];
    }

    /** `JsonSerialization.writer().writeValue(getWriter(), json)`. */
    method WriteJson(json: Json)
      modifies this
      ensures events == old(events) + [Write(json)]
    {
      events := events + [Write(json)];
    }

    /** `getWriter().flush()`. */
    method FlushWriter()
      modifies this
      ensures events == old(events) + [Flush]
    {
      events := events + [Flush];
    }
  }

  /** `createServletExceptionResponse`, lines 55-67: status and type first, then the body, then a flush. */
  method CreateServletExceptionResponse(response: HttpServletResponse, status: int, ex: Throwable, enter: string)
    modifies response
    ensures response.events
         == old(response.events) + [SetStatus(status), SetContentType("application/json"), Write(ErrorBody(ex, enter)), Flush]
  {
    response.SetStatusCode(status);
    response.SetResponseContentType("application/json");
    var jsonResponse := BuildErrorBody(ex, enter);
    response.WriteJson(jsonResponse);
    response.FlushWriter();
  }
}

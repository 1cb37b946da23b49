/**
 * The message envelope shared by requests and responses: `BaseMessage`
 * with its two variants `ChromeRequest` and `ChromeResponse`. Both Python
 * files (the bridge and the client) carry identical copies of these
 * classes; this module models them once.
 *
 * An object has four properties that travel under four wire keys:
 *   id -> "requestId", client_source -> "source",
 *   message_type -> "type", data -> "data".
 * A property holds whatever JSON value was loaded into it, since loading
 * copies values without checking their kind.
 */
module Messages {
  import opened JsonValues

  // Request types of ChromeRequest.
  const RequestRename := 0
  const RequestClose := 1
  const RequestExit := 2

  // Response types of ChromeResponse.
  const ResponseSuccess := 0
  const ResponseError := 1
  const ResponseUnknown := 2

  /** The four properties of a message object. */
  datatype Prop = Id | ClientSource | MessageType | Data

  /** The property-to-wire-key table (`_prop_mapping`). */
  function WireKey(p: Prop): (k: string)
    ensures (k == "requestId" <==> p == Id) && (k == "source" <==> p == ClientSource)
    ensures (k == "type" <==> p == MessageType) && (k == "data" <==> p == Data)
  {
    match p
    case Id => "requestId"
    case ClientSource => "source"
    case MessageType => "type"
    case Data => "data"
  }

  /** The properties in the order the table lists them. */
  const Props: seq<Prop> := [Id, ClientSource, MessageType, Data]

  const WireKeys: set<string> := {"requestId", "source", "type", "data"}

  /** The values of the four properties of one message object. */
  datatype MessageFields = MessageFields(id: Json, clientSource: Json, messageType: Json, data: Json)

  function Get(f: MessageFields, p: Prop): Json
  {
    match p
    case Id => f.id
    case ClientSource => f.clientSource
    case MessageType => f.messageType
    case Data => f.data
  }

  /** `setattr(self, p, v)`. */
  function With(f: MessageFields, p: Prop, v: Json): MessageFields
  {
    match p
    case Id => f.(id := v)
    case ClientSource => f.(clientSource := v)
    case MessageType => f.(messageType := v)
    case Data => f.(data := v)
  }

  /** What `BaseMessage.__init__` leaves: '', '', -1 and {}. */
  const Defaults: MessageFields := MessageFields(Str(""), Str(""), Num(-1), Obj(map[]))

  /** What `ChromeRequest.__init__` leaves, given the freshly generated id. */
  function RequestInit(uuid: string): MessageFields
  {
    Defaults.(clientSource := Str("flts"), id := Str(uuid))
  }

  /** What `ChromeResponse.__init__` leaves. */
  const ResponseInit: MessageFields := Defaults.(clientSource := Str("chrome"), messageType := Num(ResponseUnknown))

  /** The dictionary built by the first |ps| steps of the `to_json` loop. */
  function DictOf(f: MessageFields, ps: seq<Prop>): map<string, Json>
  {
    if ps == [] then map[]
    else
      var p := ps[|ps| - 1];
      DictOf(f, ps[..|ps| - 1])[WireKey(p) := Get(f, p)]
  }

  /** The dictionary `to_json` renders. */
  function ToDict(f: MessageFields): map<string, Json>
  {
    DictOf(f, Props)
  }

  /** The fields after the first |ps| steps of the `_load_prop_from_dict` loop. */
  function LoadFrom(f: MessageFields, d: map<string, Json>, ps: seq<Prop>): MessageFields
  {
    if ps == [] then f
    else
      var p := ps[|ps| - 1];
      var g := LoadFrom(f, d, ps[..|ps| - 1]);
      if WireKey(p) in d then With(g, p, d[WireKey(p)]) else g
  }

  /** The fields after `_load_prop_from_dict(d)` on an object holding `f`. */
  function LoadDict(f: MessageFields, d: map<string, Json>): MessageFields
  {
    LoadFrom(f, d, Props)
  }

  /** Python's `k in s` on two strings: `k` occurs in `s` as a contiguous piece. */
  predicate HasSubstring(s: string, k: string)
    decreases |s|
  {
    (|k| <= |s| && s[..|k|] == k) || (s != [] && HasSubstring(s[1..], k))
  }

  /**
   * What `_load_prop_from_dict` reads from a parsed root, or None when it
   * raises. It tests `key in root` for each wire key and reads `root[key]`
   * for each one present. An object yields its members. A list or a
   * string yields nothing, unless a wire key is one of the list's elements
   * or a substring of the string: then `root[key]` raises TypeError. Any
   * other root makes `in` itself raise TypeError.
   */
  function Members(root: Json): Option<map<string, Json>>
  {
    match root
    case Obj(m) => Some(m)
    case Arr(items) => if exists p | p in Props :: Str(WireKey(p)) in items then None else Some(map[])
    case Str(s) => if exists p | p in Props :: HasSubstring(s, WireKey(p)) then None else Some(map[])
    case _ => None
  }

  /**
   * `json.loads` followed by the loading loop: the dictionary the loop
   * reads, or None when either of them raises.
   */
  function LoadObject(c: Codec, text: seq<byte>): (r: Option<map<string, Json>>)
    ensures r.Some? ==> c.loads(text).Some?
    ensures c.loads(text).Some? && c.loads(text).value.Obj? ==> r == Some(c.loads(text).value.members)
    ensures r.Some? && !c.loads(text).value.Obj? ==> r.value == map[]
    ensures c.loads(text).Some? && (c.loads(text).value.Null? || c.loads(text).value.Bool? || c.loads(text).value.Num?) ==> r.None?
  {
    match c.loads(text)
    case None => None
    case Some(root) => Members(root)
  }

  /**
   * `BaseMessage.source(text)`: the client source of a fresh message
   * loaded from `text`; None when loading raises.
   */
  function SourceOf(c: Codec, text: seq<byte>): Option<Json>
  {
    match LoadObject(c, text)
    case None => None
    case Some(m) => Some(LoadDict(Defaults, m).clientSource)
  }

  /**
   * `ChromeResponse.is_successful`: the type compares equal to SUCCESS. In
   * Python `False == 0`, so a JSON `false` type counts as success too.
   */
  predicate IsSuccessful(f: MessageFields)
  {
    f.messageType == Num(ResponseSuccess) || f.messageType == Bool(false)
  }

  // ---------------------------------------------------------------------
  // Properties of the mapping

  lemma {:induction false} DictOfContents(f: MessageFields, ps: seq<Prop>)
    ensures DictOf(f, ps).Keys == set p | p in ps :: WireKey(p)
    ensures forall p :: p in ps ==> DictOf(f, ps)[WireKey(p)] == Get(f, p)
  {
    if ps != [] {
      var init := ps[..|ps| - 1];
      DictOfContents(f, init);
      assert ps == init + [ps[|ps| - 1]];
      forall p | p in ps ensures DictOf(f, ps)[WireKey(p)] == Get(f, p) {
        if p != ps[|ps| - 1] {
          assert p in init;
          assert WireKey(p) != WireKey(ps[|ps| - 1]);
        }
      }
    }
  }

  /** `to_json` emits exactly the four wire keys, each filled from its property. */
  lemma ToDictContents(f: MessageFields)
    ensures ToDict(f).Keys == WireKeys
    ensures ToDict(f) == map["requestId" := f.id, "source" := f.clientSource, "type" := f.messageType, "data" := f.data]
  {
    DictOfContents(f, Props);
    assert (set p | p in Props :: WireKey(p)) == WireKeys by {
      assert WireKey(Id) == "requestId" && WireKey(ClientSource) == "source";
      assert WireKey(MessageType) == "type" && WireKey(Data) == "data";
    }
    assert Id in Props && ClientSource in Props && MessageType in Props && Data in Props;
  }

  lemma {:induction false} LoadFromAt(f: MessageFields, d: map<string, Json>, ps: seq<Prop>, q: Prop)
    ensures Get(LoadFrom(f, d, ps), q) == if q in ps && WireKey(q) in d then d[WireKey(q)] else Get(f, q)
  {
    if ps != [] {
      var init := ps[..|ps| - 1];
      LoadFromAt(f, d, init, q);
      assert ps == init + [ps[|ps| - 1]];
    }
  }

  /**
   * Loading a dictionary sets exactly the properties whose wire key is
   * present, to the value under that key; every other property keeps its
   * prior value.
   */
  lemma LoadDictAt(f: MessageFields, d: map<string, Json>, p: Prop)
    ensures Get(LoadDict(f, d), p) == if WireKey(p) in d then d[WireKey(p)] else Get(f, p)
  {
    LoadFromAt(f, d, Props, p);
    assert p in Props;
  }

  /** The same, spelled out per field. */
  lemma LoadDictFields(f: MessageFields, d: map<string, Json>)
    ensures LoadDict(f, d).id == if "requestId" in d then d["requestId"] else f.id
    ensures LoadDict(f, d).clientSource == if "source" in d then d["source"] else f.clientSource
    ensures LoadDict(f, d).messageType == if "type" in d then d["type"] else f.messageType
    ensures LoadDict(f, d).data == if "data" in d then d["data"] else f.data
  {
    LoadDictAt(f, d, Id);
    LoadDictAt(f, d, ClientSource);
    LoadDictAt(f, d, MessageType);
    LoadDictAt(f, d, Data);
  }

  /** Keys other than the four wire keys have no effect on loading. */
  lemma LoadDictIgnoresUnknownKeys(f: MessageFields, d: map<string, Json>)
    ensures LoadDict(f, d) == LoadDict(f, map k | k in d && k in WireKeys :: d[k])
  {
    var d' := map k | k in d && k in WireKeys :: d[k];
    LoadDictFields(f, d);
    LoadDictFields(f, d');
  }

  /** Parsing a dumped object gives back its members. */
  lemma LoadObjectOfDumped(c: Codec, m: map<string, Json>)
    requires Inverse(c)
    ensures LoadObject(c, c.dumps(Obj(m))) == Some(m)
  {
    assert c.loads(c.dumps(Obj(m))) == Some(Obj(m));
  }

  /** A list or string root that loads without raising leaves every property as it was. */
  lemma NonObjectRootLoadsNothing(f: MessageFields, root: Json)
    requires root.Arr? || root.Str?
    requires Members(root).Some?
    ensures LoadDict(f, Members(root).value) == f
  {
    LoadDictFields(f, Members(root).value);
  }

  /** A list root raises exactly when one of its elements is a wire key. */
  lemma ListRootRaises(items: seq<Json>)
    ensures Members(Arr(items)).None? <==>
      Str("requestId") in items || Str("source") in items || Str("type") in items || Str("data") in items
  {
    assert Id in Props && ClientSource in Props && MessageType in Props && Data in Props;
  }

  /** Loading what `to_json` emitted restores all four properties, whatever the object held before. */
  lemma LoadToDictRoundTrip(f: MessageFields, prior: MessageFields)
    ensures LoadDict(prior, ToDict(f)) == f
  {
    ToDictContents(f);
    LoadDictFields(prior, ToDict(f));
  }

  /** The same round trip through the JSON text. */
  lemma TextRoundTrip(c: Codec, f: MessageFields, prior: MessageFields)
    requires Inverse(c)
    ensures LoadObject(c, c.dumps(Obj(ToDict(f)))) == Some(ToDict(f))
    ensures LoadDict(prior, ToDict(f)) == f
  {
    LoadObjectOfDumped(c, ToDict(f));
    LoadToDictRoundTrip(f, prior);
  }

  /** `source(text)` is the value under "source", or '' when that key is absent. */
  lemma SourceOfSpec(c: Codec, text: seq<byte>)
    ensures SourceOf(c, text).Some? <==> LoadObject(c, text).Some?
    ensures LoadObject(c, text).Some? ==>
      var m := LoadObject(c, text).value;
      SourceOf(c, text) == Some(if "source" in m then m["source"] else Str(""))
  {
    if LoadObject(c, text).Some? {
      LoadDictFields(Defaults, LoadObject(c, text).value);
    }
  }

  /** The source extracted from a serialized message is that message's source. */
  lemma SourceOfSerialized(c: Codec, f: MessageFields)
    requires Inverse(c)
    ensures SourceOf(c, c.dumps(Obj(ToDict(f)))) == Some(f.clientSource)
  {
    TextRoundTrip(c, f, Defaults);
  }

  // ---------------------------------------------------------------------
  // The message object

  /**
   * A `BaseMessage` object. The `ChromeRequest` and `ChromeResponse`
   * subclasses differ only in their constructors, which are the named
   * constructors below.
   */
  class BaseMessage {
    var id: Json
    var clientSource: Json
    var messageType: Json
    var data: Json

    function Fields(): MessageFields
      reads this
    {
      MessageFields(id, clientSource, messageType, data)
    }

    /**
     * `BaseMessage(prop_dict=...)`. The dictionary is loaded before any of
     * the four attributes exists, so the `hasattr` test fails for every
     * property and nothing is copied; the defaults are assigned afterwards.
     */
    constructor (propDict: map<string, Json> := map[])
      ensures Fields() == Defaults
    {
      id, clientSource, messageType, data := Str(""), Str(""), Num(-1), Obj(map[]);
    }

    /** `ChromeRequest(prop_dict=...)`; `uuid` is the generated `uuid4()` text. */
    constructor Request(uuid: string, propDict: map<string, Json> := map[])
      ensures Fields() == RequestInit(uuid)
      ensures clientSource == Str("flts") && id == Str(uuid) && messageType == Num(-1) && data == Obj(map[])
    {
      id, clientSource, messageType, data := Str(""), Str(""), Num(-1), Obj(map[]);
      new;
      clientSource := Str("flts");
      id := Str(uuid);
    }

    /** `ChromeResponse(prop_dict=...)`. */
    constructor Response(propDict: map<string, Json> := map[])
      ensures Fields() == ResponseInit
      ensures clientSource == Str("chrome") && id == Str("") && messageType == Num(ResponseUnknown) && data == Obj(map[])
    {
      id, clientSource, messageType, data := Str(""), Str(""), Num(-1), Obj(map[]);
      new;
      clientSource := Str("chrome");
      messageType := Num(ResponseUnknown);
    }

    method SetProp(p: Prop, v: Json)
      modifies this
      ensures Fields() == With(old(Fields()), p, v)
    {
      match p
      case Id => id := v;
      case ClientSource => clientSource := v;
      case MessageType => messageType := v;
      case Data => data := v;
    }

    /** `_load_prop_from_dict`: copy the value of every wire key present in `d`. */
    method LoadPropFromDict(d: map<string, Json>)
      modifies this
      ensures Fields() == LoadDict(old(Fields()), d)
    {
      for i := 0 to |Props|
        invariant Fields() == LoadFrom(old(Fields()), d, Props[..i])
      {
        var p := Props[i];
        assert Props[..i + 1][..i] == Props[..i];
        if WireKey(p) in d {
          SetProp(p, d[WireKey(p)]);
        }
      }
      assert Props[..|Props|] == Props;
    }

    /** `to_json`: build the wire dictionary and render it. */
    method ToJson(c: Codec) returns (text: seq<byte>)
      ensures text == c.dumps(Obj(ToDict(Fields())))
    {
      var f := Fields();
      var d: map<string, Json> := map[];
      for i := 0 to |Props|
        invariant d == DictOf(f, Props[..i])
      {
        var p := Props[i];
        assert Props[..i + 1][..i] == Props[..i];
        d := d[WireKey(p) := Get(f, p)];
      }
      assert Props[..|Props|] == Props;
      text := c.dumps(Obj(d));
    }

    /**
     * `load_from_json`: parse `text` and load the resulting dictionary.
     * When `json.loads` or the loading loop raises, nothing has changed
     * and `ok` is false.
     */
    method LoadFromJson(c: Codec, text: seq<byte>) returns (ok: bool)
      modifies this
      ensures ok <==> LoadObject(c, text).Some?
      ensures ok ==> Fields() == LoadDict(old(Fields()), LoadObject(c, text).value)
      ensures !ok ==> Fields() == old(Fields())
    {
      var parsed := LoadObject(c, text);
      if parsed.None? {
        return false;
      }
      LoadPropFromDict(parsed.value);
      ok := true;
    }

    /** `is_successful`: the type is SUCCESS, or `false`, which Python compares equal to 0. */
    method IsSuccessfulResponse() returns (b: bool)
      ensures b == IsSuccessful(Fields())
    {
      b := messageType == Num(ResponseSuccess) || messageType == Bool(false);
    }
  }

  /** The static `BaseMessage.source`: load `text` into a fresh message and report its source. */
  method Source(c: Codec, text: seq<byte>) returns (r: Option<Json>)
    ensures r == SourceOf(c, text)
    ensures r.Some? ==> var m := LoadObject(c, text).value; r.value == if "source" in m then m["source"] else Str("")
  {
    var msg := new BaseMessage();
    var ok := msg.LoadFromJson(c, text);
    if !ok {
      return None;
    }
    r := Some(msg.clientSource);
    SourceOfSpec(c, text);
  }
}

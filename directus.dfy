/**
 * DirectusAPI (storage.py:52-197): the calls the storage driver makes, each
 * specified by a pure Step over the fake backend's state, and the type-name
 * rewrite that createField applies.
 */
module Directus {
  import opened Wrappers
  import opened Remote
  import Fields

  /** The exceptions a call can end with. */
  datatype Error =
    | JsonDecodeError  // response.json() on a body that is not JSON
    | AttributeError   // None.replace(...) for a field without a data type

  /** How a Python call ends: with a value, or by raising. */
  datatype Reply<T> = Returned(value: T) | Raised(error: Error)

  /** Forgets the value of a call whose result the caller ignores. */
  function Ignore<T>(r: Reply<T>): (r': Reply<()>)
    ensures r'.Raised? <==> r.Raised?
    ensures r.Raised? ==> r'.error == r.error
  {
    match r
    case Returned(_) => Returned(())
    case Raised(e) => Raised(e)
  }

  /**
   * What `get` and `post` make of a response. The `data` member is
   * returned when there is one; otherwise the except branch returns None,
   * but when it logs it first parses the body again, which raises for a
   * body that is not JSON. `get(..., log=False)` never raises; `post`
   * always takes the logging path, so it behaves as `get` with logging on.
   */
  function Decode<T>(b: Body<T>, log: bool): (r: Reply<Option<T>>)
    ensures r.Raised? <==> b.NotJson? && log
    ensures r.Raised? ==> r.error == JsonDecodeError
    ensures r.Returned? ==> (r.value.Some? <==> b.Data?)
    ensures b.Data? ==> r == Returned(Some(b.data))
  {
    match b
    case Data(d) => Returned(Some(d))
    case NoData => Returned(None)
    case NotJson => if log then Raised(JsonDecodeError) else Returned(None)
  }

  /** The requests one call sends, the backend state after it, and how it ends. */
  datatype Step<T> = Step(requests: seq<Request>, after: Backend, result: Reply<T>)

  /** `clearCache`: a bare POST whose response is not parsed. */
  function ClearCacheStep(st: Backend): Step<()>
  {
    Step([Post(CacheClear, NoBody)], st, Returned(()))
  }

  /** `get('items/<c>?sort=-id', log=False)`: the stored ids, if the answer has them. */
  function ItemsStep(c: string, st: Backend): (s: Step<Option<seq<int>>>)
    ensures s.result.Returned?
    ensures s.result.value == (if st.json then st.ids else None)
  {
    Step([Get(ItemsByIdDesc(c))], st, Decode(ItemsBody(st), false))
  }

  /** `collectionExists`: whether `get('collections/<c>', False)` returned data. */
  function ExistsStep(c: string, st: Backend): (s: Step<bool>)
    ensures s.result == Returned(st.json && st.present)
  {
    var d := Decode(CollectionBody(st), false);
    Step([Get(CollectionOf(c))], st, Returned(d.Returned? && d.value.Some?))
  }

  /** The `field` member of each listing entry, in order. */
  function FieldNames(infos: seq<FieldInfo>): (names: seq<string>)
    ensures |names| == |infos|
    ensures forall i :: 0 <= i < |infos| ==> names[i] == infos[i].field
  {
    if infos == [] then [] else FieldNames(infos[..|infos| - 1]) + [infos[|infos| - 1].field]
  }

  /**
   * `getFields`: the names of the collection's fields; an absent or empty
   * listing gives no names, and a body that is not JSON raises.
   */
  function FieldsStep(c: string, st: Backend): (s: Step<seq<string>>)
    ensures s.result.Raised? <==> !st.json
    ensures s.result.Returned? ==> s.result.value == FieldNames(st.fields.GetOr([]))
  {
    var d := Decode(FieldsBody(st), true);
    var r := if d.Raised? then Raised(d.error) else Returned(FieldNames(d.value.GetOr([])));
    Step([Get(FieldsOf(c))], st, r)
  }

  /** `createCollection`: POST the collection with the "timeline" icon. */
  function CreateCollectionStep(c: string, st: Backend): (s: Step<Option<()>>)
    ensures s.result.Raised? <==> !st.json
    ensures st.json ==> s.after.present
  {
    Step([Post(CollectionsRoot, CollectionSpec(c, "timeline"))], AfterCreateCollection(st), Decode(WriteBody(st), true))
  }

  /**
   * `createField`: a field without a data type raises before anything is
   * sent; otherwise the type, with "real" rewritten to "float", is POSTed
   * with the "data_usage" icon.
   */
  function CreateFieldStep(c: string, name: string, dataType: Option<string>, st: Backend): (s: Step<Option<()>>)
    ensures dataType.None? ==> s == Step([], st, Raised(AttributeError))
    ensures dataType.Some? ==>
      && s.requests == [Post(FieldsOf(c), FieldSpec(name, ReplaceReal(dataType.value), "data_usage"))]
      && s.after == AfterCreateField(st, name, ReplaceReal(dataType.value))
      && (s.result.Raised? <==> !st.json)
  {
    match dataType
    case None => Step([], st, Raised(AttributeError))
    case Some(t) =>
      var spec := FieldSpec(name, ReplaceReal(t), "data_usage");
      Step([Post(FieldsOf(c), spec)], AfterCreateField(st, name, spec.fieldType), Decode(WriteBody(st), true))
  }

  /** `post('items/<c>', row)`. */
  function PostItemStep(c: string, row: map<string, Json>, st: Backend): (s: Step<Option<()>>)
    ensures s.result.Raised? <==> !st.json
  {
    Step([Post(ItemsOf(c), ItemRow(row))], AfterPostItem(st, row), Decode(WriteBody(st), true))
  }

  /** "real" occurs in `s` at index `i`. */
  predicate RealAt(s: string, i: int)
  {
    0 <= i && i + 4 <= |s| && s[i] == 'r' && s[i + 1] == 'e' && s[i + 2] == 'a' && s[i + 3] == 'l'
  }

  /** Python's `s.replace('real', 'float')`: left to right, without overlaps. */
  function ReplaceReal(s: string): string
    decreases |s|
  {
    if RealAt(s, 0) then "float" + ReplaceReal(s[4..])
    else if s == [] then []
    else [s[0]] + ReplaceReal(s[1..])
  }

  /** `s` has no occurrence of "real". */
  ghost predicate NoReal(s: string)
  {
    forall i :: !RealAt(s, i)
  }

  /** Text without "real" is sent unchanged. */
  lemma {:induction false} ReplaceRealNoReal(s: string)
    requires NoReal(s)
    ensures ReplaceReal(s) == s
    decreases |s|
  {
    if s != [] {
      assert !RealAt(s, 0);
      assert NoReal(s[1..]) by {
        forall i
          ensures !RealAt(s[1..], i)
        {
          assert RealAt(s[1..], i) ==> RealAt(s, i + 1);
        }
      }
      ReplaceRealNoReal(s[1..]);
    }
  }

  /** The first character of the rewrite tells whether a rewrite happened there. */
  lemma ReplaceRealHead(s: string)
    ensures ReplaceReal(s) == [] <==> s == []
    ensures s != [] && ReplaceReal(s)[0] != 'f' ==>
      !RealAt(s, 0) && ReplaceReal(s) == [s[0]] + ReplaceReal(s[1..]) && ReplaceReal(s)[0] == s[0]
  {
  }

  /** Every occurrence is rewritten: the result has no "real" left in it. */
  lemma {:induction false} ReplaceRealComplete(s: string)
    ensures NoReal(ReplaceReal(s))
    decreases |s|
  {
    if RealAt(s, 0) {
      ReplaceRealComplete(s[4..]);
      NoRealAfter("float", ReplaceReal(s[4..]));
    } else if s != [] {
      ReplaceRealComplete(s[1..]);
      var t := ReplaceReal(s[1..]);
      if s[0] == 'r' && |t| >= 3 && t[0] == 'e' && t[1] == 'a' && t[2] == 'l' {
        // Then s itself starts with "real", which the first branch handles.
        ReplaceRealHead(s[1..]);
        ReplaceRealHead(s[2..]);
        ReplaceRealHead(s[3..]);
        assert false;
      }
      NoRealAfter([s[0]], t);
    }
  }

  /** Prefixing text with an 'r' at most at its very end keeps "real" out. */
  lemma NoRealAfter(h: string, t: string)
    requires 1 <= |h| && NoReal(t)
    requires forall k :: 0 <= k < |h| - 1 ==> h[k] != 'r'
    requires h[|h| - 1] == 'r' ==> !(|t| >= 3 && t[0] == 'e' && t[1] == 'a' && t[2] == 'l')
    ensures NoReal(h + t)
  {
    var u := h + t;
    forall i
      ensures !RealAt(u, i)
    {
      if i >= |h| {
        assert RealAt(u, i) ==> RealAt(t, i - |h|);
      }
    }
  }

  /** The type names the field classes carry, and "timestamp", are sent as they are. */
  lemma KindTypesUnchanged(k: Fields.Kind)
    ensures Fields.DataType(k).Some? ==> ReplaceReal(Fields.DataType(k).value) == Fields.DataType(k).value
    ensures ReplaceReal("timestamp") == "timestamp"
  {
    NoRFree("integer");
    NoRFree("float");
    NoRFree("timestamp");
    NoRealAfter("str", "ing");
    ReplaceRealNoReal("string");
    ReplaceRealNoReal("integer");
    ReplaceRealNoReal("float");
    ReplaceRealNoReal("timestamp");
  }

  /** Text with no 'r' but possibly in last place has no "real". */
  lemma NoRFree(s: string)
    requires forall k :: 0 <= k < |s| - 1 ==> s[k] != 'r'
    ensures NoReal(s)
  {
    forall i
      ensures !RealAt(s, i)
    {
    }
  }

  /** The API wrapper: where it sends requests, and on whose behalf. */
  class DirectusAPI {
    const host: string
    const token: string
    const collection: string
    const server: Server

    constructor (host: string, token: string, collection: string, server: Server)
      ensures this.host == host && this.token == token && this.collection == collection && this.server == server
    {
      this.host := host;
      this.token := token;
      this.collection := collection;
      this.server := server;
    }

    method ClearCache()
      modifies server
      ensures var s := ClearCacheStep(old(server.State()));
        server.trace == old(server.trace) + s.requests && server.State() == s.after
    {
      var _ := server.PostCacheClear();
    }

    /** `get('items/<c>?sort=-id', log=False)`, as `add` issues it. */
    method GetItems() returns (r: Reply<Option<seq<int>>>)
      modifies server
      ensures var s := ItemsStep(collection, old(server.State()));
        server.trace == old(server.trace) + s.requests && server.State() == s.after && r == s.result
    {
      var b := server.GetItems(collection);
      r := Decode(b, false);
    }

    method CollectionExists() returns (b: bool)
      modifies server
      ensures var s := ExistsStep(collection, old(server.State()));
        server.trace == old(server.trace) + s.requests && server.State() == s.after && Returned(b) == s.result
    {
      var body := server.GetCollection(collection);
      var d := Decode(body, false);
      b := d.Returned? && d.value.Some?;
    }

    method GetFields() returns (r: Reply<seq<string>>)
      modifies server
      ensures var s := FieldsStep(collection, old(server.State()));
        server.trace == old(server.trace) + s.requests && server.State() == s.after && r == s.result
    {
      var body := server.GetFields(collection);
      var d := Decode(body, true);
      if d.Raised? {
        return Raised(d.error);
      }
      var fields: seq<string> := [];
      if d.value.Some? {
        var data: seq<FieldInfo> := d.value.value;
        var i := 0;
        while i < |data|
          invariant 0 <= i <= |data|
          invariant fields == FieldNames(data[..i])
        {
          assert data[..i + 1][..i] == data[..i];
          fields := fields + [data[i].field];
          i := i + 1;
        }
        assert data[..|data|] == data;
      }
      r := Returned(fields);
    }

    method CreateCollection() returns (r: Reply<Option<()>>)
      modifies server
      ensures var s := CreateCollectionStep(collection, old(server.State()));
        server.trace == old(server.trace) + s.requests && server.State() == s.after && r == s.result
    {
      var b := server.PostCollection(CollectionSpec(collection, "timeline"));
      r := Decode(b, true);
    }

    method CreateField(name: string, dataType: Option<string>) returns (r: Reply<Option<()>>)
      modifies server
      ensures var s := CreateFieldStep(collection, name, dataType, old(server.State()));
        server.trace == old(server.trace) + s.requests && server.State() == s.after && r == s.result
    {
      if dataType.None? {
        return Raised(AttributeError);
      }
      var b := server.PostField(collection, FieldSpec(name, ReplaceReal(dataType.value), "data_usage"));
      r := Decode(b, true);
    }

    method PostItem(row: map<string, Json>) returns (r: Reply<Option<()>>)
      modifies server
      ensures var s := PostItemStep(collection, row, old(server.State()));
        server.trace == old(server.trace) + s.requests && server.State() == s.after && r == s.result
    {
      var b := server.PostItem(collection, row);
      r := Decode(b, true);
    }
  }
}

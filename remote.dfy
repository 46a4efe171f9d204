/**
 * The remote Directus server as the driver sees it: the requests it is sent
 * (storage.py builds them in DirectusAPI) and a fake backend that answers
 * them. The fake stands for the one collection the driver is configured
 * with; its reads return what it holds, and its writes always succeed and
 * update what it holds, unless it answers with bodies that are not JSON.
 */
module Remote {
  import opened Wrappers

  /** A value in a row payload: the driver sends integer ids and text. */
  datatype Json = JInt(i: int) | JStr(s: string)

  /** One entry of the `fields/<collection>` listing: its name and type. */
  datatype FieldInfo = FieldInfo(field: string, fieldType: string)

  /** The API paths the driver uses (storage.py:136, 146, 160, 171, 197, 244, 256). */
  datatype Endpoint =
    | CollectionsRoot              // collections
    | CollectionOf(name: string)   // collections/<name>
    | FieldsOf(name: string)       // fields/<name>
    | ItemsOf(name: string)        // items/<name>
    | ItemsByIdDesc(name: string)  // items/<name>?sort=-id
    | CacheClear                   // utils/cache/clear

  /** The JSON body of a POST request. */
  datatype Payload =
    | NoBody
    | CollectionSpec(collection: string, icon: string)         // plus "schema": {}
    | FieldSpec(field: string, fieldType: string, icon: string)  // plus "schema": {}
    | ItemRow(row: map<string, Json>)

  /** A request as it goes over the wire. */
  datatype Request = Get(endpoint: Endpoint) | Post(endpoint: Endpoint, body: Payload)

  /**
   * A response body: JSON carrying a `data` member, JSON without one (an
   * error document), or something that is not JSON at all.
   */
  datatype Body<T> = Data(data: T) | NoData | NotJson

  /** What the fake backend holds. `None` lists make the read answer without `data`. */
  datatype Backend = Backend(json: bool, present: bool, fields: Option<seq<FieldInfo>>, ids: Option<seq<int>>)

  /** The answer to `GET collections/<c>`. */
  function CollectionBody(st: Backend): Body<()>
  {
    if !st.json then NotJson else if st.present then Data(()) else NoData
  }

  /** The answer to `GET fields/<c>`. */
  function FieldsBody(st: Backend): Body<seq<FieldInfo>>
  {
    if !st.json then NotJson else if st.fields.Some? then Data(st.fields.value) else NoData
  }

  /** The answer to `GET items/<c>?sort=-id`, reduced to the rows' ids. */
  function ItemsBody(st: Backend): Body<seq<int>>
  {
    if !st.json then NotJson else if st.ids.Some? then Data(st.ids.value) else NoData
  }

  /** The answer to any write: an echo, or a body that is not JSON. */
  function WriteBody(st: Backend): Body<()>
  {
    if st.json then Data(()) else NotJson
  }

  /** `POST collections`: the collection exists afterwards. */
  function AfterCreateCollection(st: Backend): (st': Backend)
    ensures st.json ==> st'.present
    ensures st'.json == st.json && st'.fields == st.fields && st'.ids == st.ids
  {
    if st.json then st.(present := true) else st
  }

  /** `POST fields/<c>`: the field is appended to the listing. */
  function AfterCreateField(st: Backend, name: string, fieldType: string): (st': Backend)
    ensures st.json ==> st'.fields == Some(st.fields.GetOr([]) + [FieldInfo(name, fieldType)])
    ensures !st.json ==> st' == st
    ensures st'.json == st.json && st'.present == st.present && st'.ids == st.ids
  {
    if st.json then st.(fields := Some(st.fields.GetOr([]) + [FieldInfo(name, fieldType)])) else st
  }

  /**
   * `POST items/<c>`: a row whose `id` is an integer is stored under it; a
   * row whose `id` is not an integer is not listed by the fake.
   */
  function AfterPostItem(st: Backend, row: map<string, Json>): (st': Backend)
    ensures st.json && "id" in row && row["id"].JInt? ==> st'.ids == Some(st.ids.GetOr([]) + [row["id"].i])
    ensures !(st.json && "id" in row && row["id"].JInt?) ==> st' == st
    ensures st'.json == st.json && st'.present == st.present && st'.fields == st.fields
  {
    if st.json && "id" in row && row["id"].JInt? then st.(ids := Some(st.ids.GetOr([]) + [row["id"].i])) else st
  }

  /** The fake backend: its state and every request it has been sent, in order. */
  class Server {
    var json: bool
    var present: bool
    var fields: Option<seq<FieldInfo>>
    var ids: Option<seq<int>>
    var trace: seq<Request>

    function State(): Backend
      reads this
    {
      Backend(json, present, fields, ids)
    }

    constructor (st: Backend)
      ensures State() == st && trace == []
    {
      json, present, fields, ids := st.json, st.present, st.fields, st.ids;
      trace := [];
    }

    method GetCollection(c: string) returns (b: Body<()>)
      modifies this
      ensures trace == old(trace) + [Get(CollectionOf(c))] && State() == old(State())
      ensures b == CollectionBody(State())
    {
      trace := trace + [Get(CollectionOf(c))];
      b := CollectionBody(State());
    }

    method GetFields(c: string) returns (b: Body<seq<FieldInfo>>)
      modifies this
      ensures trace == old(trace) + [Get(FieldsOf(c))] && State() == old(State())
      ensures b == FieldsBody(State())
    {
      trace := trace + [Get(FieldsOf(c))];
      b := FieldsBody(State());
    }

    method GetItems(c: string) returns (b: Body<seq<int>>)
      modifies this
      ensures trace == old(trace) + [Get(ItemsByIdDesc(c))] && State() == old(State())
      ensures b == ItemsBody(State())
    {
      trace := trace + [Get(ItemsByIdDesc(c))];
      b := ItemsBody(State());
    }

    method PostCacheClear() returns (b: Body<()>)
      modifies this
      ensures trace == old(trace) + [Post(CacheClear, NoBody)] && State() == old(State())
      ensures b == WriteBody(State())
    {
      trace := trace + [Post(CacheClear, NoBody)];
      b := WriteBody(State());
    }

    method PostCollection(spec: Payload) returns (b: Body<()>)
      requires spec.CollectionSpec?
      modifies this
      ensures trace == old(trace) + [Post(CollectionsRoot, spec)]
      ensures State() == AfterCreateCollection(old(State()))
      ensures b == WriteBody(old(State()))
    {
      trace := trace + [Post(CollectionsRoot, spec)];
      b := WriteBody(State());
      if json {
        present := true;
      }
    }

    method PostField(c: string, spec: Payload) returns (b: Body<()>)
      requires spec.FieldSpec?
      modifies this
      ensures trace == old(trace) + [Post(FieldsOf(c), spec)]
      ensures State() == AfterCreateField(old(State()), spec.field, spec.fieldType)
      ensures b == WriteBody(old(State()))
    {
      trace := trace + [Post(FieldsOf(c), spec)];
      b := WriteBody(State());
      if json {
        fields := Some(fields.GetOr([]) + [FieldInfo(spec.field, spec.fieldType)]);
      }
    }

    method PostItem(c: string, row: map<string, Json>) returns (b: Body<()>)
      modifies this
      ensures trace == old(trace) + [Post(ItemsOf(c), ItemRow(row))]
      ensures State() == AfterPostItem(old(State()), row)
      ensures b == WriteBody(old(State()))
    {
      trace := trace + [Post(ItemsOf(c), ItemRow(row))];
      b := WriteBody(State());
      if json && "id" in row && row["id"].JInt? {
        ids := Some(ids.GetOr([]) + [row["id"].i]);
      }
    }
  }
}

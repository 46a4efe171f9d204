# pyrectus Directus storage driver, modelled in Dafny

pyrectus stores snapshots of model data in a Directus instance. A snapshot
is a list of typed fields (`GenericField`, `StringField`, `IntegerField`,
`FloatField`). `DirectusStorageDriver.add` stores one snapshot as a new
row of a Directus collection. It clears the cache and picks the row id as
one past the largest stored id. It creates the collection when it is
missing. It creates every field the collection lacks, always including a
`timestamp` field. Then it posts the row and clears the cache again.

The model has six modules:

- `Fields` (fields.dfy): the field classes, as a value with a name, a value
  and a kind that fixes the remote data type.
- `Config` (config.dfy): how the driver configuration is read. This covers
  `parseToken` (each `{{ NAME }}` placeholder is replaced by the
  environment variable's value), collection names normalised to
  `[a-z0-9_]`, and trailing `/` stripped from the host.
- `Remote` (remote.dfy): the requests the driver sends, and a fake Directus
  backend (`Server`) that answers them. Reads return what the backend
  holds. Writes succeed and update it, unless the backend answers with
  bodies that are not JSON. `Server.trace` records every request in order.
- `Directus` (directus.dfy): the `DirectusAPI` class. Each of its methods
  is proved against a pure `Step`: the requests it sends, the backend
  afterwards, and its result or the exception it raises.
- `Driver` (driver.dfy): the row id, the field reconciliation plan, the
  row payload, and the `StorageDriver` class. `CreateMissingFields` and
  `Add` are proved against pure `Run`s. The lemmas about those `Run`s state
  the call order and what the backend holds afterwards.
- `Wrappers` (wrappers.dfy): `Option`.

Exceptions are modelled as values. A `Reply` is either `Returned(value)` or
`Raised(error)`, and an exception ends the calling method where it is
raised.

How failures behave in the code:

- The `except` branches of `get` (when `log` is set) and of `post` parse
  the body again to log it (storage.py:100, storage.py:126). When the
  body is not JSON, that second parse raises out of the `except` branch.
  The model raises `JsonDecodeError` there.
  `get(..., log=False)`, which `collectionExists` and the item read in
  `add` use, returns `None`.
- `clearCache` (storage.py:152-161) never parses its response, so it
  never raises.
- `createField` on a `GenericField` calls `None.replace`
  (storage.py:191), which raises `AttributeError` before anything is
  sent. That aborts `add` before its row is posted.

## Model

| member | source | states |
|---|---|---|
| Fields.GenericField | fields.py:3-10 | keeps the name and value; the data type is None |
| Fields.StringField | fields.py:13-26 | keeps the name and value; the data type is "string" |
| Fields.IntegerField | fields.py:29-39 | keeps the name and value; the data type is "integer" |
| Fields.FloatField | fields.py:42-52 | keeps the name and value; the data type is "float" |
| Fields.SubclassesExtendGeneric | fields.py:13-52 | each subclass equals GenericField with the same name and value, with only the kind changed (the `super().__init__` call) |
| Fields.DataTypeInjective | fields.py:10-52 | two classes with the same data type are the same class |
| Config.Lower | storage.py:214 | `lower()` keeps the length and lowers each ASCII capital in place |
| Config.NormalizedCollectionShape | storage.py:213-215 | the normalised collection name uses only `[a-z0-9_]` and never holds `__`; its `[a-z0-9]` characters are those of the lowered name, in order |
| Config.CollapseRunsFacts | storage.py:214 | replacing each run of characters outside `[a-z0-9]` by `_` gives a normalised name that is empty iff the input is empty, keeps every `[a-z0-9]` character in order and is no longer than the input |
| Config.CollapseRunsFixed | storage.py:214 | a name that is already normalised is left unchanged by the substitution |
| Config.LowerNormalized | storage.py:214 | a name that is already normalised is left unchanged by lowering |
| Config.NormalizeCollectionIdempotent | storage.py:213-215 | normalising a normalised collection name changes nothing |
| Config.CollapseRunsKeeps | storage.py:214 | a leading part made only of `[a-z0-9]` is copied unchanged |
| Config.CollapseRunsSeparator | storage.py:214 | a whole run of other characters becomes a single `_` |
| Config.NormalizeCollectionExample | storage.py:213-215 | "Calc Materials!" becomes "calc_materials_" |
| Config.StripTrailingSlashes | storage.py:216 | `rstrip('/')` returns a prefix of the host that does not end in `/`, and every character it removed is `/` |
| Config.MatchSound | storage.py:20 | whatever the placeholder pattern matches at the front of the text is a well-formed `{{ NAME }}` that the text starts with |
| Config.MatchComplete | storage.py:20 | the pattern matches every well-formed placeholder at the front of the text, exactly as written |
| Config.Lookup | storage.py:16-17 | `os.getenv` gives the variable's value, or nothing when it is unset (a `None` from the callback inserts nothing) |
| Config.ParseTokenPlaceholder | storage.py:16-20 | a placeholder at the front is replaced by its variable's value, and the rest of the text is processed on |
| Config.ParseTokenPlain | storage.py:19-20 | a token in which the pattern matches at no position is returned unchanged (`re.sub` without a match) |
| Config.NoOpenBracesPlain | storage.py:19-20 | a token without `{{` has no match anywhere, so it is returned unchanged |
| Config.ParseTokenCopies | storage.py:20 | a character at which no placeholder starts is copied, and scanning goes on after it |
| Config.ParseTokenExtraBraces | storage.py:19-20 | braces that open no placeholder are copied: `{` + placeholder + `}` becomes `{` + its value + `}` |
| Config.ParseTokenPair | storage.py:16-20 | two placeholders around any separator, `{` included, become their two values around that separator |
| Config.BraceBeforePlaceholder | storage.py:20 | no placeholder starts at a `{` that is directly followed by a placeholder |
| Config.ParseTokenBraceThenPlaceholder | storage.py:16-20 | a `{` directly before a placeholder is copied, the placeholder becomes its value, and scanning goes on after it |
| Config.ParseTokenCharThenPlaceholder | storage.py:16-20 | any single character before a placeholder, `{` included, is copied and the placeholder becomes its value |
| Config.ParseTokenExampleUnset | storage.py:16-20 | "{{FOO}}-{{BAR}}" with FOO=abc and BAR unset gives "abc-" |
| Config.ParseTokenExampleSet | storage.py:16-20 | "{{FOO}}-{{BAR}}" with FOO=abc and BAR=xyz gives "abc-xyz" |
| Config.Configure | storage.py:212-220 | settings exist iff the configuration has all of collection, host and token; they are the normalised collection, the host with trailing `/` stripped, and the token with its placeholders expanded; so the collection is normalised and the host is a prefix of the configured host without a trailing `/` |
| Directus.Decode | storage.py:94-127 | a body with `data` gives that data; any other body gives None; the call raises JsonDecodeError exactly when the body is not JSON and the branch logs it |
| Directus.ItemsStep | storage.py:244 | the item read never raises; it gives the stored ids when the backend answers JSON, and None otherwise |
| Directus.ExistsStep | storage.py:129-136 | `collectionExists` is true exactly when the backend answers JSON and holds the collection |
| Directus.FieldNames | storage.py:145-150 | the listing's `field` members, in order, one per entry |
| Directus.FieldsStep | storage.py:138-150 | `getFields` raises exactly when the answer is not JSON; otherwise it gives the listed names, which is the empty list when there is no listing |
| Directus.CreateCollectionStep | storage.py:163-176 | creating the collection raises exactly when the answer is not JSON; with JSON, the collection exists afterwards |
| Directus.CreateFieldStep | storage.py:178-197 | with no data type, AttributeError is raised and nothing is sent; otherwise one POST carries the type with "real" rewritten, the field is listed afterwards, and the call raises exactly when the answer is not JSON |
| Directus.PostItemStep | storage.py:103-127 | posting a row raises exactly when the answer is not JSON |
| Directus.ReplaceRealNoReal | storage.py:191 | a type name without "real" is unchanged by `replace('real', 'float')` |
| Directus.ReplaceRealHead | storage.py:191 | the rewrite is empty iff its input is; when the rewrite does not start with 'f', the first character is copied and the rest is rewritten |
| Directus.ReplaceRealComplete | storage.py:191 | no "real" is left after `replace('real', 'float')` |
| Directus.NoRealAfter | storage.py:191 | prefixing a text that has no "real" with characters that cannot start one leaves it without "real" |
| Directus.KindTypesUnchanged | storage.py:191 | the types "string", "integer", "float" and "timestamp" are sent as they are |
| Directus.NoRFree | storage.py:191 | a text with no 'r' before its last character holds no "real" |
| Directus.DirectusAPI.constructor | storage.py:57-68 | keeps the host, the token and the collection |
| Directus.DirectusAPI.ClearCache | storage.py:152-161 | sends exactly one cache-clear POST; the backend is unchanged |
| Directus.DirectusAPI.GetItems | storage.py:244 | sends the sorted item read and returns what ItemsStep gives |
| Directus.DirectusAPI.CollectionExists | storage.py:129-136 | sends the collection read and returns what ExistsStep gives |
| Directus.DirectusAPI.GetFields | storage.py:138-150 | sends the field read; the loop collects the names, as FieldsStep gives them |
| Directus.DirectusAPI.CreateCollection | storage.py:163-176 | sends the collection POST with the "timeline" icon, with the outcome CreateCollectionStep gives |
| Directus.DirectusAPI.CreateField | storage.py:178-197 | sends what CreateFieldStep gives, or nothing when it raises AttributeError |
| Directus.DirectusAPI.PostItem | storage.py:103-127 | sends the row to `items/<collection>`, with the outcome PostItemStep gives |
| Driver.MaxOf | storage.py:246 | `max` returns a member of the list that no member exceeds |
| Driver.NextRowId | storage.py:241-247 | the row id is 1 when there are no rows (or no listing); otherwise it is one past a stored id and larger than every stored id |
| Driver.NextRowIdOrderFree | storage.py:246 | the id depends only on which ids are stored, not on their order |
| Driver.NextRowIdExamples | storage.py:241-247 | ids [3, 7, 2] give 8; an empty or missing listing gives 1 |
| Driver.NextRowIdAfterStore | storage.py:241-247 | once the new id is stored, the next id is one larger |
| Driver.MissingCallsAbsent | storage.py:229-231 | no item call is planned for a name the remote list already has |
| Driver.MissingCallsAppend | storage.py:229-231 | the calls for a record are the calls for its first part followed by those for the rest |
| Driver.MissingCallsComplete | storage.py:229-231 | every item whose name is missing gets its call, including repeated names |
| Driver.MissingCallsNone | storage.py:229-231 | when every name is present, no item calls are planned |
| Driver.ReconcileTimestampFirst | storage.py:227-228 | the timestamp field is created, and created first, iff the remote list lacks it |
| Driver.ReconcileExample | storage.py:225-231 | the remote list is read once: with remote [a] and record [a, b, b], the calls are timestamp, b, b |
| Driver.RunCreatesStopped | storage.py:229-231 | once a call has raised, no later call is made |
| Driver.RunCreatesAppend | storage.py:229-231 | calls that returned are followed by the next calls, made from the backend state they left |
| Driver.RunCreatesTyped | storage.py:229-231 | against a JSON backend, typed calls all succeed; each sends its POST, and the listing gains their fields in order |
| Driver.RunCreatesUntyped | storage.py:231 | against a JSON backend, reaching a call with no data type raises AttributeError |
| Driver.RunCreatesIds | storage.py:229-231 | field creations leave the stored rows alone |
| Driver.RunCreatesOnlyFields | storage.py:229-231 | field creations send nothing but field POSTs |
| Driver.ReconcileRunParts | storage.py:225-231 | after a successful read, `_createMissingFields` is the timestamp call followed by the item calls |
| Driver.MissingStopped | storage.py:229-231 | after a raising call, the remaining items add nothing |
| Driver.MissingCallsNext | storage.py:229-231 | one more item adds its call after the earlier ones exactly when its name is missing |
| Driver.MissingCallsTyped | storage.py:229-231 | the item calls all carry a data type exactly when no GenericField has a missing name |
| Driver.PlanTyped | storage.py:225-231 | the whole plan, timestamp call included, is typed exactly when no GenericField has a missing name |
| Driver.Assign | storage.py:253-254 | the row's keys are the initial keys plus every item name |
| Driver.AssignLastWins | storage.py:253-254 | the last item with a given name decides that name's value |
| Driver.AssignKeeps | storage.py:251-254 | a key that no item names keeps its value |
| Driver.RowDataShape | storage.py:251-254 | the row's keys are id, timestamp and the item names; id and timestamp keep the injected values unless an item of that name overrides them; each name holds its last item's value |
| Driver.PreludeJson | storage.py:240-249 | against a JSON backend, `add` starts with cache clear, item read and existence check, creates the collection only when it is missing, and continues |
| Driver.FinishJson | storage.py:249-257 | against a JSON backend, when every planned call is typed, the remaining calls are field read, planned creations, row POST and cache clear; the listing gains the created fields and the row is stored |
| Driver.AddCallOrder | storage.py:233-257 | against a JSON backend, when every planned call is typed (GenericFields already listed are allowed), `add` sends its requests in this order: cache clear, item read, existence check, collection creation only when missing, field read, planned field creations, the row, cache clear; it returns normally |
| Driver.FieldNamesAppend | storage.py:145-150 | the names of a concatenated listing are the names of its parts, concatenated |
| Driver.PlanCovers | storage.py:225-231 | every missing name that the record or the timestamp needs has a planned call |
| Driver.PlanListed | storage.py:225-231 | after the planned calls, every name listed before, the timestamp and every item name are listed |
| Driver.AddReconciles | storage.py:233-257 | against a JSON backend, when every planned call is typed, afterwards the collection exists, "timestamp" and every item name are fields, and the new row id is stored unless an item named "id" replaced it |
| Driver.AddIdsConsecutive | storage.py:241-247 | when every planned call is typed, two successive adds with no "id" item get consecutive row ids |
| Driver.AddRaisesUntyped | storage.py:231-256 | against a JSON backend, a missing GenericField makes `add` raise AttributeError; no row is posted and no id is stored |
| Driver.AddNotJson | storage.py:240-249 | against a backend that does not answer JSON, `add` sends clear, item read, check and collection creation, then raises JsonDecodeError; the backend is unchanged |
| Driver.StorageDriver.constructor | storage.py:221-223 | keeps the configured collection, host and token, and the run's timestamp |
| Driver.StorageDriver.CreateMissingFields | storage.py:225-231 | sends and changes exactly what ReconcileRun gives, and ends the same way |
| Driver.StorageDriver.CreateEach | storage.py:229-231 | the loop makes one `createField` per missing item, in record order, and stops at the first exception |
| Driver.StorageDriver.BuildRow | storage.py:250-254 | the loop builds exactly the row RowData describes |
| Driver.StorageDriver.Add | storage.py:233-257 | sends and changes exactly what AddRun gives, and ends the same way |
| Driver.StorageDriver.FinishAdd | storage.py:249-257 | reconciles the fields, then builds the row, posts it and clears the cache; sends and changes exactly what Finish gives, and ends the same way |
| Driver.Open | storage.py:205-223 | there is no driver exactly when the configuration lacks a key; otherwise the driver holds the settings Configure gives |

## Left out

- HTTP transport is not modelled: URLs built from the host, the
  `_headers` property with the bearer token, `json.dumps`, redirects, and
  the exceptions `requests` raises for connection errors. Requests are
  modelled by endpoint and payload only.
- The Directus server is not part of this model. The fake backend in
  `Remote` stands for it. It answers JSON to every request, or to none. It
  accepts every write. It lists only rows whose `id` is an integer.
- Responses that are JSON but not an object (`responseJson['data']`
  raising TypeError) behave like JSON without `data`. Both are caught
  and give None.
- A listing entry without a `field` member (a KeyError in `getFields`)
  does not occur with the fake backend.
- The clock is not modelled: the timestamp is a parameter of the driver.
  The strftime format is not modelled.
- `sys.exit(1)` after an invalid configuration is `None` from `Open`.
  The log output (`Log.error`) is not modelled. log.py is not part of
  this model.
- `AbstractStorageDriver` is not modelled. It is an abstract base class,
  and `DirectusStorageDriver` does not call its `__init__`.
- `str(name)` and `str(value)` in `GenericField` are not modelled: names
  and values are strings already.
- Config.Lower: covers ASCII only. Python's `str.lower()` also lowers
  non-ASCII letters, and some of them change the length.
- Config.ParseToken: `\s` and `\w` are taken on ASCII only. Python's
  Unicode classes are wider.
- Driver.MaxOf: the ids are integers. Comparing an integer id with ids
  of another type is not modelled.
- Concurrent adds (two drivers picking the same id) are not modelled.
- test.py, a TLS 1.3 connection check against one Directus host, is not part of this model.

# prisma-client-py generator fields and stdlib transport, in Dafny

This project models two parts of the Python database client generator.

**Type annotations derived from schema fields** (`prisma/generator/models.py`, module
`GeneratorModels` in `generator_models.dfy`). The schema compiler describes each field of
each model. From that description the generator derives the Python annotation strings it
emits:

- the element annotation (`_actual_python_type`);
- the plain annotation (`python_type`) and its quoted form (`python_type_as_string`);
- the create-input, where-input, update-input and relational-args annotations;
- the flags `is_optional`, `required_on_create` and `is_atomic`.

A model's field list is split into relational, scalar and atomic fields, and its related
models are looked up by name. The lookup tables `ATOMIC_FIELD_TYPES`, `TYPE_MAPPING` and
`FILTER_TYPES` are the constants `AtomicFieldTypes`, `TypeMapping` and `FilterTypes`. Each
exception the source raises is an `Err` value of a `Result`:

- `UnknownType(name, type)` is the `RuntimeError` for a type missing from the mapping;
- `NotAtomic` is the `TypeError` of `atomic_type`.

Three behaviours of the source are kept as they are written:

- `FILTER_TYPES` spells the date type `Datetime`, while the mapping's key is `DateTime`. So a
  `DateTime` field never gets a filter union (`DateTimeHasNoFilter`). A scalar field typed
  `Datetime` passes the filter test but then fails the mapping lookup (`DatetimeFilterFails`).
- `where_input_type` builds the filter union from the element annotation, not from
  `python_type`. So a list field whose type is in the filter list gets the union of its
  element type, with no `List[...]` (`WhereIgnoresList`, `StringListWhereIsElement`).
- `atomic_type` wraps `python_type` in `List[...]` for list fields. `python_type` is already
  a list there, so the result is `List[List[<element>]]` (`AtomicListIsDoubleWrapped`).

Python truthiness of `relation_name` is modelled as `HasRelation`: the name is set and is
not empty. The process-wide `data_ctx` context variable, which `related_models` reads, is
replaced by the list of the schema's models passed as a parameter.

**Connection table of the standard-library transport** (`prisma/_stdlib_http.py`, module
`StdlibHttp` in `stdlib_http.dfy`). A `Session` object holds a map from `(netloc, scheme)`
to a connection, updated in place:

- a hit returns the stored connection;
- a miss with scheme `http` or `https` stores a new connection under the key;
- any other scheme raises.

`Session.close` closes every stored connection and keeps the keys. The client `Http` opens
a fresh session and closes it at most once; closing an already closed client does nothing.
Connections are objects that record their host, whether they use TLS and whether they were
closed. The socket work itself is foreign. The status code a server answers is a parameter
of `Request`. The parsed URL is a parameter too, because `urlparse` is foreign.

## Model

| member | source | states |
|---|---|---|
| `GeneratorModels.MappedTypesArePlain` | prisma/generator/models.py:17-24 | no annotation in the type mapping is quoted, a `List[...]` or a `Union[...]` |
| `GeneratorModels.ActualPythonType` | prisma/generator/models.py:284-298 | fails with `UnknownType(name, type)` exactly when the kind is neither enum nor object and the type is not in the mapping; an enum gives the quoted `types.<T>Enum` and an object the quoted `models.<T>` (stated as prefix, suffix and length); any other kind gives the mapping entry of its own type; a leading quote marks exactly the enum and object cases |
| `GeneratorModels.PythonType` | prisma/generator/models.py:265-270 | fails exactly when the element annotation fails; a non-list field's annotation is the element annotation itself; unwrapping `List[...]` from a list field's annotation gives the element annotation, and from a non-list one gives nothing; never a `Union[...]` |
| `GeneratorModels.EscapeQuotes` | prisma/generator/models.py:276 | the escaped text never begins with a bare `'`, and, read from the left, every `'` in it is the second half of a `\'` pair |
| `GeneratorModels.UnescapeEscape` | prisma/generator/models.py:276 | undoing the `\'` escape gives the original text back |
| `GeneratorModels.PythonTypeAsString` | prisma/generator/models.py:272-282 | fails exactly when the element annotation fails, with the same error; the result always begins and ends with a single quote; for list fields it begins with `'List[` and every inner `'` is escaped |
| `GeneratorModels.AsStringDenotesPythonType` | prisma/generator/models.py:272-282 | the quoted form denotes `python_type`: for lists, unquoting and undoing the `\'` escape gives it back; for enum and object elements it is `python_type` itself; for mapped scalars unquoting gives it back |
| `GeneratorModels.RelationCreateInput` | prisma/generator/models.py:305-308 | a quoted name that starts with `<T>Create`, ends with `NestedWithoutRelationsInput`, starts with `<T>CreateMany` exactly for list fields, and has exactly the length of `<T>Create[Many]NestedWithoutRelationsInput` |
| `GeneratorModels.CreateInputType` | prisma/generator/models.py:300-308 | equals `python_type` for every kind except object; for object kind it never fails and is the nested-create input |
| `GeneratorModels.WhereInputType` | prisma/generator/models.py:310-315 | equals `python_type` for types not in the filter list; for listed types it fails exactly when the element annotation fails, with the same error, and is `Union[<element annotation>, 'types.<T>Filter']` (stated as prefix, suffix and length); a result is a `Union[...]` exactly when the type is in the filter list |
| `GeneratorModels.WhereIgnoresList` | prisma/generator/models.py:312-314 | for a type in the filter list the where annotation is the same for list and non-list fields, since it is built from the element annotation |
| `GeneratorModels.StringListWhereIsElement` | prisma/generator/models.py:312-314 | a list-of-strings field's where annotation is `Union[str, 'types.StringFilter']` while its `python_type` is `List[str]` |
| `GeneratorModels.DateTimeHasNoFilter` | prisma/generator/models.py:310-315 | a scalar `DateTime` field gets its plain annotation as its where annotation, never a filter union |
| `GeneratorModels.DatetimeFilterFails` | prisma/generator/models.py:17-25 | a scalar field typed `Datetime` is in the filter list but not in the mapping, so its where annotation fails with `UnknownType` |
| `GeneratorModels.RelationalArgsType` | prisma/generator/models.py:317-321 | ends with `<T>Args`, begins with `FindMany` for list fields, and has exactly the length of that name |
| `GeneratorModels.IsOptional` | prisma/generator/models.py:346-348 | a field that is not required, or that has a relation name, is optional; an optional field is one of those |
| `GeneratorModels.RequiredOnCreate` | prisma/generator/models.py:337-344 | required on create exactly when not optional, not `@updatedAt` and without a default; so it implies required and no relation name |
| `GeneratorModels.IsAtomic` | prisma/generator/models.py:350-352 | a field is atomic exactly when its type is Int, Float or Boolean |
| `GeneratorModels.AtomicType` | prisma/generator/models.py:354-362 | fails with `NotAtomic` exactly when the type is not Int, Float or Boolean; otherwise `python_type` succeeds; a non-list field's result is `python_type` itself, and unwrapping one `List[...]` from a list field's result gives `python_type` |
| `GeneratorModels.AtomicListIsDoubleWrapped` | prisma/generator/models.py:359-360 | for an atomic list field, unwrapping `List[...]` twice gives the element annotation |
| `GeneratorModels.AtomicUpdateInput` | prisma/generator/models.py:365-366 | begins with `Union['<model>Update<name>Input', `, ends with the atomic annotation and `]`, and has exactly the length of the two together |
| `GeneratorModels.RelationUpdateInput` | prisma/generator/models.py:368-371 | a quoted name that starts with `<T>Update` and ends with `WithoutRelationsInput`; it starts with `<T>UpdateMany` exactly for list fields and with `<T>UpdateOne` exactly for the others; it has exactly the length of `<T>Update{Many,One}WithoutRelationsInput` |
| `GeneratorModels.UpdateInputType` | prisma/generator/models.py:364-373 | atomic fields get the atomic union, whatever their kind; other object fields get the relation update input; all others get `python_type` |
| `GeneratorModels.RelationalFields` | prisma/generator/models.py:222-226 | keeps exactly the fields with a relation name |
| `GeneratorModels.ScalarFields` | prisma/generator/models.py:228-232 | keeps exactly the fields without a relation name |
| `GeneratorModels.AtomicFields` | prisma/generator/models.py:234-238 | keeps exactly the fields whose type is atomic |
| `GeneratorModels.RelationalScalarPartition` | prisma/generator/models.py:222-232 | relational and scalar fields, each in its own order, merge back into exactly the model's field list |
| `GeneratorModels.RelationalScalarExactlyOnce` | prisma/generator/models.py:222-232 | every field is counted once among relational and scalar fields together, and their lengths add up to the model's |
| `GeneratorModels.AtomicFieldsInOrder` | prisma/generator/models.py:234-238 | the atomic fields are a subsequence of the model's fields, in the same order |
| `GeneratorModels.AtomicFieldsCount` | prisma/generator/models.py:234-238 | each atomic field is kept exactly as often as it occurs in the model's fields, and every other field is dropped |
| `GeneratorModels.ModelsNamed` | prisma/generator/models.py:218-220 | keeps exactly the models whose name is the field's type |
| `GeneratorModels.ModelsNamedCount` | prisma/generator/models.py:218-220 | a model with that name is kept as often as it occurs; any other model is dropped |
| `GeneratorModels.ModelsOfFields` | prisma/generator/models.py:217-220 | yields exactly the listed models named by the type of some field |
| `GeneratorModels.ModelsOfFieldsCount` | prisma/generator/models.py:217-220 | each field contributes every occurrence of the model its type names |
| `GeneratorModels.RelatedModels` | prisma/generator/models.py:214-220 | yields exactly the listed models named by the type of some relational field of the model |
| `GeneratorModels.RelatedModelsCount` | prisma/generator/models.py:214-220 | a model is yielded once per relational field whose type names it, times its occurrences in the model list |
| `StdlibHttp.RaisesOutside2xx` | prisma/_stdlib_http.py:38-40 | the status check raises exactly when it was asked for and the status is outside the 2xx class |
| `StdlibHttp.Session.constructor` | prisma/_stdlib_http.py:17-22 | a new session has an empty connection table |
| `StdlibHttp.Session.GetConnection` | prisma/_stdlib_http.py:44-62 | a hit returns the stored connection and leaves the table alone; a miss on http or https adds exactly one fresh open connection under the key, for that host and TLS exactly for https, and returns it; a miss on another scheme raises `UnexpectedScheme` and leaves the table alone; the table stays well-formed |
| `StdlibHttp.Session.Request` | prisma/_stdlib_http.py:24-42 | the table is unchanged on a hit or an unsupported scheme and gains exactly one fresh, open connection under the URL's key on a supported miss; an unsupported miss raises `UnexpectedScheme`; when a connection is found or opened, it raises `BadStatus(status)` exactly when the check was asked for and the status is not 2xx, and otherwise returns a response with that status |
| `StdlibHttp.Session.Close` | prisma/_stdlib_http.py:64-66 | every stored connection is closed and no key is removed |
| `StdlibHttp.Http.constructor` | prisma/_stdlib_http.py:98 | a new client is closed |
| `StdlibHttp.Http.Open` | prisma/_stdlib_http.py:91-92 | the client holds a fresh session with an empty table |
| `StdlibHttp.Http.Close` | prisma/_stdlib_http.py:86-89 | closing a closed client changes nothing; otherwise every connection of the session is closed and the client is closed, so a second close does nothing |
| `StdlibHttp.Http.Request` | prisma/_stdlib_http.py:83-84 | a closed client fails with `ClientClosed`; otherwise the session's table changes exactly as in the session's request (one fresh, open connection on a supported miss), it fails on an unknown scheme exactly as the session does, and it applies the session's status check |
| `StdlibHttp.Http.Download` | prisma/_stdlib_http.py:77-81 | a closed client fails with `ClientClosed`; otherwise the table changes as in a request (one fresh, open connection on a supported miss), it raises `UnexpectedScheme` exactly on an unsupported miss, and otherwise it asks for the status check: `BadStatus(status)` outside 2xx, a response with that status inside it |

## Left out

- `Field.python_case`: not modelled. It calls the case-conversion helpers of `prisma/generator/utils.py`, which is not part of this model, and reads the generator config from the process-wide context.
- `Config.http_matches_installed_library`, and the adapter choice in `prisma/http.py`: not modelled. They depend on which Python libraries are installed.
- `Module.spec_validator`, `Module.run` and `Config.partial_type_generator_converter`: not modelled. They look up files and run Python modules.
- `Data.parse_obj`, the `data_ctx` context variable and pydantic parsing, aliases and validation: not modelled. Entities are built directly as Dafny values, and the model list is an explicit parameter.
- `Field.default`: `DefaultValue.args` (typed `Any`) is not modelled. No derived annotation reads the default.
- Socket, request and response I/O: the method, path, body and headers of `Session.request` are not modelled. Nor is the body of `Response.json`, `text` and `raw`, or the file write of `HTTP.download`. They are calls into `http.client` and the file system.
- `Session.__del__` and `HTTP.__del__`: not modelled. These finalizers only call `close`, at a time the garbage collector picks.
- `StdlibHttp.Http.constructor`, `StdlibHttp.Http.Request`: the base class `AbstractHTTP` in `prisma/http_abstract.py` is not part of this model. Its `closed` property is taken to mean "holds no session", and a new client is taken to be closed. A request on a closed client is modelled as the error `ClientClosed`; in the source it fails when it uses the missing session.
- `GeneratorModels.UnescapeEscape`, `GeneratorModels.AsStringDenotesPythonType`: they undo only the `\'` escape that `python_type_as_string` adds. The source does not escape backslashes, so a Python reader of the literal would also turn `\\` into `\`. The two readings agree on every element annotation the mapping, enum names or model names produce when those names hold no backslash, as schema identifiers do.
- `src/prisma/_httpx_async_http.py`: not modelled. It is an asynchronous wrapper over httpx plus event-loop cleanup.
- The integration tests and `tests/test_client.py`: not modelled. They run against a live database.

# Citizen-request router — Dafny model

The repository holds three versions of a router that sends a citizen's free-text request
to one of six city departments by asking an LLM (GigaChat) and interpreting its reply:

- `project02_task01.py` asks for a bare department name. The stripped reply is accepted
  only if it is exactly one of the six registry names; anything else, an oracle
  exception included, becomes the sentinel `"Не определено"`.
- `project02_task02.py` asks for a JSON object. `request_topic` and `target_department`
  are copied verbatim into a `CitizenRequest` record stamped with the current time; any
  failure gives the fixed record (`"Не удалось определить тему"`, `"Не определено"`).
- `project02_task03.py` does the same and also stores every record, fallback or not,
  through `JsonSaveTool`. This tool reads the JSON array in `requests.json` (a missing or
  undecodable file counts as empty), appends one element and rewrites the file. It never
  raises.

The model is functional. The oracle is a function from prompt arguments to a reply
(`Answer(text) | Failure`). The JSON decoder is a function from text to a decode outcome
(`Parsed(value) | NotJson`). The timestamp is an opaque string. The file is an abstract
state: missing, unreadable, undecodable, or holding a JSON value.

Modules: `Text` (Python's `str.strip()`), `Options`, `JsonValues`, `Departments`, `Oracle`,
`LabelRouter` (first version), `CitizenRequests` (the record), `StructuredRouter` (second
version), `RecordStore` (`JsonSaveTool`), `PersistingRouter` (third version).

Three behaviours of the code that the model keeps:

- In the structured versions, `target_department` is not checked against the registry.
  A well-formed object naming an unknown department is routed to it as given: a
  department outside the registry is not rejected.
- A store failure is not propagated. `classify_request` ignores what `_run` returns, so
  the record is returned even when nothing was stored.
- Besides a missing or undecodable file, the store also meets a file holding valid JSON
  that is not an array. `append` then fails, `_run` reports an error, and the file is not
  rewritten. The same happens for a read error other than a missing file.

## Model

| member | source | states |
|---|---|---|
| Text.Strip | project02_task01.py:66 | the stripped text neither starts nor ends with white space, is no longer than the input, and is empty exactly when the input is all white space |
| Text.StripUnique | project02_task01.py:66 | any cut of the text that has only white space outside it and starts and ends with a non-space character is exactly what `strip()` returns |
| Text.StripPadded | project02_task01.py:66 | white space added on either side of an already trimmed text is removed, and nothing more is removed |
| Text.StripIdempotent | project02_task01.py:66 | stripping an already stripped reply changes nothing |
| Text.StripLeavesTrimmed | project02_task01.py:66 | a text that starts and ends with a non-space character is left unchanged by `strip()` |
| Departments.RegistryWellFormed | project02_task01.py:13-20 | the registry has six distinct names, the sentinel `"Не определено"` is not one of them, and every name is already trimmed |
| Oracle.PromptFor | project02_task01.py:62-65 | the department list passed to the prompt contains exactly the registry names, and the request text is passed through |
| LabelRouter.InterpretLabel | project02_task01.py:66-75 | the result is always a registry name or the sentinel; it is a registry name exactly when the reply succeeded and its stripped text is one, and then it equals that stripped text |
| LabelRouter.ClassifyRequest | project02_task01.py:61-75 | the result is always a registry name or the sentinel, and an oracle failure gives the sentinel instead of being raised |
| LabelRouter.PaddedDepartmentAccepted | project02_task01.py:66-70 | a reply made of a department name with white space around it is routed to that name, unchanged |
| LabelRouter.PromptAndValidationAgree | project02_task01.py:62-70 | a request is routed to one of the departments offered in the prompt exactly when the stripped reply is one of them, and then to that one |
| LabelRouter.UnlistedReplyUnresolved | project02_task01.py:69-71 | a trimmed reply that is not a registry name gives the sentinel |
| LabelRouter.FreeTextUnresolved | project02_task01.py:69-71 | the free-text reply "дороги плохие" gives the sentinel |
| LabelRouter.CaseMismatchUnresolved | project02_task01.py:69-71 | a department name written in lower case gives the sentinel, because matching is case-sensitive |
| LabelRouter.ContainingDepartmentUnresolved | project02_task01.py:69-71 | a reply that contains a department name inside longer text gives the sentinel; there is no substring matching |
| LabelRouter.SentinelReplyUnresolved | project02_task01.py:69-71 | a reply of the sentinel itself gives the sentinel |
| LabelRouter.PotholesRoutedToTransport | project02_task01.py:61-70 | the potholes request whose reply is "Департамент транспорта" plus a newline is routed to the transport department |
| JsonValues.StringField | project02_task02.py:87-88 | `data[key]` gives a string field value exactly when the data is an object whose key holds a JSON string |
| CitizenRequests.Fallback | project02_task02.py:95-99 | the fallback record carries the current timestamp, the fixed topic "Не удалось определить тему" and the sentinel "Не определено", which is not a registry name |
| CitizenRequests.Dump | project02_task03.py:25-29 | `model_dump()` is an object with exactly the keys `request_date`, `request_topic` and `target_department`, each holding the string of the field of that name |
| CitizenRequests.Load | project02_task02.py:24-28 | a stored value validates as a record exactly when it is an object whose three field keys hold strings, and the record's dump agrees with it on those keys |
| CitizenRequests.LoadDump | project02_task03.py:25-29 | a dumped record validates back to the same record, field for field |
| StructuredRouter.Extract | project02_task02.py:85-89 | a record is built exactly when both `request_topic` and `target_department` hold strings, and it is stamped with the current time |
| StructuredRouter.DecodedReply | project02_task02.py:81-82 | the decoder sees the stripped reply text, and an oracle failure never reaches it |
| StructuredRouter.Interpret | project02_task02.py:81-99 | every path returns a record stamped with the current time, either the fallback record or the one built from the decoded object |
| StructuredRouter.ClassifyRequest | project02_task02.py:74-99 | a record is returned on every path, stamped with the current time, and an oracle failure gives the fallback record |
| StructuredRouter.FieldsCopiedVerbatim | project02_task02.py:81-89 | when the stripped reply decodes to an object with both keys holding strings, the record holds exactly those two strings |
| StructuredRouter.FailuresFallBack | project02_task02.py:93-99 | an oracle error, undecodable text, a non-object value, a missing key or a non-string field each give the fallback record |
| StructuredRouter.OtherKeysIgnored | project02_task02.py:87-88 | two objects that agree on the two read keys give the same record, whatever other keys they hold |
| StructuredRouter.UnknownDepartmentPassesThrough | project02_task02.py:88 | a department outside the registry is accepted as given; there is no membership check |
| StructuredRouter.DepartmentOrigin | project02_task02.py:85-99 | the returned record is the fallback, or its topic and department are exactly the strings of the decoded object |
| StructuredRouter.ExtractDump | project02_task02.py:85-89 | reading a dumped record as a reply object, at its own timestamp, yields that record |
| StructuredRouter.PotholesTopicVerbatim | project02_task02.py:81-91 | the potholes reply in JSON keeps the topic "Ямы на дороге" verbatim and the department as given |
| StructuredRouter.NonObjectFallsBack | project02_task02.py:82-88 | a reply decoding to a JSON array or a JSON string builds no record |
| RecordStore.LoadExisting | project02_task03.py:36-42 | a missing or undecodable file loads as the empty list, other read errors are raised, and a decodable file loads as its value |
| RecordStore.ExistingList | project02_task03.py:53-65 | the list to append to exists exactly when the file loads as a JSON array |
| RecordStore.SaveData | project02_task03.py:44-47 | when the file can be opened for writing, it then holds exactly the given list |
| RecordStore.RequestData | project02_task03.py:56-62 | a structured input is stored as it is, a string input is stored as its decoded value, and an undecodable string is replaced by the keyword arguments |
| RecordStore.Run | project02_task03.py:49-72 | it saves exactly when the file loads as a list and can be written, and then the new list is the old one plus the one new element; otherwise it reports the cause and leaves the file unchanged |
| RecordStore.Message | project02_task03.py:70-72 | a saved run returns the success message, and a failed one returns the error prefix followed by the exception text |
| RecordStore.AppendKeepsEarlierElements | project02_task03.py:53-68 | after a saved run the list is one element longer, the earlier elements are unchanged and in order, and the new element is last |
| RecordStore.MalformedBecomesSingleton | project02_task03.py:41-68 | appending to an undecodable file succeeds and leaves a list holding only the new element |
| RecordStore.RunAllAppends | project02_task03.py:49-72 | a series of saved runs leaves the old elements followed by all new ones, in call order |
| PersistingRouter.ClassifyRequest | project02_task03.py:111-154 | the returned record is the structured router's record, stamped with the current time; exactly its dump is appended when the store can take it, and otherwise the store is unchanged |
| PersistingRouter.StoredRecordReadsBack | project02_task03.py:139-154 | after a call, the earlier stored elements are unchanged and the one new last element validates back to the returned record |
| PersistingRouter.OracleFailureStoresFallback | project02_task03.py:143-154 | an oracle failure still stores the fallback record and returns it |
| PersistingRouter.StoreFailureSwallowed | project02_task03.py:139-152 | when the file holds JSON that is not an array, the record is still returned and the file is left as it was |

## Left out

- The GigaChat/LangChain call and `PromptTemplate` rendering. The oracle is a function of the template arguments (mode, department list, request). Credentials, SSL settings and `load_dotenv` are not modelled.
- `json.loads` and `json.dump`. Decoding is a function supplied by the caller, and the file holds an abstract JSON value. JSON numbers are reals, and duplicate keys are the decoder's concern.
- A reply whose `content` is not a string, which makes `.strip()` raise. The reply carries text or fails as a whole, and both paths end in the same fallback.
- `datetime.now()`. The timestamp is one opaque parameter. The source reads the clock again on the fallback path, so two readings could differ.
- File I/O details: the file name, UTF-8 encoding and indentation. A write that fails after the file was opened, leaving it truncated, is not modelled. A write failure is modelled as the file failing to open, which leaves it unchanged.
- Pydantic validation beyond "each field must be a JSON string".
- The interactive `main()` loops, console output, the `exit` command, `KeyboardInterrupt` handling and the rejection of empty input. These belong to the shell around the core.
- RecordStore.RunAll: only used to state RunAllAppends. It assumes every write succeeds and every input is a structured value.

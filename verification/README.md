# Ollama Vision, modelled in Dafny

A model of the core of the `ollama_vision` Home Assistant integration:

- the Ollama client (`api.py`): how it builds its endpoint URLs, acquires image bytes from an internal URL, an external URL or a local file, sends one streaming generate request, decodes the newline-delimited JSON reply, and elaborates a description with an optional text model;
- the integration setup (`__init__.py`): how a config entry's `data` and `options` resolve to client settings, including the legacy host/port fold; what an entry stores in the shared domain data; the `analyze_image` service, which chooses an entry, chooses or rebuilds a client, analyzes, elaborates, stores the result for the sensors and fires its events; and entry unload;
- the sensor platform (`sensor.py`): the information sensors, the image sensors and how they find their pending record, the creation event, and the re-creation of image sensors after a restart.

The modules follow the program:

- `Python` holds the parts of Python's value model the decisions depend on: dynamic values, truthiness, `or`, `dict.get`, `str.rstrip`, `str.startswith`, `str.replace`, `split`, and insertion-ordered dicts.
- `Ndjson` models `_collect_ndjson`.
- `Client` models `OllamaClient`.
- `Settings` models value resolution.
- `Registry` models `hass.data["ollama_vision"]`, entry setup and unload.
- `Sensor` models the sensor platform.
- `Prompt` models `str.format` with the single field `description`.
- `Service` models `handle_analyze_image`.

Some things are parameters rather than code:

- The network, the file system, `json.loads` and the Home Assistant configuration are the fields of a `Client.World`.
- `str()`, `slugify` and base64 are the fields of a `Python.Lib`.
- The sampling parameters' config keys, service attribute names and defaults are a `Settings.Names` record, because the integration imports them from a constants module that does not define them.

## Model

| member | source | states |
|---|---|---|
| Python.RStrip | custom_components/ollama_vision/api.py:230 | the result is a prefix of the line, does not end in a newline, and only newlines were removed |
| Python.AfterFirst | custom_components/ollama_vision/sensor.py:60 | `split('.', 1)[1]` raises exactly when there is no '.', and otherwise returns what follows the first '.' |
| Python.Put | custom_components/ollama_vision/__init__.py:397 | dict assignment: the key maps to the new value, other keys are unchanged, and a new key goes last in iteration order |
| Python.Remove | custom_components/ollama_vision/__init__.py:447-448 | `pop` leaves the key absent, every other key's value unchanged, and the remaining keys in their order |
| Python.Replace | custom_components/ollama_vision/api.py:192 | `str.replace` with a pattern equal to its replacement, or longer than the string, returns the string unchanged |
| Python.ReplaceFirst | custom_components/ollama_vision/__init__.py:393 | `replace(pat, rep, 1)` on a string that starts with the pattern swaps that prefix for the replacement; a pattern that never occurs, or a replacement equal to it, changes nothing |
| Python.ReplaceWithoutOccurrence | custom_components/ollama_vision/api.py:192 | `str.replace` of a pattern that does not occur changes nothing |
| Python.ReplaceAfterBraceFreePrefix | custom_components/ollama_vision/api.py:192 | replacement passes over a brace-free prefix and replaces the `{`-led pattern that follows it |
| Ndjson.Classify | custom_components/ollama_vision/api.py:230-242 | a line is blank exactly when it is whitespace once trailing newlines are stripped; it is skipped as malformed exactly when `json.loads` fails; it is an object line exactly when it parses to a dict, and then it carries that dict's `done` (None when absent) and its `response` value, or nothing when the key is absent |
| Ndjson.Join | custom_components/ollama_vision/api.py:249 | `"".join` succeeds exactly when every part is a string |
| Ndjson.JoinAppend | custom_components/ollama_vision/api.py:249 | joining two lists is joining each and concatenating, and it raises if either does |
| Ndjson.Consumed | custom_components/ollama_vision/api.py:229-247 | the loop reads up to and including the first record whose `done` is `true`, or the whole body; no earlier line stops it |
| Ndjson.CollectParts | custom_components/ollama_vision/api.py:228-247 | the collected parts are never more than the lines, and collection raises only when some line is JSON but not an object |
| Ndjson.Decode | custom_components/ollama_vision/api.py:220-249 | an empty body decodes to the empty string, and every body decodes to its independent description `Expected` |
| Ndjson.CollectPartsIsConsumedFragments | custom_components/ollama_vision/api.py:228-247 | the collected parts are the `response` fragments of the consumed object lines in arrival order, or a raise if a consumed line is JSON but not an object |
| Ndjson.DecodeIsExpected | custom_components/ollama_vision/api.py:220-249 | the decoder equals its independent description: it raises if a consumed line is not an object, else it joins the consumed fragments |
| Ndjson.SkippedLineIgnored | custom_components/ollama_vision/api.py:231-239 | inserting a blank or malformed line anywhere leaves the result unchanged |
| Ndjson.CollectSkippedLineIgnored | custom_components/ollama_vision/api.py:231-239 | the same, for the list of collected parts |
| Ndjson.LinesAfterStopIgnored | custom_components/ollama_vision/api.py:245-247 | whatever follows the first stop record has no effect; the stop record's own fragment is kept |
| Ndjson.CollectLinesAfterStopIgnored | custom_components/ollama_vision/api.py:245-247 | the same, for the list of collected parts |
| Ndjson.DecodeAppend | custom_components/ollama_vision/api.py:229-249 | before any stop, decoding a body in two pieces concatenates the two results, and a raise in either is a raise of the whole |
| Ndjson.CollectAppend | custom_components/ollama_vision/api.py:229-247 | before any stop, the parts of two pieces are the first piece's parts followed by the second's |
| Ndjson.OnlyTrueStops | custom_components/ollama_vision/api.py:246 | a `done` that is anything but the boolean `true` (false, missing, 1, "true") does not stop the stream |
| Ndjson.NonStringResponseRaises | custom_components/ollama_vision/api.py:242-249 | a consumed `response` that is not a string makes the decoder raise |
| Ndjson.CollectNdjson | custom_components/ollama_vision/api.py:228-249 | the loop with its `break` computes exactly the decoder's result and its independent description |
| Client.NewClient | custom_components/ollama_vision/api.py:15-41 | text is enabled exactly when the text host is not None; both base URLs are `http://host:port/api`; models and keep-alives are stored as given |
| Client.NoSchemeDetection | custom_components/ollama_vision/api.py:32 | the host goes into the URL verbatim, so a host that already has a scheme gets a second one |
| Client.EmptyTextHostEnablesText | custom_components/ollama_vision/api.py:34 | an empty-string text host still enables the text side; only None disables it |
| Client.SourceOf | custom_components/ollama_vision/api.py:51-100 | a reference starting with `/api` is internal; otherwise one starting with `http://` or `https://` is external; anything else is a local path |
| Client.AccessFor | custom_components/ollama_vision/api.py:51-102 | internal images are fetched from the internal URL with its trailing slashes stripped; external images from the URL itself; local ones from the configuration path; an unset internal URL means no access |
| Client.FetchImage | custom_components/ollama_vision/api.py:48-131 | image bytes are returned exactly for a 200 reply whose body reads, or a file that exists and reads; every other outcome yields nothing |
| Client.ReplyText | custom_components/ollama_vision/api.py:163-172 | a reply yields text exactly when it is a 200 whose body decodes, and the text is the decoded body |
| Client.AnalyzeImage | custom_components/ollama_vision/api.py:43-176 | a request is sent exactly when non-empty image bytes were obtained; it carries this client's model, the prompt, exactly the one base64 image, streaming and the vision keep-alive; the result is the decoded reply, and there is no result without a request |
| Client.AnalyzeNon200IsNone | custom_components/ollama_vision/api.py:166-169 | a non-200 generate reply yields no description whatever its body |
| Client.AnalyzeKeepsEmptyText | custom_components/ollama_vision/api.py:171-172 | an empty decoded reply is returned as the empty description, not as a failure |
| Client.ElaborateText | custom_components/ollama_vision/api.py:181-218 | without a text side the input passes through with no request; with one, a single request with no images whose prompt has every `{description}` replaced by the input; the result is the non-empty decoded reply, else the input |
| Client.ElaborationNeverEmpties | custom_components/ollama_vision/api.py:208-218 | elaboration of a non-empty text never returns the empty string |
| Settings.DataOrOptions | custom_components/ollama_vision/__init__.py:117-127 | a truthy stored `data` value wins; a falsy one is passed over for the `options` value or the default |
| Settings.Layered | custom_components/ollama_vision/__init__.py:327-332 | the first layer where the key is present wins, whatever its value: call data, then options, then data, then the default |
| Settings.PrecedenceRulesDiffer | custom_components/ollama_vision/__init__.py:125-135 | the two precedence rules disagree on a falsy stored value: it is passed over by one and kept by the other |
| Settings.SamplingFor | custom_components/ollama_vision/__init__.py:130-135 | every sampling parameter of a side is resolved by the layered rule under its own names |
| Settings.DefaultSampling | custom_components/ollama_vision/__init__.py:146-151 | every sampling parameter of a disabled text side is its default |
| Settings.MigrateHost | custom_components/ollama_vision/__init__.py:121-123 | a legacy pair (truthy port; non-empty host string without ':' not starting with "http") folds to `host:port` with port None; any other pair is unchanged; with a truthy port and host it raises when the host is neither a string, a list nor a dict (at the `in` test), and also when it is a list or dict without ':' (at `startswith`) |
| Settings.MigrateHostIdempotent | custom_components/ollama_vision/__init__.py:121-123 | folding an already folded pair changes nothing |
| Settings.FoldedPortRendersAsNone | custom_components/ollama_vision/__init__.py:121-123 | after the fold, the client's base URL is `http://host:port:None/api` |
| Settings.ColonAbsent | custom_components/ollama_vision/__init__.py:121 | `':' not in host` is decided for strings, lists and dicts, and for a string it holds exactly when no character is a colon; any other host raises |
| Settings.Resolve | custom_components/ollama_vision/__init__.py:117-171 | host and port are the folded values; model and keep-alives follow the falsy-skipping rule; sampling follows the layered rule; a disabled text side is reset to None and the defaults whatever is stored; resolution raises exactly when a fold raises |
| Settings.ClientOf | custom_components/ollama_vision/__init__.py:173-178 | the client built from resolved settings has a text side exactly when the text host is not None |
| Settings.OverrideWins | custom_components/ollama_vision/__init__.py:327-362 | a sampling value in the service call beats options, data and default on an enabled side |
| Settings.DisabledTextPassesThrough | custom_components/ollama_vision/__init__.py:138-153 | with the text model disabled, the entry's client elaborates nothing and sends nothing |
| Registry.ClientKeys | custom_components/ollama_vision/__init__.py:271-274 | the keys that pass the "client" filter are the entry ids, plus a bucket only when it happens to hold the key "client" |
| Registry.SetupEntry | custom_components/ollama_vision/__init__.py:115-226 | setup stores the entry's record (client, no sensors, resolved config) and touches no other entry or bucket; it asks for the removal of the id `ollama_vision_<entry>_text_info` exactly when the text model is disabled, and for no removal otherwise; a new entry goes last in key order and a re-setup keeps its place; it raises exactly when resolution does |
| Registry.Unload | custom_components/ollama_vision/__init__.py:432-461 | nothing changes unless the platforms unloaded; the service is removed exactly when at most one key passes the "client" filter; the entry and its pending bucket go; the remaining entries keep their order; exactly the sensors whose id starts with the entry id and '_' are forgotten; all else is kept |
| Registry.FirstEntryIsOnlyClientKey | custom_components/ollama_vision/__init__.py:108-113 | after `async_setup` leaves only the two buckets, the first entry set up is the only key passing the "client" filter |
| Registry.UnloadUndoesSetup | custom_components/ollama_vision/__init__.py:446-448 | unloading right after setting up an entry that was not loaded restores every entry lookup |
| Registry.ServiceKeptWhileAnotherEntryLoaded | custom_components/ollama_vision/__init__.py:439-444 | with two entries loaded, unloading one keeps the service |
| Registry.UnloadKeepsOtherEntrySensors | custom_components/ollama_vision/__init__.py:453-459 | when entry ids hold no underscore, unloading one entry keeps every other entry's image sensors |
| Registry.UnloadForgetsExtendingEntrySensors | custom_components/ollama_vision/__init__.py:453-459 | the prefix test alone forgets sensor "a_b_x" of an entry "a_b" when entry "a" unloads |
| Sensor.ImageUniqueId | custom_components/ollama_vision/sensor.py:164 | an image sensor's id is the entry id, '_', and then exactly the slug of the image name |
| Sensor.NewImageSensor | custom_components/ollama_vision/sensor.py:149-170 | the constructor raises exactly when the entry has no record; otherwise the sensor has the id `entry_slug`, the name `config-name slug`, no state and no attributes, and it replaces whatever the created map held under that id |
| Sensor.FirstSlugMatch | custom_components/ollama_vision/sensor.py:182-185 | the first key in insertion order whose slug matches, or -1 when none does |
| Sensor.LookupPending | custom_components/ollama_vision/sensor.py:175-185 | the record under the exact image name when there is one; otherwise the first record in insertion order whose key has the same slug; nothing when the entry has no pending bucket |
| Sensor.Truncate | custom_components/ollama_vision/sensor.py:189 | `s[:n]` is a prefix of `s` of length at most `n` |
| Sensor.UpdateFromPending | custom_components/ollama_vision/sensor.py:173-209 | without a record nothing changes; with one, the state is None for an empty description and otherwise the prefix of the description of length min(length, 255); the attributes are replaced as a whole, with the text fields exactly when the text model was used; identity is kept |
| Sensor.UpdateFromPendingIdempotent | custom_components/ollama_vision/sensor.py:173-209 | updating twice from the same pending data equals updating once |
| Sensor.SlugTwinFound | custom_components/ollama_vision/sensor.py:178-185 | a record stored under another name with the same slug is found when the exact name has none |
| Sensor.VisionInfo | custom_components/ollama_vision/sensor.py:111-119 | the vision information sensor's id is `ollama_vision_<entry>_vision_info`, its name `Vision model <name>` and its value `<model> @ <host>` |
| Sensor.TextInfo | custom_components/ollama_vision/sensor.py:130-138 | the text information sensor's id is the one setup removes when the text model is disabled; its name is `Text model <name>` and its value `<text model> @ <text host>` |
| Sensor.VisionInfoShowsResolvedSettings | custom_components/ollama_vision/__init__.py:180-192 | the vision information sensor of a freshly set-up entry shows the resolved model and the folded host |
| Sensor.InfoIdsDistinct | custom_components/ollama_vision/sensor.py:116-135 | information sensor ids of different entries never collide, and an entry's two ids differ |
| Sensor.Restore | custom_components/ollama_vision/sensor.py:42-67 | the restore loop raises exactly when a candidate's entity id has no '.'; otherwise every candidate's id ends up in the created map, but no sensor is handed to Home Assistant, and entries and pending data are untouched |
| Sensor.RestoreRegistersOnlyCandidates | custom_components/ollama_vision/sensor.py:42-67 | after the loop the created ids are exactly the old ones and those of the candidates, named after what follows the first '.' of their entity ids |
| Sensor.RestoreKeepsOthersFreshensRestored | custom_components/ollama_vision/sensor.py:58-67 | after the loop a created sensor whose id is not restored keeps its value, and every restored id holds a fresh sensor of this entry with that id, no state and no attributes, even where it replaced a live sensor |
| Sensor.EventAfterRestoreHandsNothing | custom_components/ollama_vision/sensor.py:83-90 | after a restart, an event for a restored image name only updates the restored sensor and hands nothing to Home Assistant |
| Sensor.SetupSensors | custom_components/ollama_vision/sensor.py:22-69 | the platform hands over the vision information sensor, then the text one exactly when the text model is enabled, and never an image sensor; it raises exactly when the entry has no record or the restore loop raises; otherwise the domain data it leaves is the restore loop's: entries and pending data unchanged, and the created ids the old ones plus the restored ones, every sensor under an id not restored keeping its value |
| Sensor.CreateSensorFromEvent | custom_components/ollama_vision/sensor.py:71-102 | an unknown config entry is ignored; a known sensor id is updated in place; otherwise the sensor the constructor builds is recorded under its entry's sensor names, handed over and shown its pending record; other entries, the entry order, the rest of the entry's record, pending data and every other created sensor are unchanged; it raises exactly when it must create a sensor for an entry with no record |
| Sensor.SecondEventOnlyUpdates | custom_components/ollama_vision/sensor.py:83-90 | a repeated event for the same image creates and hands over nothing new |
| Prompt.Format | custom_components/ollama_vision/__init__.py:386 | a brace-free prompt formats to itself, and only a prompt with a brace can raise |
| Prompt.FormatIsReplace | custom_components/ollama_vision/__init__.py:386 | when the only braces are `{description}` fields, formatting is `str.replace` of every field |
| Prompt.FormatAfterPlainPrefix | custom_components/ollama_vision/__init__.py:386 | formatting passes over a brace-free prefix unchanged |
| Prompt.FormatSingleField | custom_components/ollama_vision/const.py:36 | a prompt with one field between brace-free parts, the shape of the default text prompt, formats to those parts around the description |
| Prompt.SentPromptIsFormatted | custom_components/ollama_vision/__init__.py:385-387 | the second substitution in the client leaves the formatted prompt unchanged when the description holds no '{' and the prompt's only braces are its fields |
| Prompt.DescriptionSubstitutedTwice | custom_components/ollama_vision/__init__.py:385-387 | a description containing `{description}` is substituted again by the client |
| Service.RewriteImageUrl | custom_components/ollama_vision/__init__.py:392-393 | a leading `www/` becomes `local/`; any other URL is unchanged |
| Service.RewriteImageUrlIdempotent | custom_components/ollama_vision/__init__.py:392-393 | rewriting a rewritten URL changes nothing |
| Service.FirstDomainKey | custom_components/ollama_vision/__init__.py:264-267 | the first of the device's config entries that is a key of the domain data, or -1 when none is |
| Service.DeviceEntry | custom_components/ollama_vision/__init__.py:256-267 | a non-empty known device names a config entry that is a domain key whenever one exists, and it is the first such entry in the device's order |
| Service.SelectEntry | custom_components/ollama_vision/__init__.py:253-285 | the device's entry wins; otherwise the first key passing the "client" filter; with none, the call raises; the chosen key is always a domain key |
| Service.FallbackIsFirstEntry | custom_components/ollama_vision/__init__.py:269-285 | without a device the call goes to the first entry set up, and raises with none |
| Service.FallbackAfterUnloadIsNextEntry | custom_components/ollama_vision/__init__.py:447-448 | once the first entry unloads, a call without a device goes to the entry set up after it |
| Service.FindConfigEntry | custom_components/ollama_vision/__init__.py:310-314 | a listed config entry with the id, with no entry before it having that id; nothing exactly when no listed entry has it |
| Service.ClientFor | custom_components/ollama_vision/__init__.py:287-370 | the stored client unless the call overrides a sampling value and the config entry is listed, in which case it is a client resolved from the entry with the call's values on top |
| Service.UsedTextModel | custom_components/ollama_vision/__init__.py:385 | the text model is used exactly when the call asks for it and the entry enables it |
| Service.Elaborate | custom_components/ollama_vision/__init__.py:378-387 | without elaboration there is no text prompt and the final description is the vision one; with it, the formatted prompt is sent to `elaborate_text`; it raises exactly when formatting does |
| Service.StoreResult | custom_components/ollama_vision/__init__.py:395-417 | the record is stored under the entry and image name; other records and buckets are kept; a new image name goes last in the bucket and a known one keeps its place; the set of created sensors is unchanged; an existing sensor for the image is refreshed from the new pending data |
| Service.HandleAnalyze | custom_components/ollama_vision/__init__.py:240-430 | the call succeeds exactly when an entry is selected, a client is obtained, the vision model yields a description and elaboration does not raise; on success the analyzed event carries the analysis, its elaboration and the rewritten URL, the creation event names the entry and image, and the sensors' record holds the same values |
| Service.SensorShowsAnalysis | custom_components/ollama_vision/__init__.py:395-405 | after a call, the entry's image sensor for that name shows the call's vision description and rewritten URL, with text fields exactly when the text model was used |

## Left out

- Network, file system, JSON parsing and the Home Assistant configuration are the outcomes and functions of a `World`, with no semantics of their own. `str()`, `slugify` and base64 are the uninterpreted functions of a `Lib`.
- UTF-8 decoding of a reply line is left out: lines arrive as strings. A decoding error is caught like any other raise in `_collect_ndjson`: `analyze_image` then returns None and `elaborate_text` returns its input.
- `__init__.py` and the override path construct `OllamaClient` with 21 positional arguments, but the constructor in `api.py` accepts nine. The model builds the client from the nine values it accepts. The sampling values are resolved (`Settings.Resolve`) but no client field holds them, since `api.py` never sends them.
- Only the `config` part of the stored record is modelled. The `device_info` dict, icons, logging, the `async_add_entities` callback stored by the platform and the service registration itself are left out. The service's existence is the `serviceRemoved` flag of `Registry.Unload`.
- The voluptuous schema of the service is left out. A `Service.Call` carries values that have already been validated, with the schema's defaults filled in.
- The wording of the default prompts is left out. Only the shape of the default text prompt, one `{description}` field between brace-free text, is covered, by `Prompt.FormatSingleField`.
- Prompt.Format: conversions (`{description!r}`), format specs (`{description:>10}`), indexing and attribute access in a field are treated as raising, like any other field name. Python accepts some of these.
- Entry ids are assumed to differ from the two bucket keys `pending_sensors` and `created_sensors`.
- A device's config entries are taken as a sequence in the order Home Assistant iterates them.
- The options update listener, `async_reload_entry` and config flows are left out.
- Sensor.Restore: requires that the entry has a record, because its only caller has already read that record. Without one, `SetupSensors` raises.
- Sensor.Restore: on a raise the model returns no domain data, so it does not keep the sensors that the source had already put into `created_sensors` for earlier candidates before the raise.
- Service.ClientFor: a chosen key with no entry record raises at once. In the source, `hass.data[DOMAIN][key]["client"]` raises KeyError for a bucket that does not hold "client". A bucket that does hold a "client" key yields a value with no `analyze_image`, which raises when called. Either way nothing is stored or fired.
- Service.HandleAnalyze: the call is one atomic step. The source awaits `analyze_image` and `elaborate_text` (`__init__.py` 373 and 387) and only then reads the entry's `config` (line 379) and calls `setdefault` on its pending bucket (line 396). An unload during those awaits would make the read raise KeyError, or would re-create a pending bucket for an unloaded entry. The model has no interleaving.
- Sensor.CreateSensorFromEvent: each event is handled once. The source registers a new bus listener on every platform setup (`sensor.py` 105) and never removes it, so after a reload each creation event runs the handler once per setup so far. The model has no listeners.
- Sensor.CreateSensorFromEvent: assumes the sensor platform has already stored its `async_add_entities` callback. The created sensor reads its pending record as soon as it is handed over, which stands for `async_added_to_hass`.
- Home Assistant's state machine, `async_write_ha_state` and the entity registry API are left out. The registry is a sequence of `RegistryEntry` items, and a text-info removal is reported as a unique id.

## Notes on the source

- After the legacy host/port fold (`__init__.py` 121-123), the port is None. The client in `api.py` still formats `http://{host}:{port}/api`, so a migrated entry yields the base URL `http://h:p:None/api` (`Settings.FoldedPortRendersAsNone`).
- The text prompt is formatted with the vision description in `__init__.py`, and the client then replaces `{description}` once more. A description that itself contains `{description}` is therefore substituted twice (`Prompt.DescriptionSubstitutedTwice`).
- The image sensor constructor registers itself in `created_sensors` before the restore loop asks whether its id is already there. The loop therefore never hands a restored image sensor to Home Assistant, and never records its name under the entry (`Sensor.Restore`, `Sensor.SetupSensors`). The restored image name is the part of the entity id after the '.', not the original image name, so the restored id usually differs from the original one. The next event for the original name then creates, hands over and shows a fresh sensor under the original id. When the two ids coincide, the event only updates the restored object, which Home Assistant never received, and nothing is handed over (`Sensor.EventAfterRestoreHandsNothing`).
- The restore loop's constructor overwrites `created_sensors` by id (`sensor.py` 169-170), and the loop takes every registry item whose unique id starts with the entry id and '_'. Restoring entry `a` can therefore pick up an item of entry `a_b` and replace that entry's live sensor with a fresh sensor of `a` that is never handed over (`Sensor.RestoreKeepsOthersFreshensRestored`).
- Unload forgets every created sensor whose id starts with the entry id and '_'. Entry ids that extend one another would lose each other's sensors (`Registry.UnloadForgetsExtendingEntrySensors`). Home Assistant's generated ids hold no underscore, and for them nothing else is lost (`Registry.UnloadKeepsOtherEntrySensors`).

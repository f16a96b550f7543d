/**
 The `analyze_image` service: which entry serves a call, which client it uses, how the vision
 result is elaborated, rewritten and stored for the sensors, and the two events it fires.
 */
module Service {
  import opened Python
  import Client
  import Settings
  import opened Registry
  import Sensor
  import opened Prompt

  // ---------------------------------------------------------------------------
  // The image URL stored for notifications.

  /** `image_url.replace("www/", "local/", 1)` when it starts with "www/". */
  function RewriteImageUrl(url: string): (r: string)
    ensures StartsWith(url, "www/") ==> r == "local/" + url[4..]
    ensures !StartsWith(url, "www/") ==> r == url
  {
    if StartsWith(url, "www/") then ReplaceFirst(url, "www/", "local/") else url
  }

  /** Rewriting a rewritten URL changes nothing. */
  lemma RewriteImageUrlIdempotent(url: string)
    ensures RewriteImageUrl(RewriteImageUrl(url)) == RewriteImageUrl(url)
  {
    var r := RewriteImageUrl(url);
    if StartsWith(url, "www/") {
      assert r[0] == 'l';
    }
  }

  // ---------------------------------------------------------------------------
  // Choosing the entry.

  /** The index of the first id that is a key of the domain data, or -1. */
  function FirstDomainKey(ids: seq<string>, d: DomainData): (i: int)
    ensures -1 <= i < |ids|
    ensures i == -1 <==> forall j | 0 <= j < |ids| :: !IsDomainKey(d, ids[j])
    ensures 0 <= i ==> IsDomainKey(d, ids[i])
    ensures forall j | 0 <= j < i :: !IsDomainKey(d, ids[j])
  {
    if ids == [] then -1
    else if IsDomainKey(d, ids[0]) then 0
    else
      var j := FirstDomainKey(ids[1..], d);
      if j == -1 then -1 else j + 1
  }

  /** The entry named by the call's device: the first of the device's config entries that is a
      key of the domain data, when the device id is non-empty and known. */
  function DeviceEntry(d: DomainData, deviceId: Option<string>, devices: map<string, seq<string>>): (r: Option<string>)
    ensures r.Some? ==> deviceId.Some? && deviceId.value != "" && deviceId.value in devices
                        && r.value in devices[deviceId.value] && IsDomainKey(d, r.value)
    ensures deviceId.Some? && deviceId.value != "" && deviceId.value in devices
            && (exists j | 0 <= j < |devices[deviceId.value]| :: IsDomainKey(d, devices[deviceId.value][j]))
            ==> r.Some?
    // The first of the device's config entries that the domain holds, in the device's order.
    ensures r.Some? ==> var ids := devices[deviceId.value];
                        exists i | 0 <= i < |ids| :: ids[i] == r.value && forall j | 0 <= j < i :: !IsDomainKey(d, ids[j])
  {
    match deviceId
    case None => None
    case Some(id) =>
      if id == "" || id !in devices then None
      else
        var i := FirstDomainKey(devices[id], d);
        if i == -1 then None else Some(devices[id][i])
  }

  /** The entry that serves the call: the device's entry when it names a non-empty one, otherwise
      the first key of the domain data that holds a client; with none, the call raises. */
  function SelectEntry(d: DomainData, deviceId: Option<string>, devices: map<string, seq<string>>): (r: Result<string>)
    ensures var e := DeviceEntry(d, deviceId, devices);
            e.Some? && e.value != "" ==> r == Ok(e.value)
    ensures var e := DeviceEntry(d, deviceId, devices);
            !(e.Some? && e.value != "") ==>
              r == if ClientKeys(d) == [] then Raised else Ok(ClientKeys(d)[0])
    ensures r.Ok? ==> IsDomainKey(d, r.value)
  {
    match DeviceEntry(d, deviceId, devices)
    case Some(e) =>
      if e != "" then Ok(e)
      else if ClientKeys(d) == [] then Raised
      else Ok(ClientKeys(d)[0])
    case None =>
      if ClientKeys(d) == [] then Raised
      else Ok(ClientKeys(d)[0])
  }

  /** Without a device, and with buckets that hold no "client" key, the call goes to the entry set
      up first; with no entry loaded it raises. */
  lemma FallbackIsFirstEntry(d: DomainData, devices: map<string, seq<string>>)
    requires "client" !in d.pending && "client" !in d.created
    ensures d.entries == [] ==> SelectEntry(d, None, devices).Raised?
    ensures d.entries != [] ==> SelectEntry(d, None, devices) == Ok(d.entries[0].0)
  {
  }

  // ---------------------------------------------------------------------------
  // Choosing the client.

  /** A config entry as the config-entries manager lists it. */
  datatype ConfigEntry = ConfigEntry(entryId: string, data: map<string, Val>, options: map<string, Val>)

  /** The first listed config entry with the given id. */
  function FindConfigEntry(entries: seq<ConfigEntry>, id: string): (r: Option<ConfigEntry>)
    ensures r.Some? ==> r.value in entries && r.value.entryId == id
    ensures r.None? <==> forall i | 0 <= i < |entries| :: entries[i].entryId != id
    // The first entry with that id, when several share it.
    ensures r.Some? ==> exists i | 0 <= i < |entries| :: entries[i] == r.value && forall j | 0 <= j < i :: entries[j].entryId != id
  {
    if entries == [] then None
    else if entries[0].entryId == id then Some(entries[0])
    else FindConfigEntry(entries[1..], id)
  }

  /** Some sampling attribute of either side is present in the call data. */
  predicate HasOverrides(call: map<string, Val>, names: Settings.Names) {
    exists p | p in Settings.AllParams :: names.attr(Settings.Vision, p) in call || names.attr(Settings.Text, p) in call
  }

  /** The client of the chosen entry; when the call overrides a sampling value and the config
      entry is listed, a fresh client resolved from the entry with the call's values on top.
      A domain key with no entry record (a bucket) has no client to analyze with and raises. */
  function ClientFor(d: DomainData, configEntries: seq<ConfigEntry>, target: string,
                     call: map<string, Val>, names: Settings.Names, lib: Lib): (r: Result<Client.OllamaClient>)
    ensures !HasKey(d.entries, target) ==> r.Raised?
    ensures HasKey(d.entries, target) && !HasOverrides(call, names) ==> r == Ok(Find(d.entries, target).value.client)
    ensures HasKey(d.entries, target) && FindConfigEntry(configEntries, target).None? ==>
              r == Ok(Find(d.entries, target).value.client)
    ensures HasKey(d.entries, target) && HasOverrides(call, names) && FindConfigEntry(configEntries, target).Some? ==>
              var e := FindConfigEntry(configEntries, target).value;
              match Settings.Resolve(e.data, e.options, call, names, lib)
              case Raised => r.Raised?
              case Ok(s) => r == Ok(Settings.ClientOf(s, lib))
  {
    match Find(d.entries, target)
    case None => Raised
    case Some(record) =>
      if !HasOverrides(call, names) then Ok(record.client)
      else
        match FindConfigEntry(configEntries, target)
        case None => Ok(record.client)
        case Some(e) =>
          match Settings.Resolve(e.data, e.options, call, names, lib)
          case Raised => Raised
          case Ok(s) => Ok(Settings.ClientOf(s, lib))
  }

  // ---------------------------------------------------------------------------
  // handle_analyze_image

  /** A validated service call: the schema's defaults are already filled in, and `data` is the
      whole call data, where the sampling overrides are looked up. */
  datatype Call = Call(
    imageUrl: string, prompt: string, imageName: string, deviceId: Option<string>,
    useTextModel: bool, textPrompt: string, data: map<string, Val>)

  /** The `ollama_vision_image_analyzed` event. */
  datatype Event = Event(
    integrationId: string, imageName: string, imageUrl: string, prompt: string,
    description: string, usedTextModel: Val, textPrompt: Option<string>, finalDescription: string)

  /** What a successful call leaves behind: the domain data, the entry id and image name of the
      `ollama_vision_create_sensor` event, and the analyzed event. */
  datatype Handled = Handled(data: DomainData, createEvent: (string, string), analyzed: Event)

  /** `use_text_model and text_model_enabled`. */
  function UsedTextModel(useTextModel: bool, textEnabled: Val): (v: Val)
    ensures Truthy(v) <==> useTextModel && Truthy(textEnabled)
  {
    if useTextModel then textEnabled else VBool(false)
  }

  /** The text-model half of a call: whether it is used, the formatted prompt, and the final
      description. Formatting the prompt can raise. */
  datatype Elaborated = Elaborated(used: Val, textPrompt: Option<string>, final: string)

  function Elaborate(client: Client.OllamaClient, textEnabled: Val, call: Call, vision: string,
                     w: Client.World): (r: Result<Elaborated>)
    ensures r.Raised? <==> call.useTextModel && Truthy(textEnabled) && Format(call.textPrompt, vision).Raised?
    ensures r.Ok? ==> r.value.used == UsedTextModel(call.useTextModel, textEnabled)
    // Without elaboration there is no text prompt and the final description is the vision one.
    ensures r.Ok? && !Truthy(r.value.used) ==> r.value.textPrompt.None? && r.value.final == vision
    ensures r.Ok? && Truthy(r.value.used) ==>
              && r.value.textPrompt.Some?
              && Format(call.textPrompt, vision) == Ok(r.value.textPrompt.value)
              && r.value.final == Client.ElaborateText(client, vision, r.value.textPrompt.value, w).text
  {
    var used := UsedTextModel(call.useTextModel, textEnabled);
    if !Truthy(used) then Ok(Elaborated(used, None, vision))
    else
      match Format(call.textPrompt, vision)
      case Raised => Raised
      case Ok(prompt) => Ok(Elaborated(used, Some(prompt), Client.ElaborateText(client, vision, prompt, w).text))
  }

  /** `pending.setdefault(entry_id, {})` read without writing. */
  function PendingOf(pending: map<string, Dict<PendingRecord>>, entryId: string): (b: Dict<PendingRecord>)
    ensures entryId !in pending ==> b == []
    ensures entryId in pending ==> b == pending[entryId]
  {
    if entryId in pending then pending[entryId] else []
  }

  /** Store the record under the entry and image name, then refresh the image sensor already
      created for it, if any. Nothing else changes. */
  function StoreResult(d: DomainData, target: string, imageName: string, record: PendingRecord, lib: Lib): (r: DomainData)
    ensures r.entries == d.entries
    ensures target in r.pending && Find(r.pending[target], imageName) == Some(record)
    ensures forall k | k != imageName :: Find(r.pending[target], k) == Find(PendingOf(d.pending, target), k)
    ensures forall k | k != target && k in d.pending :: k in r.pending && r.pending[k] == d.pending[k]
    ensures forall k | k in r.pending :: k in d.pending || k == target
    // A result for a new image name goes last; one for a known name keeps its place.
    ensures var b := PendingOf(d.pending, target);
            Keys(r.pending[target]) == if HasKey(b, imageName) then Keys(b) else Keys(b) + [imageName]
    ensures r.created.Keys == d.created.Keys
    ensures var u := Sensor.ImageUniqueId(target, imageName, lib);
            && (forall v | v in d.created && v != u :: r.created[v] == d.created[v])
            && (u in d.created ==> r.created[u] == Sensor.UpdateFromPending(d.created[u], r.pending, lib))
  {
    var u := Sensor.ImageUniqueId(target, imageName, lib);
    var pending := d.pending[target := Put(PendingOf(d.pending, target), imageName, record)];
    var created := if u in d.created
                   then d.created[u := Sensor.UpdateFromPending(d.created[u], pending, lib)]
                   else d.created;
    DomainData(d.entries, pending, created)
  }

  /** `handle_analyze_image`. A call raises when no entry can serve it, when its client cannot be
      built, when the vision model yields no description, or when the text prompt does not
      format; in each case before anything is stored or fired. */
  function HandleAnalyze(d: DomainData, configEntries: seq<ConfigEntry>, devices: map<string, seq<string>>,
                         call: Call, w: Client.World, names: Settings.Names, lib: Lib): (r: Result<Handled>)
    ensures SelectEntry(d, call.deviceId, devices).Raised? ==> r.Raised?
    ensures r.Ok? ==>
              && SelectEntry(d, call.deviceId, devices).Ok?
              && HasKey(d.entries, SelectEntry(d, call.deviceId, devices).value)
              && ClientFor(d, configEntries, SelectEntry(d, call.deviceId, devices).value, call.data, names, lib).Ok?
    // A call whose vision analysis yields nothing raises.
    ensures SelectEntry(d, call.deviceId, devices).Ok? &&
            ClientFor(d, configEntries, SelectEntry(d, call.deviceId, devices).value, call.data, names, lib).Ok? &&
            Client.AnalyzeImage(ClientFor(d, configEntries, SelectEntry(d, call.deviceId, devices).value,
                                          call.data, names, lib).value,
                                call.imageUrl, call.prompt, w, lib).description.None?
            ==> r.Raised?
    // Conversely, a call that every step can serve succeeds: nothing else raises.
    ensures (SelectEntry(d, call.deviceId, devices).Ok? &&
             var target := SelectEntry(d, call.deviceId, devices).value;
             ClientFor(d, configEntries, target, call.data, names, lib).Ok? &&
             var client := ClientFor(d, configEntries, target, call.data, names, lib).value;
             Client.AnalyzeImage(client, call.imageUrl, call.prompt, w, lib).description.Some? &&
             Elaborate(client, Find(d.entries, target).value.config.textEnabled, call,
                       Client.AnalyzeImage(client, call.imageUrl, call.prompt, w, lib).description.value, w).Ok?)
            ==> r.Ok?
    ensures r.Ok? ==>
              var target := SelectEntry(d, call.deviceId, devices).value;
              var client := ClientFor(d, configEntries, target, call.data, names, lib).value;
              var ev := r.value.analyzed;
              // The event carries the vision description the analysis returned ...
              && Client.AnalyzeImage(client, call.imageUrl, call.prompt, w, lib).description == Some(ev.description)
              // ... its elaboration, when the call asks for it and the entry enables it ...
              && Elaborate(client, Find(d.entries, target).value.config.textEnabled, call, ev.description, w)
                 == Ok(Elaborated(ev.usedTextModel, ev.textPrompt, ev.finalDescription))
              // ... and the rewritten image URL.
              && ev == Event(target, call.imageName, RewriteImageUrl(call.imageUrl), call.prompt,
                             ev.description, ev.usedTextModel, ev.textPrompt, ev.finalDescription)
              && r.value.createEvent == (target, call.imageName)
              // The sensors' record holds the same values; the final description only when elaborated.
              && r.value.data == StoreResult(d, target, call.imageName,
                                             PendingRecord(ev.description, ev.imageUrl, call.prompt,
                                                           Sensor.ImageUniqueId(target, call.imageName, lib),
                                                           if Truthy(ev.usedTextModel) then Some(ev.finalDescription) else None,
                                                           ev.textPrompt, ev.usedTextModel),
                                             lib)
  {
    match SelectEntry(d, call.deviceId, devices)
    case Raised => Raised
    case Ok(target) =>
      match ClientFor(d, configEntries, target, call.data, names, lib)
      case Raised => Raised
      case Ok(client) =>
        match Client.AnalyzeImage(client, call.imageUrl, call.prompt, w, lib).description
        case None => Raised
        case Some(vision) =>
          match Elaborate(client, Find(d.entries, target).value.config.textEnabled, call, vision, w)
          case Raised => Raised
          case Ok(e) =>
            var url := RewriteImageUrl(call.imageUrl);
            var record := PendingRecord(vision, url, call.prompt, Sensor.ImageUniqueId(target, call.imageName, lib),
                                        if Truthy(e.used) then Some(e.final) else None, e.textPrompt, e.used);
            Ok(Handled(StoreResult(d, target, call.imageName, record, lib), (target, call.imageName),
                       Event(target, call.imageName, url, call.prompt, vision, e.used, e.textPrompt, e.final)))
  }

  /** After a call, the entry's image sensor, whether it already existed or is created by the
      event, shows the call's vision description as its full description. */
  lemma SensorShowsAnalysis(d: DomainData, configEntries: seq<ConfigEntry>,
                                               devices: map<string, seq<string>>, call: Call,
                                               w: Client.World, names: Settings.Names, lib: Lib,
                                               s: ImageSensor)
    requires HandleAnalyze(d, configEntries, devices, call, w, names, lib).Ok?
    requires var h := HandleAnalyze(d, configEntries, devices, call, w, names, lib).value;
             s.entryId == h.createEvent.0 && s.imageName == call.imageName
    ensures var h := HandleAnalyze(d, configEntries, devices, call, w, names, lib).value;
            var shown := Sensor.UpdateFromPending(s, h.data.pending, lib);
            && shown.attributes.Some?
            && shown.attributes.value.fullDescription == h.analyzed.description
            && shown.attributes.value.imageUrl == h.analyzed.imageUrl
            && (shown.attributes.value.text.Some? <==> Truthy(h.analyzed.usedTextModel))
  {
    var h := HandleAnalyze(d, configEntries, devices, call, w, names, lib).value;
    var target := h.createEvent.0;
    assert HasKey(h.data.pending[target], call.imageName);
  }

  /** Entry order after an unload: with the first entry gone, a call without a device goes to the
      entry set up after it. */
  lemma FallbackAfterUnloadIsNextEntry(d: DomainData, devices: map<string, seq<string>>)
    requires "client" !in d.pending && "client" !in d.created
    requires |Keys(d.entries)| >= 2 && Keys(d.entries)[1] != Keys(d.entries)[0]
    ensures SelectEntry(Unload(d, Keys(d.entries)[0], true).data, None, devices) == Ok(Keys(d.entries)[1])
  {
    var ks := Keys(d.entries);
    var d1 := Unload(d, ks[0], true).data;
    assert "client" !in d1.pending && "client" !in d1.created;
    assert ks == [ks[0]] + ks[1..];
    assert ks[1..] == [ks[1]] + ks[2..];
    assert Keys(d1.entries) == [ks[1]] + KeysWithout(ks[2..], ks[0]);
  }
}

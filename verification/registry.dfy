/**
 The integration's slice of Home Assistant's shared data, `hass.data["ollama_vision"]`:
 one record per loaded config entry, the pending results of analyses by entry and image
 name, and the image sensors created so far by unique id. Also entry setup and unload,
 which create and remove an entry's part of it.
 */
module Registry {
  import opened Python
  import Client
  import Settings

  const Domain: string := "ollama_vision"
  const PendingKey: string := "pending_sensors"
  const CreatedKey: string := "created_sensors"

  /** The `config` dict of an entry record: the resolved values the sensors and the service read. */
  datatype StoredConfig = StoredConfig(
    host: Val, model: Val, name: Val,
    textEnabled: Val, textHost: Val, textModel: Val, textKeepalive: Val)

  /** `hass.data[DOMAIN][entry_id]`: the client, the image names of the entry's sensors, its config. */
  datatype EntryRecord = EntryRecord(client: Client.OllamaClient, sensors: set<string>, config: StoredConfig)

  /** One `pending_sensors[entry_id][image_name]` record written by the analyze service. */
  datatype PendingRecord = PendingRecord(
    description: string, imageUrl: string, prompt: string, uniqueId: string,
    finalDescription: Option<string>, textPrompt: Option<string>, usedTextModel: Val)

  /** The attributes only an elaborated result adds (`used_text_model` is then True). */
  datatype TextAttributes = TextAttributes(textPrompt: Option<string>, finalDescription: Option<string>)

  /** An image sensor's extra state attributes once it has found its pending record. */
  datatype Attributes = Attributes(
    integrationId: string, imageUrl: string, prompt: string, fullDescription: string,
    text: Option<TextAttributes>)

  /** An image sensor: its identity, its state (None until a result arrives) and its attributes
      (the empty dict, `None` here, until a result arrives). */
  datatype ImageSensor = ImageSensor(
    entryId: string, imageName: string, name: string, uniqueId: string,
    state: Option<string>, attributes: Option<Attributes>)

  /** `hass.data[DOMAIN]`. The two bucket keys come first in it, then the entry ids in the order
      the entries were set up; entry ids are never the bucket keys. */
  datatype DomainData = DomainData(
    entries: Dict<EntryRecord>,
    pending: map<string, Dict<PendingRecord>>,
    created: map<string, ImageSensor>)

  /** What `async_setup` leaves behind: both buckets, no entries. */
  const Initial: DomainData := DomainData([], map[], map[])

  /** `k in hass.data[DOMAIN]`. */
  predicate IsDomainKey(d: DomainData, k: string) {
    k == PendingKey || k == CreatedKey || HasKey(d.entries, k)
  }

  /** `[k for k, v in hass.data[DOMAIN].items() if isinstance(v, dict) and "client" in v]`: every
      entry record has a client; a bucket passes the filter only if it happens to hold the key
      "client". */
  function ClientKeys(d: DomainData): (ks: seq<string>)
    ensures forall k :: k in ks <==> (HasKey(d.entries, k)
                                      || (k == PendingKey && "client" in d.pending)
                                      || (k == CreatedKey && "client" in d.created))
    ensures "client" !in d.pending && "client" !in d.created ==> ks == Keys(d.entries)
  {
    (if "client" in d.pending then [PendingKey] else [])
    + (if "client" in d.created then [CreatedKey] else [])
    + Keys(d.entries)
  }

  /** Every key of an entry's image sensors starts with the entry id and an underscore. */
  function SensorPrefix(entryId: string): string {
    entryId + "_"
  }

  // ---------------------------------------------------------------------------
  // Setup and unload of one config entry.

  /** The outcome of `async_setup_entry` on the shared data: the new domain data and the unique id
      of a text-info sensor to drop from the entity registry, when the text model is disabled. */
  datatype SetupOutcome = SetupOutcome(data: DomainData, dropUniqueId: Option<string>)

  /** The text-info sensor's unique id. */
  function TextInfoId(entryId: string): string {
    Domain + "_" + entryId + "_text_info"
  }

  /** `async_setup_entry`: resolve the entry's settings, build its client, and store its record. */
  function SetupEntry(d: DomainData, entryId: string, data: map<string, Val>, options: map<string, Val>,
                      names: Settings.Names, lib: Lib): (r: Result<SetupOutcome>)
    ensures r.Raised? <==> Settings.Resolve(data, options, map[], names, lib).Raised?
    ensures r.Ok? ==>
              var s := Settings.Resolve(data, options, map[], names, lib).value;
              && Find(r.value.data.entries, entryId)
                 == Some(EntryRecord(Settings.ClientOf(s, lib), {},
                                     StoredConfig(s.host, s.model, Get(data, Settings.ConfName, VNone),
                                                  s.textEnabled, s.textHost, s.textModel, s.textKeepalive)))
              && (r.value.dropUniqueId.Some? <==> !Truthy(s.textEnabled))
              // The id removed is the text information sensor's.
              && r.value.dropUniqueId == if Truthy(s.textEnabled) then None else Some(TextInfoId(entryId))
    ensures r.Ok? ==> forall k | k != entryId :: Find(r.value.data.entries, k) == Find(d.entries, k)
    // A new entry goes last in the order the fallback selection walks; a re-setup keeps its place.
    ensures r.Ok? ==> Keys(r.value.data.entries) == if HasKey(d.entries, entryId) then Keys(d.entries)
                                                    else Keys(d.entries) + [entryId]
    ensures r.Ok? ==> r.value.data.pending == d.pending && r.value.data.created == d.created
  {
    match Settings.Resolve(data, options, map[], names, lib)
    case Raised => Raised
    case Ok(s) =>
      var config := StoredConfig(s.host, s.model, Get(data, Settings.ConfName, VNone),
                                 s.textEnabled, s.textHost, s.textModel, s.textKeepalive);
      var record := EntryRecord(Settings.ClientOf(s, lib), {}, config);
      Ok(SetupOutcome(d.(entries := Put(d.entries, entryId, record)),
                      if Truthy(s.textEnabled) then None else Some(TextInfoId(entryId))))
  }

  /** The outcome of `async_unload_entry`: the new domain data, and whether the analyze service
      is unregistered. */
  datatype UnloadOutcome = UnloadOutcome(data: DomainData, serviceRemoved: bool)

  /** `async_unload_entry`, after the sensor platform reported `platformsUnloaded`. */
  function Unload(d: DomainData, entryId: string, platformsUnloaded: bool): (r: UnloadOutcome)
    ensures !platformsUnloaded ==> r == UnloadOutcome(d, false)
    // The service goes away when at most one entry (this one) was still loaded.
    ensures r.serviceRemoved <==> platformsUnloaded && |ClientKeys(d)| <= 1
    ensures platformsUnloaded ==> !HasKey(r.data.entries, entryId) && entryId !in r.data.pending
    ensures forall k | k != entryId :: Find(r.data.entries, k) == Find(d.entries, k)
    // The remaining entries keep their order, which the service's fallback selection reads.
    ensures platformsUnloaded ==> Keys(r.data.entries) == KeysWithout(Keys(d.entries), entryId)
    ensures forall k | k != entryId && k in d.pending :: k in r.data.pending && r.data.pending[k] == d.pending[k]
    ensures forall k | k in r.data.pending :: k in d.pending
    // Exactly the sensors whose unique id starts with the entry id and '_' are forgotten.
    ensures platformsUnloaded ==>
              forall u :: u in r.data.created <==> u in d.created && !StartsWith(u, SensorPrefix(entryId))
    ensures forall u | u in r.data.created :: u in d.created && r.data.created[u] == d.created[u]
  {
    if !platformsUnloaded then UnloadOutcome(d, false)
    else
      var created := map u | u in d.created && !StartsWith(u, SensorPrefix(entryId)) :: d.created[u];
      UnloadOutcome(DomainData(Remove(d.entries, entryId), d.pending - {entryId}, created),
                    |ClientKeys(d)| <= 1)
  }

  /** The first entry set up after `async_setup` is the only key that passes the "client" filter. */
  lemma FirstEntryIsOnlyClientKey(entryId: string, data: map<string, Val>, options: map<string, Val>,
                                  names: Settings.Names, lib: Lib)
    requires SetupEntry(Initial, entryId, data, options, names, lib).Ok?
    ensures ClientKeys(SetupEntry(Initial, entryId, data, options, names, lib).value.data) == [entryId]
  {
    assert Keys(Initial.entries) == [];
  }

  /** Unloading an entry right after setting it up gives back the entries as they were, when the
      entry was not loaded before. */
  lemma UnloadUndoesSetup(d: DomainData, entryId: string, data: map<string, Val>,
                                             options: map<string, Val>, names: Settings.Names, lib: Lib)
    requires !HasKey(d.entries, entryId)
    requires SetupEntry(d, entryId, data, options, names, lib).Ok?
    ensures var u := Unload(SetupEntry(d, entryId, data, options, names, lib).value.data, entryId, true).data;
            forall k :: Find(u.entries, k) == Find(d.entries, k)
  {
    var u := Unload(SetupEntry(d, entryId, data, options, names, lib).value.data, entryId, true).data;
    forall k
      ensures Find(u.entries, k) == Find(d.entries, k)
    {
      if k == entryId {
        assert !HasKey(u.entries, k);
      }
    }
  }

  /** With a second entry loaded, unloading one entry keeps the service registered. */
  lemma ServiceKeptWhileAnotherEntryLoaded(d: DomainData, entryId: string, other: string)
    requires HasKey(d.entries, entryId) && HasKey(d.entries, other) && entryId != other
    ensures !Unload(d, entryId, true).serviceRemoved
  {
    var ks := ClientKeys(d);
    assert entryId in ks && other in ks;
  }

  /** Unloading one entry keeps another entry's image sensors when neither id holds an underscore,
      as Home Assistant's generated entry ids do not. */
  lemma UnloadKeepsOtherEntrySensors(d: DomainData, entryId: string, other: string, slug: string)
    requires '_' !in entryId && '_' !in other && entryId != other
    requires SensorPrefix(other) + slug in d.created
    ensures SensorPrefix(other) + slug in Unload(d, entryId, true).data.created
  {
    var u := SensorPrefix(other) + slug;
    var p := SensorPrefix(entryId);
    assert u[..|other|] == other && u[|other|] == '_';
    assert p[..|entryId|] == entryId && p[|entryId|] == '_';
    assert !StartsWith(u, p);
  }

  /** The prefix test alone does not tell entries apart: unloading entry "a" also forgets the image
      sensor "a_b_x" of an entry "a_b". */
  lemma UnloadForgetsExtendingEntrySensors(d: DomainData)
    requires "a_b_x" in d.created
    ensures "a_b_x" !in Unload(d, "a", true).data.created
  {
    assert StartsWith("a_b_x", SensorPrefix("a"));
  }
}

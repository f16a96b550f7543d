/**
 The sensor platform: the information sensors of an entry, the image sensors that show the
 latest analysis of one image name, how an image sensor finds its pending record, how it is
 created when an analysis event arrives, and how sensors are re-created after a restart.
 */
module Sensor {
  import opened Python
  import opened Registry
  import Settings

  /** The longest state a sensor shows; the full text stays in an attribute. */
  const MaxState: nat := 255

  /** An image sensor's unique id: the entry id, '_', and the slug of the image name. */
  function ImageUniqueId(entryId: string, imageName: string, lib: Lib): (u: string)
    ensures StartsWith(u, SensorPrefix(entryId))
    ensures u[|entryId| + 1..] == lib.slugify(imageName)
  {
    SensorPrefix(entryId) + lib.slugify(imageName)
  }

  /** The image sensor constructor, which reads the entry's configured name and registers the new
      sensor under its unique id, replacing any sensor already there. The read raises KeyError
      when the entry has no record. */
  function NewImageSensor(d: DomainData, entryId: string, imageName: string, lib: Lib): (r: Result<(ImageSensor, DomainData)>)
    ensures r.Raised? <==> !HasKey(d.entries, entryId)
    ensures r.Ok? ==>
              var (s, d') := r.value;
              && s.entryId == entryId && s.imageName == imageName
              && s.uniqueId == ImageUniqueId(entryId, imageName, lib)
              && s.name == lib.toStr(Find(d.entries, entryId).value.config.name) + " " + lib.slugify(imageName)
              && s.state.None? && s.attributes.None?
              && d'.entries == d.entries && d'.pending == d.pending
              && d'.created == d.created[s.uniqueId := s]
  {
    match Find(d.entries, entryId)
    case None => Raised
    case Some(record) =>
      var slug := lib.slugify(imageName);
      var s := ImageSensor(entryId, imageName, lib.toStr(record.config.name) + " " + slug,
                           SensorPrefix(entryId) + slug, None, None);
      Ok((s, d.(created := d.created[s.uniqueId := s])))
  }

  // ---------------------------------------------------------------------------
  // Finding the pending record.

  /** The index of the first item whose key has the slug `target`, or -1. */
  function FirstSlugMatch(bucket: Dict<PendingRecord>, target: string, slugify: string -> string): (i: int)
    ensures -1 <= i < |bucket|
    ensures i == -1 <==> forall j | 0 <= j < |bucket| :: slugify(bucket[j].0) != target
    ensures 0 <= i ==> slugify(bucket[i].0) == target
    ensures forall j | 0 <= j < i :: slugify(bucket[j].0) != target
  {
    if bucket == [] then -1
    else if slugify(bucket[0].0) == target then 0
    else
      var j := FirstSlugMatch(bucket[1..], target, slugify);
      if j == -1 then -1 else j + 1
  }

  /** The record an image sensor displays: the one stored under its exact image name, otherwise
      the first one in insertion order whose key has the same slug. */
  function LookupPending(pending: map<string, Dict<PendingRecord>>, entryId: string, imageName: string,
                         slugify: string -> string): (r: Option<PendingRecord>)
    ensures entryId !in pending ==> r.None?
    ensures entryId in pending && HasKey(pending[entryId], imageName) ==> r == Find(pending[entryId], imageName)
    ensures entryId in pending && !HasKey(pending[entryId], imageName) ==>
              var b := pending[entryId];
              && (r.None? <==> forall j | 0 <= j < |b| :: slugify(b[j].0) != slugify(imageName))
              && (r.Some? ==> exists i | 0 <= i < |b| :: b[i].1 == r.value
                                                        && slugify(b[i].0) == slugify(imageName)
                                                        && forall j | 0 <= j < i :: slugify(b[j].0) != slugify(imageName))
  {
    if entryId !in pending then None
    else
      var b := pending[entryId];
      match Find(b, imageName)
      case Some(rec) => Some(rec)
      case None =>
        var i := FirstSlugMatch(b, slugify(imageName), slugify);
        if i == -1 then None else Some(b[i].1)
  }

  /** `s[:n]`. */
  function Truncate(s: string, n: nat): (r: string)
    ensures r <= s
    ensures |r| == if |s| <= n then |s| else n
  {
    if |s| <= n then s else s[..n]
  }

  /** `async_update_from_pending`: show the pending record, if one is found; otherwise change
      nothing. The state is the description cut to 255 characters, or None when it is empty; the
      attributes are replaced as a whole, with the elaboration fields only when the text model
      was used. */
  function UpdateFromPending(s: ImageSensor, pending: map<string, Dict<PendingRecord>>, lib: Lib): (r: ImageSensor)
    ensures r.entryId == s.entryId && r.imageName == s.imageName && r.name == s.name && r.uniqueId == s.uniqueId
    ensures LookupPending(pending, s.entryId, s.imageName, lib.slugify).None? ==> r == s
    ensures LookupPending(pending, s.entryId, s.imageName, lib.slugify).Some? ==>
              var rec := LookupPending(pending, s.entryId, s.imageName, lib.slugify).value;
              && (r.state.None? <==> rec.description == "")
              && (r.state.Some? ==> r.state.value <= rec.description && |r.state.value| <= MaxState)
              // `description[:255]`: the whole description when it fits, else its first 255 characters.
              && (r.state.Some? ==> |r.state.value| == (if |rec.description| <= MaxState then |rec.description| else MaxState))
              && r.attributes.Some?
              && r.attributes.value.integrationId == s.entryId
              && r.attributes.value.fullDescription == rec.description
              && r.attributes.value.imageUrl == rec.imageUrl
              && r.attributes.value.prompt == rec.prompt
              && (r.attributes.value.text.Some? <==> Truthy(rec.usedTextModel))
              && (r.attributes.value.text.Some? ==>
                    r.attributes.value.text.value == TextAttributes(rec.textPrompt, rec.finalDescription))
  {
    match LookupPending(pending, s.entryId, s.imageName, lib.slugify)
    case None => s
    case Some(rec) =>
      var state := if rec.description != "" then Some(Truncate(rec.description, MaxState)) else None;
      var text := if Truthy(rec.usedTextModel) then Some(TextAttributes(rec.textPrompt, rec.finalDescription)) else None;
      s.(state := state,
         attributes := Some(Attributes(s.entryId, rec.imageUrl, rec.prompt, rec.description, text)))
  }

  /** Updating twice from the same pending data is the same as updating once, so the service's
      direct update and the one the creation event triggers agree. */
  lemma UpdateFromPendingIdempotent(s: ImageSensor, pending: map<string, Dict<PendingRecord>>, lib: Lib)
    ensures UpdateFromPending(UpdateFromPending(s, pending, lib), pending, lib) == UpdateFromPending(s, pending, lib)
  {
  }

  /** A record stored under a different name with the same slug is found when no record has the
      exact name. */
  lemma SlugTwinFound(pending: map<string, Dict<PendingRecord>>, entryId: string,
                                         imageName: string, other: string, lib: Lib)
    requires entryId in pending
    requires !HasKey(pending[entryId], imageName)
    requires HasKey(pending[entryId], other)
    requires lib.slugify(other) == lib.slugify(imageName)
    ensures LookupPending(pending, entryId, imageName, lib.slugify).Some?
  {
    var b := pending[entryId];
    var ks := Keys(b);
    var k :| 0 <= k < |ks| && ks[k] == other;
    assert lib.slugify(b[k].0) == lib.slugify(imageName);
  }

  // ---------------------------------------------------------------------------
  // Information sensors.

  /** A sensor showing which model and host an entry uses. */
  datatype InfoSensor = InfoSensor(uniqueId: string, name: string, value: string)

  function VisionInfo(entryId: string, config: StoredConfig, lib: Lib): (s: InfoSensor)
    ensures StartsWith(s.uniqueId, Domain + "_" + entryId + "_")
    ensures s.uniqueId == Domain + "_" + entryId + "_vision_info"
    ensures s.name == "Vision model " + lib.toStr(config.name)
    ensures s.value == lib.toStr(config.model) + " @ " + lib.toStr(config.host)
  {
    InfoSensor(Domain + "_" + entryId + "_vision_info",
               "Vision model " + lib.toStr(config.name),
               lib.toStr(config.model) + " @ " + lib.toStr(config.host))
  }

  function TextInfo(entryId: string, config: StoredConfig, lib: Lib): (s: InfoSensor)
    ensures s.uniqueId == TextInfoId(entryId)
    ensures s.name == "Text model " + lib.toStr(config.name)
    ensures s.value == lib.toStr(config.textModel) + " @ " + lib.toStr(config.textHost)
  {
    InfoSensor(TextInfoId(entryId),
               "Text model " + lib.toStr(config.name),
               lib.toStr(config.textModel) + " @ " + lib.toStr(config.textHost))
  }

  /** Different entries never share an information sensor id, and the two sensors of one entry
      never share one either. */
  lemma InfoIdsDistinct(e1: string, e2: string, c1: StoredConfig, c2: StoredConfig, lib: Lib)
    ensures VisionInfo(e1, c1, lib).uniqueId == VisionInfo(e2, c2, lib).uniqueId ==> e1 == e2
    ensures VisionInfo(e1, c1, lib).uniqueId != TextInfo(e2, c2, lib).uniqueId
  {
    var p := Domain + "_";
    var v1, v2 := VisionInfo(e1, c1, lib).uniqueId, VisionInfo(e2, c2, lib).uniqueId;
    if v1 == v2 {
      assert |e1| == |e2|;
      assert v1[|p|..|p| + |e1|] == e1;
      assert v2[|p|..|p| + |e2|] == e2;
    }
    var t := TextInfo(e2, c2, lib).uniqueId;
    var s1, s2 := "_vision_info", "_text_info";
    assert v1 == (p + e1) + s1;
    assert t == (p + e2) + s2;
    assert v1[|v1| - 6] == s1[6] == 'n';
    assert t[|t| - 6] == s2[4] == 't';
  }

  // ---------------------------------------------------------------------------
  // Platform setup and the re-creation of image sensors after a restart.

  /** An entity the platform hands to Home Assistant. */
  datatype Entity = InfoEntity(info: InfoSensor) | ImageEntity(sensor: ImageSensor)

  /** One item of the entity registry: entity id, owning platform, unique id. */
  datatype RegistryEntry = RegistryEntry(entityId: string, platform: string, uniqueId: string)

  /** The registry items the restore loop rebuilds: this platform's, with the entry's prefix, and
      not the entry's information sensors. */
  predicate IsRestoreCandidate(e: RegistryEntry, entryId: string) {
    && e.platform == Domain
    && StartsWith(e.uniqueId, SensorPrefix(entryId))
    && e.uniqueId != Domain + "_" + entryId + "_vision_info"
    && e.uniqueId != TextInfoId(entryId)
  }

  /** The unique ids the restore loop registers, in registry order: one per candidate whose entity
      id holds a '.', named after what follows the first '.'. */
  function RestoredIds(entryId: string, reg: seq<RegistryEntry>, lib: Lib): set<string>
  {
    if reg == [] then {}
    else
      (if IsRestoreCandidate(reg[0], entryId) && '.' in reg[0].entityId
       then {ImageUniqueId(entryId, AfterFirst(reg[0].entityId, '.').value, lib)} else {})
      + RestoredIds(entryId, reg[1..], lib)
  }

  /** The restore loop. Each candidate's image name is its entity id after the first '.' (its
      unique id always splits on '_', since it starts with the entry id and '_'); the
      constructor registers the sensor in the created map before the loop asks whether it is
      already there, so the answer is always yes and no image sensor is handed over. */
  function Restore(d: DomainData, entryId: string, reg: seq<RegistryEntry>, lib: Lib): (r: Result<(seq<Entity>, DomainData)>)
    requires HasKey(d.entries, entryId)
    ensures r.Raised? <==> exists i | 0 <= i < |reg| :: IsRestoreCandidate(reg[i], entryId) && '.' !in reg[i].entityId
    ensures r.Ok? ==> r.value.0 == []
    ensures r.Ok? ==> r.value.1.entries == d.entries && r.value.1.pending == d.pending
    ensures r.Ok? ==> forall u | u in d.created :: u in r.value.1.created
    ensures r.Ok? ==> forall i | 0 <= i < |reg| && IsRestoreCandidate(reg[i], entryId) ::
                        ImageUniqueId(entryId, AfterFirst(reg[i].entityId, '.').value, lib) in r.value.1.created
    decreases |reg|
  {
    if reg == [] then Ok(([], d))
    else
      var e := reg[0];
      assert forall i | 1 <= i < |reg| :: reg[i] == reg[1..][i - 1];
      if !IsRestoreCandidate(e, entryId) then Restore(d, entryId, reg[1..], lib)
      else
        match AfterFirst(e.entityId, '.')
        case Raised => Raised
        case Ok(imageName) =>
          var (s, d1) := NewImageSensor(d, entryId, imageName, lib).value;
          if s.uniqueId !in d1.created then
            assert false;
            Raised
          else
            Restore(d1, entryId, reg[1..], lib)
  }

  /** Only candidates are registered: after the loop the created ids are the old ones and the
      restored ones, nothing else. */
  lemma {:induction false} RestoreRegistersOnlyCandidates(d: DomainData, entryId: string, reg: seq<RegistryEntry>, lib: Lib)
    requires HasKey(d.entries, entryId) && Restore(d, entryId, reg, lib).Ok?
    ensures Restore(d, entryId, reg, lib).value.1.created.Keys == d.created.Keys + RestoredIds(entryId, reg, lib)
    decreases |reg|
  {
    if reg != [] {
      var e := reg[0];
      if !IsRestoreCandidate(e, entryId) {
        RestoreRegistersOnlyCandidates(d, entryId, reg[1..], lib);
      } else {
        var imageName := AfterFirst(e.entityId, '.').value;
        var d1 := NewImageSensor(d, entryId, imageName, lib).value.1;
        RestoreRegistersOnlyCandidates(d1, entryId, reg[1..], lib);
      }
    }
  }

  /** What the loop leaves under each id: a created sensor whose id is not restored keeps its value,
      and every restored id holds a fresh sensor of this entry, with no state or attributes, even
      where it replaced a live sensor of another entry. */
  lemma {:induction false} RestoreKeepsOthersFreshensRestored(d: DomainData, entryId: string, reg: seq<RegistryEntry>, lib: Lib)
    requires HasKey(d.entries, entryId) && Restore(d, entryId, reg, lib).Ok?
    ensures var c := Restore(d, entryId, reg, lib).value.1.created;
            forall u | u in d.created && u !in RestoredIds(entryId, reg, lib) :: u in c && c[u] == d.created[u]
    ensures var c := Restore(d, entryId, reg, lib).value.1.created;
            forall u | u in c && (u !in d.created || u in RestoredIds(entryId, reg, lib)) ::
              && c[u].entryId == entryId && c[u].state.None? && c[u].attributes.None? && c[u].uniqueId == u
    decreases |reg|
  {
    if reg != [] {
      var e := reg[0];
      if !IsRestoreCandidate(e, entryId) {
        RestoreKeepsOthersFreshensRestored(d, entryId, reg[1..], lib);
      } else {
        var imageName := AfterFirst(e.entityId, '.').value;
        var d1 := NewImageSensor(d, entryId, imageName, lib).value.1;
        RestoreKeepsOthersFreshensRestored(d1, entryId, reg[1..], lib);
      }
    }
  }

  /** The sensor platform's `async_setup_entry`: the vision information sensor, the text one when
      the text model is enabled, and the restore loop over the entity registry. Reading the
      entry's record raises when it has none. */
  function SetupSensors(d: DomainData, entryId: string, data: map<string, Val>, options: map<string, Val>,
                        reg: seq<RegistryEntry>, lib: Lib): (r: Result<(seq<Entity>, DomainData)>)
    ensures !HasKey(d.entries, entryId) ==> r.Raised?
    ensures r.Raised? <==> !HasKey(d.entries, entryId) || Restore(d, entryId, reg, lib).Raised?
    ensures r.Ok? ==>
              var config := Find(d.entries, entryId).value.config;
              && |r.value.0| == (if Truthy(Settings.TextModelEnabled(data, options)) then 2 else 1)
              && r.value.0[0] == InfoEntity(VisionInfo(entryId, config, lib))
              && (|r.value.0| == 2 ==> r.value.0[1] == InfoEntity(TextInfo(entryId, config, lib)))
    // No image sensor is ever handed to Home Assistant here, restored or not.
    ensures r.Ok? ==> forall x | x in r.value.0 :: x.InfoEntity?
    // The restore loop's registrations persist in the domain data; nothing else changes.
    ensures r.Ok? ==> r.value.1 == Restore(d, entryId, reg, lib).value.1
    ensures r.Ok? ==> && r.value.1.entries == d.entries && r.value.1.pending == d.pending
                      && r.value.1.created.Keys == d.created.Keys + RestoredIds(entryId, reg, lib)
    ensures r.Ok? ==> forall u | u in d.created && u !in RestoredIds(entryId, reg, lib) ::
                        u in r.value.1.created && r.value.1.created[u] == d.created[u]
  {
    match Find(d.entries, entryId)
    case None => Raised
    case Some(record) =>
      var infos := [InfoEntity(VisionInfo(entryId, record.config, lib))]
                   + (if Truthy(Settings.TextModelEnabled(data, options))
                      then [InfoEntity(TextInfo(entryId, record.config, lib))] else []);
      match Restore(d, entryId, reg, lib)
      case Raised => Raised
      case Ok((added, d1)) =>
        RestoreRegistersOnlyCandidates(d, entryId, reg, lib);
        RestoreKeepsOthersFreshensRestored(d, entryId, reg, lib);
        Ok((infos + added, d1))
  }

  // ---------------------------------------------------------------------------
  // The creation event.

  /** What the event listener leaves behind, and the sensor it hands to Home Assistant, if any. */
  datatype EventOutcome = EventOutcome(data: DomainData, added: Option<ImageSensor>)

  /** `async_create_sensor_from_event`: ignore an unknown config entry; update a sensor already
      created for this unique id; otherwise create the sensor, record it under the entry, hand it
      over, and let it read its pending record once it is added. */
  function CreateSensorFromEvent(d: DomainData, configEntries: set<string>, entryId: string,
                                 imageName: string, lib: Lib): (r: Result<EventOutcome>)
    ensures entryId !in configEntries ==> r == Ok(EventOutcome(d, None))
    ensures r.Raised? <==> entryId in configEntries && ImageUniqueId(entryId, imageName, lib) !in d.created
                           && !HasKey(d.entries, entryId)
    ensures r.Ok? ==> r.value.data.pending == d.pending
    ensures r.Ok? ==> r.value.data.created.Keys ==
                        (if entryId in configEntries then d.created.Keys + {ImageUniqueId(entryId, imageName, lib)}
                         else d.created.Keys)
    ensures r.Ok? && entryId in configEntries ==>
              var u := ImageUniqueId(entryId, imageName, lib);
              && (r.value.added.Some? <==> u !in d.created)
              && (u in d.created ==> r.value.data.created[u] == UpdateFromPending(d.created[u], d.pending, lib))
              && (r.value.added.Some? ==>
                    && r.value.added.value == r.value.data.created[u]
                    && r.value.added.value.imageName == imageName
                    && HasKey(r.value.data.entries, entryId)
                    && imageName in Find(r.value.data.entries, entryId).value.sensors)
    // The sensor handed over is the freshly constructed one, shown its pending record at once.
    ensures r.Ok? && r.value.added.Some? ==>
              && NewImageSensor(d, entryId, imageName, lib).Ok?
              && r.value.added.value == UpdateFromPending(NewImageSensor(d, entryId, imageName, lib).value.0, d.pending, lib)
              && r.value.added.value.uniqueId == ImageUniqueId(entryId, imageName, lib)
    // Nothing else changes: other entries, the entry's record but for its sensor names, the key
    // order, and every other created sensor.
    ensures r.Ok? ==> forall k | k != entryId :: Find(r.value.data.entries, k) == Find(d.entries, k)
    ensures r.Ok? ==> Keys(r.value.data.entries) == Keys(d.entries)
    ensures r.Ok? && HasKey(d.entries, entryId) ==>
              var rec := Find(d.entries, entryId).value;
              Find(r.value.data.entries, entryId)
              == Some(rec.(sensors := if r.value.added.Some? then rec.sensors + {imageName} else rec.sensors))
    ensures r.Ok? && !HasKey(d.entries, entryId) ==> r.value.data.entries == d.entries
    ensures r.Ok? ==> forall v | v in d.created && v != ImageUniqueId(entryId, imageName, lib) ::
                        r.value.data.created[v] == d.created[v]
  {
    if entryId !in configEntries then Ok(EventOutcome(d, None))
    else
      var u := ImageUniqueId(entryId, imageName, lib);
      if u in d.created then
        Ok(EventOutcome(d.(created := d.created[u := UpdateFromPending(d.created[u], d.pending, lib)]), None))
      else
        match NewImageSensor(d, entryId, imageName, lib)
        case Raised => Raised
        case Ok((s, d1)) =>
          var record := Find(d1.entries, entryId).value;
          var entries := Put(d1.entries, entryId, record.(sensors := record.sensors + {imageName}));
          var shown := UpdateFromPending(s, d1.pending, lib);
          Ok(EventOutcome(DomainData(entries, d1.pending, d1.created[u := shown]), Some(shown)))
  }

  /** A second event for the same image creates nothing new. */
  lemma SecondEventOnlyUpdates(d: DomainData, configEntries: set<string>, entryId: string,
                                                  imageName: string, lib: Lib)
    requires CreateSensorFromEvent(d, configEntries, entryId, imageName, lib).Ok?
    ensures var d1 := CreateSensorFromEvent(d, configEntries, entryId, imageName, lib).value.data;
            && CreateSensorFromEvent(d1, configEntries, entryId, imageName, lib).Ok?
            && CreateSensorFromEvent(d1, configEntries, entryId, imageName, lib).value.added.None?
            && CreateSensorFromEvent(d1, configEntries, entryId, imageName, lib).value.data.created.Keys == d1.created.Keys
  {
  }

  /** After a restart, an event for an image whose restored id coincides with its own only updates
      the restored sensor, which was never handed over: nothing is handed to Home Assistant. */
  lemma EventAfterRestoreHandsNothing(d: DomainData, entryId: string, reg: seq<RegistryEntry>, lib: Lib,
                                      configEntries: set<string>, i: nat)
    requires HasKey(d.entries, entryId) && Restore(d, entryId, reg, lib).Ok?
    requires i < |reg| && IsRestoreCandidate(reg[i], entryId)
    ensures var d1 := Restore(d, entryId, reg, lib).value.1;
            var imageName := AfterFirst(reg[i].entityId, '.').value;
            && CreateSensorFromEvent(d1, configEntries, entryId, imageName, lib).Ok?
            && CreateSensorFromEvent(d1, configEntries, entryId, imageName, lib).value.added.None?
  {
  }

  /** The vision information sensor of a freshly set-up entry shows the resolved model and host,
      the latter after the legacy fold. */
  lemma VisionInfoShowsResolvedSettings(d: DomainData, entryId: string, data: map<string, Val>,
                                        options: map<string, Val>, names: Settings.Names, lib: Lib)
    requires SetupEntry(d, entryId, data, options, names, lib).Ok?
    ensures var s := Settings.Resolve(data, options, map[], names, lib).value;
            var d1 := SetupEntry(d, entryId, data, options, names, lib).value.data;
            && HasKey(d1.entries, entryId)
            && VisionInfo(entryId, Find(d1.entries, entryId).value.config, lib).value
               == lib.toStr(s.model) + " @ " + lib.toStr(s.host)
  {
  }
}

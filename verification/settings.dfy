/**
 How a config entry's stored `data` and `options`, and a service call's overrides,
 resolve to the values a client is built from: the legacy host/port fold, the two
 different precedence rules, and the reset of the text side when it is disabled.
 */
module Settings {
  import opened Python
  import Client

  const ConfHost: string := "host"
  const ConfPort: string := "port"
  const ConfModel: string := "model"
  const ConfName: string := "name"
  const ConfVisionKeepalive: string := "vision_keepalive"
  const ConfTextModelEnabled: string := "text_model_enabled"
  const ConfTextHost: string := "text_host"
  const ConfTextPort: string := "text_port"
  const ConfTextModel: string := "text_model"
  const ConfTextKeepalive: string := "text_keepalive"
  const DefaultTextModel: Val := VStr("llama3.1")

  datatype Side = Vision | Text
  datatype Param = Temperature | TopP | TopK | RepeatPenalty | Seed | NumPredict

  const AllParams: seq<Param> := [Temperature, TopP, TopK, RepeatPenalty, Seed, NumPredict]

  lemma AllParamsListed()
    ensures forall p: Param :: p in AllParams
  {
    forall p: Param
      ensures p in AllParams
    {
      match p
      case Temperature => assert AllParams[0] == p;
      case TopP => assert AllParams[1] == p;
      case TopK => assert AllParams[2] == p;
      case RepeatPenalty => assert AllParams[3] == p;
      case Seed => assert AllParams[4] == p;
      case NumPredict => assert AllParams[5] == p;
    }
  }

  /** The config keys, service-call attribute names and defaults of the sampling parameters.
      The integration imports them from its constants module, which does not define them,
      so they are parameters of the model. */
  datatype Names = Names(
    conf: (Side, Param) -> string,
    attr: (Side, Param) -> string,
    default: Param -> Val)

  type Sampling = map<Param, Val>

  /** `data.get(key) or options.get(key, default)`: a falsy stored value is passed over. */
  function DataOrOptions(data: map<string, Val>, options: map<string, Val>, key: string, default: Val): (v: Val)
    ensures key in data && Truthy(data[key]) ==> v == data[key]
    ensures !(key in data && Truthy(data[key])) ==> v == Get(options, key, default)
  {
    Or(Get(data, key, VNone), Get(options, key, default))
  }

  /** `call.get(attr, options.get(conf, data.get(conf, default)))`: the first layer where the key
      is present wins, whatever its value. */
  function Layered(call: map<string, Val>, attr: string, options: map<string, Val>,
                   data: map<string, Val>, conf: string, default: Val): (v: Val)
    ensures attr in call ==> v == call[attr]
    ensures attr !in call && conf in options ==> v == options[conf]
    ensures attr !in call && conf !in options && conf in data ==> v == data[conf]
    ensures attr !in call && conf !in options && conf !in data ==> v == default
  {
    Get(call, attr, Get(options, conf, Get(data, conf, default)))
  }

  /** The two rules disagree on a falsy stored value: keep-alive 0 in `data` is passed over
      for the `options` value, while a sampling value 0 in `options` is kept. */
  lemma PrecedenceRulesDiffer(k: string, other: Val, default: Val)
    requires Truthy(other)
    ensures DataOrOptions(map[k := VInt(0)], map[k := other], k, default) == other
    ensures Layered(map[], k, map[k := VInt(0)], map[k := other], k, default) == VInt(0)
  {
  }

  /** Every sampling value of one side, each resolved by `Layered`. */
  function SamplingFor(side: Side, call: map<string, Val>, options: map<string, Val>,
                       data: map<string, Val>, names: Names): (s: Sampling)
    ensures forall p: Param :: p in s
    ensures forall p: Param :: s[p] == Layered(call, names.attr(side, p), options, data,
                                               names.conf(side, p), names.default(p))
  {
    AllParamsListed();
    map p | p in AllParams :: Layered(call, names.attr(side, p), options, data, names.conf(side, p), names.default(p))
  }

  function DefaultSampling(names: Names): (s: Sampling)
    ensures forall p: Param :: p in s && s[p] == names.default(p)
  {
    AllParamsListed();
    map p | p in AllParams :: names.default(p)
  }

  // ---------------------------------------------------------------------------
  // The legacy host/port fold.

  /** `':' not in host`, which raises TypeError unless `host` is a str or a container. */
  function ColonAbsent(host: Val): (r: Result<bool>)
    ensures r.Raised? <==> !(host.VStr? || host.VList? || host.VDict?)
    ensures host.VStr? ==> r == Ok(forall i | 0 <= i < |host.s| :: host.s[i] != ':')
  {
    match host
    case VStr(s) => Ok(':' !in s)
    case VList(items) => Ok(VStr(":") !in items)
    case VDict(fields) => Ok(":" !in fields)
    case _ => Raised
  }

  /** The stored host and port are in the legacy split form that the fold combines. */
  predicate IsLegacy(host: Val, port: Val) {
    Truthy(port) && host.VStr? && host.s != "" && ':' !in host.s && !StartsWith(host.s, "http")
  }

  /** `if port and host and ':' not in host and not host.startswith('http'):
         host = f"{host}:{port}"; port = None`. */
  function MigrateHost(host: Val, port: Val, lib: Lib): (r: Result<(Val, Val)>)
    ensures IsLegacy(host, port) ==> r == Ok((VStr(host.s + ":" + lib.toStr(port)), VNone))
    ensures !IsLegacy(host, port) && r.Ok? ==> r.value == (host, port)
    ensures r.Raised? <==> Truthy(port) && Truthy(host) && !host.VStr?
                           && !(host.VList? && VStr(":") in host.items)
                           && !(host.VDict? && ":" in host.fields)
  {
    if !Truthy(port) || !Truthy(host) then Ok((host, port))
    else match ColonAbsent(host)
      case Raised => Raised
      case Ok(absent) =>
        if !absent then Ok((host, port))
        else if !host.VStr? then Raised
        else if StartsWith(host.s, "http") then Ok((host, port))
        else Ok((VStr(host.s + ":" + lib.toStr(port)), VNone))
  }

  /** Folding an already folded pair changes nothing. */
  lemma MigrateHostIdempotent(host: Val, port: Val, lib: Lib)
    requires MigrateHost(host, port, lib).Ok?
    ensures var (h, p) := MigrateHost(host, port, lib).value;
            MigrateHost(h, p, lib) == Ok((h, p))
  {
  }

  /** With the client constructor as it stands, a folded pair renders its None port into the
      base URL after the port already folded into the host. */
  lemma FoldedPortRendersAsNone(host: Val, port: Val, lib: Lib)
    requires IsLegacy(host, port)
    requires lib.toStr(VNone) == "None"
    requires forall s: string :: lib.toStr(VStr(s)) == s
    ensures var (h, p) := MigrateHost(host, port, lib).value;
            Client.BaseUrl(h, p, lib) == "http://" + host.s + ":" + lib.toStr(port) + ":None/api"
  {
  }

  // ---------------------------------------------------------------------------
  // Resolution of a whole entry.

  /** What a client is built from. */
  datatype Settings = Settings(
    host: Val, port: Val, model: Val, visionKeepalive: Val, vision: Sampling,
    textEnabled: Val, textHost: Val, textPort: Val, textModel: Val, textKeepalive: Val, text: Sampling)

  /** `options.get(text_model_enabled, data.get(text_model_enabled, False))`. */
  function TextModelEnabled(data: map<string, Val>, options: map<string, Val>): Val {
    Get(options, ConfTextModelEnabled, Get(data, ConfTextModelEnabled, VBool(false)))
  }

  /** The values `async_setup_entry` resolves (with no call overrides) and `handle_analyze_image`
      resolves (with the service call's data) from one config entry. A non-string host that
      reaches the fold raises. */
  function Resolve(data: map<string, Val>, options: map<string, Val>, call: map<string, Val>,
                   names: Names, lib: Lib): (r: Result<Settings>)
    ensures r.Ok? ==>
              MigrateHost(DataOrOptions(data, options, ConfHost, VNone),
                          DataOrOptions(data, options, ConfPort, VNone), lib) == Ok((r.value.host, r.value.port))
    ensures r.Ok? ==> r.value.model == DataOrOptions(data, options, ConfModel, VNone)
    ensures r.Ok? ==> r.value.visionKeepalive == DataOrOptions(data, options, ConfVisionKeepalive, Client.DefaultKeepalive)
    ensures r.Ok? ==> r.value.vision == SamplingFor(Vision, call, options, data, names)
    ensures r.Ok? ==> r.value.textEnabled == TextModelEnabled(data, options)
    // A disabled text side is reset, whatever is stored.
    ensures r.Ok? && !Truthy(r.value.textEnabled) ==>
              && r.value.textHost == VNone && r.value.textPort == VNone && r.value.textModel == VNone
              && r.value.textKeepalive == Client.DefaultKeepalive && r.value.text == DefaultSampling(names)
    ensures r.Ok? && Truthy(r.value.textEnabled) ==>
              && MigrateHost(DataOrOptions(data, options, ConfTextHost, VNone),
                             DataOrOptions(data, options, ConfTextPort, VNone), lib)
                 == Ok((r.value.textHost, r.value.textPort))
              && r.value.textModel == DataOrOptions(data, options, ConfTextModel, DefaultTextModel)
              && r.value.textKeepalive == DataOrOptions(data, options, ConfTextKeepalive, Client.DefaultKeepalive)
              && r.value.text == SamplingFor(Text, call, options, data, names)
    ensures r.Raised? <==>
              || MigrateHost(DataOrOptions(data, options, ConfHost, VNone),
                             DataOrOptions(data, options, ConfPort, VNone), lib).Raised?
              || (Truthy(TextModelEnabled(data, options))
                  && MigrateHost(DataOrOptions(data, options, ConfTextHost, VNone),
                                 DataOrOptions(data, options, ConfTextPort, VNone), lib).Raised?)
  {
    match MigrateHost(DataOrOptions(data, options, ConfHost, VNone),
                      DataOrOptions(data, options, ConfPort, VNone), lib)
    case Raised => Raised
    case Ok((host, port)) =>
      var model := DataOrOptions(data, options, ConfModel, VNone);
      var visionKeepalive := DataOrOptions(data, options, ConfVisionKeepalive, Client.DefaultKeepalive);
      var vision := SamplingFor(Vision, call, options, data, names);
      var enabled := TextModelEnabled(data, options);
      if !Truthy(enabled) then
        Ok(Settings(host, port, model, visionKeepalive, vision,
                    enabled, VNone, VNone, VNone, Client.DefaultKeepalive, DefaultSampling(names)))
      else
        match MigrateHost(DataOrOptions(data, options, ConfTextHost, VNone),
                          DataOrOptions(data, options, ConfTextPort, VNone), lib)
        case Raised => Raised
        case Ok((textHost, textPort)) =>
          Ok(Settings(host, port, model, visionKeepalive, vision,
                      enabled, textHost, textPort,
                      DataOrOptions(data, options, ConfTextModel, DefaultTextModel),
                      DataOrOptions(data, options, ConfTextKeepalive, Client.DefaultKeepalive),
                      SamplingFor(Text, call, options, data, names)))
  }

  /** The client built from resolved settings, from the nine values its constructor takes. */
  function ClientOf(s: Settings, lib: Lib): (c: Client.OllamaClient)
    ensures c.TextEnabled() <==> s.textHost != VNone
    ensures c.model == s.model && c.textModel == s.textModel
  {
    Client.NewClient(s.host, s.port, s.model, s.textHost, s.textPort, s.textModel,
                     s.visionKeepalive, s.textKeepalive, lib)
  }

  /** A service-call override beats the entry's options, which beat its data, which beat the
      default. */
  lemma OverrideWins(data: map<string, Val>, options: map<string, Val>, call: map<string, Val>,
                     names: Names, lib: Lib, side: Side, p: Param)
    requires Resolve(data, options, call, names, lib).Ok?
    requires side == Text ==> Truthy(TextModelEnabled(data, options))
    requires names.attr(side, p) in call
    ensures var s := Resolve(data, options, call, names, lib).value;
            (if side == Vision then s.vision else s.text)[p] == call[names.attr(side, p)]
  {
  }

  /** With the text model disabled, the client built from the settings has no text side, so
      elaboration passes its input through without a request. */
  lemma DisabledTextPassesThrough(data: map<string, Val>, options: map<string, Val>,
                                    call: map<string, Val>, names: Names, lib: Lib,
                                    text: string, template: string, w: Client.World)
    requires Resolve(data, options, call, names, lib).Ok?
    requires !Truthy(TextModelEnabled(data, options))
    ensures var c := ClientOf(Resolve(data, options, call, names, lib).value, lib);
            Client.ElaborateText(c, text, template, w) == Client.Elaboration(None, text)
  {
    var s := Resolve(data, options, call, names, lib).value;
    assert s.textHost == VNone;
    assert !ClientOf(s, lib).TextEnabled();
  }
}

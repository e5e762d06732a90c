/**
 * The device protocol as the accessory speaks it: the configuration the
 * request headers are filled from, the request bodies the handlers build,
 * and the part of a status response they read.
 */
module Wire {
  import opened Wrappers
  import opened Decimal

  /** The accessory's entry in the host configuration. */
  datatype Config = Config(
    name: string,
    model: string,
    deviceUrl: string,   // address of the device, without scheme or path
    channel: int,
    messageId: string,
    timestamp: int,
    sign: string)

  /** The `header` object of every request body. */
  datatype Header = Header(
    messageId: string,
    verb: string,        // the header's `method` field: "GET" or "SET"
    from: string,
    namespace: string,
    timestamp: int,
    sign: string,
    payloadVersion: int)

  /** The `payload` object of a request body, one constructor per shape the handlers build. */
  datatype Payload =
    | Empty                                  // {}
    | Toggle(onoff: int)                     // { toggle: { onoff } }
    | ToggleX(onoff: int, channel: string)   // { togglex: { onoff, channel } }
    | Light(channel: string, luminance: string, capacity: string, temperature: Option<string>)
                                             // { light: { channel, luminance, capacity[, temperature] } }

  datatype Body = Body(payload: Payload, header: Header)

  /** A request as handed to the transport: the URL it is posted to and its JSON body. */
  datatype Post = Post(url: string, body: Body)

  /** `payload.all.digest` of a status response, as far as the handlers read it. */
  datatype ToggleStatus = ToggleStatus(onoff: int)
  datatype LightStatus = LightStatus(luminance: int)
  datatype Digest = Digest(togglex: seq<ToggleStatus>, light: Option<LightStatus>)
  datatype Response = Response(digest: Digest)

  /** The one model that speaks the single-channel Toggle variant of the power command. */
  const LegacyToggleModel := "MSS110-1"

  const ToggleNamespace := "Appliance.Control.Toggle"
  const ToggleXNamespace := "Appliance.Control.ToggleX"
  const LightNamespace := "Appliance.Control.Light"
  const SystemAllNamespace := "Appliance.System.All"

  /** Light capacity flags sent with a brightness and with a temperature change. */
  const LuminanceCapacity := "4"
  const TemperatureCapacity := "2"

  function ConfigUrl(config: Config): string {
    "http://" + config.deviceUrl + "/config"
  }

  function MakeHeader(config: Config, verb: string, namespace: string): Header {
    Header(config.messageId, verb, ConfigUrl(config), namespace, config.timestamp, config.sign, 1)
  }

  function OnOff(value: bool): int {
    if value then 1 else 0
  }

  /** Body of the power set request (index.js:168-237). */
  function PowerSetBody(config: Config, value: bool): Body {
    if config.model == LegacyToggleModel then
      Body(Toggle(OnOff(value)), MakeHeader(config, "SET", ToggleNamespace))
    else
      Body(ToggleX(OnOff(value), Render(config.channel)), MakeHeader(config, "SET", ToggleXNamespace))
  }

  /** Body of the status query both get handlers send (index.js:281-292). */
  function StatusQueryBody(config: Config): Body {
    Body(Empty, MakeHeader(config, "GET", SystemAllNamespace))
  }

  /** Body of the brightness set request (index.js:356-373). */
  function BrightnessSetBody(config: Config, level: int): Body {
    Body(Light(Render(config.channel), Render(level), LuminanceCapacity, None),
         MakeHeader(config, "SET", LightNamespace))
  }

  /** Body of the colour temperature set request; `bri` is the cached brightness (index.js:499-517). */
  function TemperatureSetBody(config: Config, bri: int, level: int): Body {
    Body(Light(Render(config.channel), Render(bri), TemperatureCapacity, Some(Render(level))),
         MakeHeader(config, "SET", LightNamespace))
  }

  /**
   * The power command: the legacy model gets Toggle with no channel, every
   * other model ToggleX with the configured channel; onoff is 1 exactly when
   * the bulb is to be switched on.
   */
  lemma PowerSetRequest(config: Config, value: bool)
    ensures var b := PowerSetBody(config, value);
      && b.header.verb == "SET"
      && (b.header.namespace == ToggleNamespace <==> config.model == LegacyToggleModel)
      && (b.header.namespace == ToggleXNamespace <==> config.model != LegacyToggleModel)
      && (b.payload.Toggle? <==> config.model == LegacyToggleModel)
      && (b.payload.ToggleX? <==> config.model != LegacyToggleModel)
      && (b.payload.Toggle? || b.payload.ToggleX?)
      && (b.payload.onoff == 1 <==> value)
      && (b.payload.onoff == 0 <==> !value)
      && (b.payload.ToggleX? ==> ParseDecimal(b.payload.channel) == Some(config.channel))
  {
    ParseRender(config.channel);
  }

  /** The status query is a GET of Appliance.System.All with an empty payload. */
  lemma StatusQueryRequest(config: Config)
    ensures var b := StatusQueryBody(config);
      b.header.verb == "GET" && b.header.namespace == SystemAllNamespace && b.payload == Empty
  {
  }

  /** The brightness command carries the configured channel and the requested level unchanged. */
  lemma BrightnessSetRequest(config: Config, level: int)
    ensures var b := BrightnessSetBody(config, level);
      && b.header.verb == "SET"
      && b.header.namespace == LightNamespace
      && b.payload.Light?
      && ParseDecimal(b.payload.channel) == Some(config.channel)
      && ParseDecimal(b.payload.luminance) == Some(level)
      && b.payload.capacity == LuminanceCapacity
      && b.payload.temperature == None
  {
    ParseRender(config.channel);
    ParseRender(level);
  }

  /**
   * The temperature command carries the cached brightness as luminance, not
   * the new level, and the requested level as temperature, unconverted.
   */
  lemma TemperatureSetRequest(config: Config, bri: int, level: int)
    ensures var b := TemperatureSetBody(config, bri, level);
      && b.header.verb == "SET"
      && b.header.namespace == LightNamespace
      && b.payload.Light?
      && ParseDecimal(b.payload.channel) == Some(config.channel)
      && ParseDecimal(b.payload.luminance) == Some(bri)
      && b.payload.capacity == TemperatureCapacity
      && b.payload.temperature.Some?
      && ParseDecimal(b.payload.temperature.value) == Some(level)
  {
    ParseRender(config.channel);
    ParseRender(bri);
    ParseRender(level);
  }
}

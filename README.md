# Meross light accessory: a verified model

This project models the `Meross` accessory class of homebridge-meross-light,
a Homebridge plugin that drives a Meross smart bulb or plug over the device's
local HTTP protocol. The class keeps a small cache of what the bulb was last
told or reported (`isOn`, `bri`, `tmp`, plus `rgb` and `hue`, which nothing
ever changes). Each host get/set handler does three things. It builds a
request body: a header with messageId, method, from, namespace, timestamp,
sign and payloadVersion, plus a namespace-specific payload. It receives the
transport outcome. It then updates the cache by a fixed success/failure
policy and reports one cached value back. `getServices` binds handlers to
characteristics through a static per-model table.

Modules:

- `Wrappers`: `Option`.
- `Decimal`: how a template literal `${n}` renders an integer (`Render`), and
  the reading `ParseDecimal` that inverts it. Channel, luminance and
  temperature go on the wire as such strings.
- `Wire`: configuration, header, payload and response shapes, and one
  builder per request body.
- `Capabilities`: what `getServices` returns and which handlers it binds
  for which model.
- `Controller`: the cache, the specification functions `Request` and
  `Update`, and the class `Meross`. Each handler method there is
  proved to send `Request(...)` and to leave the cache at `Update(...)`.
- `Traces`: `Run` folds `Update` over a sequence of handler invocations.
  It is proved equal, field by field, to backward-looking definitions of
  which exchange last set each field.

The HTTP call is an input to each handler: `Some(response)` on success and
`None` on failure. `None` covers a transport error, a non-200 status and a
body that is not truthy. The source's `if (response)` treats all three the
same way. The constructor never assigns `isOn`, so it starts as `Unset`. The
power get copies the digest's `onoff` number into `isOn` as is (`Raw`).
Every other assignment stores a boolean (`Flag`).

Facts about the code worth knowing when reading the model:

- The code has no colour or temperature conversion. The temperature set sends the host's level as it is (index.js:505).
- The code keeps no colour mode.
- The code has no hue, saturation or temperature-get handler. The lines that would bind them are commented out (index.js:130-137, index.js:140).
- A failed brightness get forces `isOn` to false (index.js:456).

## Model

| member | source | states |
|---|---|---|
| Decimal.NatDigits | index.js:360 | the digits of a natural number are non-empty, all decimal digits, start with 0 only when they are the single digit 0, and read back as that number |
| Decimal.Render | index.js:217 | `${n}` of an integer is non-empty and starts with a minus sign exactly when n is negative |
| Decimal.ParseRender | index.js:502-505 | reading a rendered integer gives back that integer, so channel, luminance and temperature reach the device unaltered |
| Decimal.RenderInjective | index.js:502-505 | distinct integers are rendered as distinct strings |
| Wire.PowerSetRequest | index.js:168-237 | power set is SET; model MSS110-1 uses namespace Appliance.Control.Toggle with a `toggle` payload and no channel; every other model uses Appliance.Control.ToggleX with `togglex` carrying the configured channel; onoff is 1 exactly when on is requested, else 0 |
| Wire.StatusQueryRequest | index.js:281-292 | the status query is a GET of Appliance.System.All with an empty payload |
| Wire.BrightnessSetRequest | index.js:356-373 | brightness set is a SET of Appliance.Control.Light carrying the configured channel, luminance equal to the requested level, capacity "4" and no temperature |
| Wire.TemperatureSetRequest | index.js:499-517 | temperature set is a SET of Appliance.Control.Light carrying the channel, the cached brightness (not the new level) as luminance, capacity "2" and the requested level, unconverted, as temperature |
| Controller.Request | index.js:185-193 | every request is posted to http://<deviceUrl>/config, names that URL as `from`, passes messageId, timestamp and sign through from the configuration, has payloadVersion 1, and uses GET for get handlers and SET for set handlers |
| Controller.Update | index.js:239-534 | rgb and hue never change; brightness changes only on a successful brightness set or get; temperature changes only on a successful temperature set; a failed brightness or temperature set changes nothing; any other failure forces isOn to false; a successful brightness or temperature set forces it to true |
| Controller.Meross.constructor | index.js:26-41 | bri, tmp, rgb and hue start at 0 and isOn is left unset |
| Controller.Meross.SetOnCharacteristicHandler | index.js:154-256 | sends the power set request; on success isOn is the requested value, on failure false whatever was requested; only isOn changes and isOn is reported |
| Controller.Meross.GetOnCharacteristicHandler | index.js:258-329 | sends the status query; on success isOn is the first togglex entry's onoff, on failure false; only isOn changes and isOn is reported |
| Controller.Meross.SetBriCharacteristicHandler | index.js:331-400 | sends the brightness request; on success isOn is true and bri is the level; on failure nothing changes; bri is reported, so a failed set reports the previous brightness |
| Controller.Meross.GetBriCharacteristicHandler | index.js:402-470 | sends the status query; on success bri is the digest's luminance and isOn is untouched; on failure bri is kept and isOn is forced to false; bri is reported |
| Controller.Meross.SetTmpCharacteristicHandler | index.js:472-544 | sends the temperature request built from the cached brightness; on success isOn is true and tmp is the level, bri untouched; on failure nothing changes; tmp is reported |
| Capabilities.GetServices | index.js:103-152 | the information service names manufacturer Meross, the configured model and serial number 123; only MSL120 has Brightness or ColorTemperature; every binding calls the handler written for its characteristic and event, on a characteristic the lightbulb has; no handler is bound twice; On is always present |
| Capabilities.RegistrationTable | index.js:120-148 | MSL120 binds get and set on On and Brightness and only set on ColorTemperature; every other model binds only get and set on On (both directions) |
| Capabilities.TemperatureWithoutGetter | index.js:138-141 | on MSL120 the ColorTemperature characteristic is present with a set handler and no get handler |
| Traces.RunSnoc | index.js:239-534 | running one more handler after a sequence is one more cache update |
| Traces.RunBri | index.js:383-457 | after any sequence of handlers, bri is the level of the latest successful brightness set or the luminance of the latest successful brightness get, or its starting value if there is none |
| Traces.RunTmp | index.js:527-534 | after any sequence of handlers, tmp is the level of the latest successful temperature set, or its starting value |
| Traces.RunPower | index.js:239-534 | after any sequence of handlers, isOn is the value set by the latest exchange that assigns it (any power handler, a successful brightness or temperature set, a failed brightness get) |
| Traces.RunKeepsColour | index.js:37-41 | no sequence of handlers changes rgb or hue from what the constructor set |
| Traces.PowerKnownAfterPowerHandler | index.js:239-316 | once any power get or set has run, isOn is no longer unset |
| Traces.TemperatureUsesLatestBrightness | index.js:500-506 | a temperature set after any sequence of handlers from construction sends, as luminance, the latest brightness established (0 if none) and the level as temperature |

## Left out

- `doRequest` and the `request` library are not modelled: the HTTP POST, the `json`, `strictSSL: false` and Content-Type options, and the status-200 check (index.js:7-17). Each handler takes the outcome as an `Option<Response>` input.
- Homebridge `Service` and `Characteristic` objects, `registerAccessory` and `setCharacteristic` chaining are not modelled. Only the table of bindings is kept as data, and the `service` field is omitted.
- Async/await and the `callback(null, v)` convention are not modelled. Each handler method returns the value it would pass to the callback. Overlapping calls and their interleaving are not modelled either.
- Logging (`this.log`, `log.debug`) is not modelled.
- Malformed success responses are excluded. A get handler's success outcome must contain the field it reads (`Readable`). The source would throw on a missing `togglex[0]` or `light`, and the callback would never be called.
- The commented-out model-to-service switch (index.js:49-95) and the commented-out hue, saturation and temperature-get handlers (index.js:130-140) are dead code and are not modelled.
- Configuration values are typed: `channel` and `timestamp` are integers, while `messageId` and `sign` are strings, so their template literals are themselves. A configuration holding other JavaScript types (an absent channel renders as "undefined") is not modelled.
- Numbers are unbounded integers. JavaScript doubles and non-integer levels are not modelled. Neither is the host's coercion of a `Raw` onoff number to a boolean.

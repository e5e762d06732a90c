/**
 * The accessory controller: the cached characteristic values, the request
 * each handler sends, and the success/failure policy by which each handler
 * updates the cache and chooses the value it reports back to the host.
 *
 * The pure functions Request and Update are the specification;
 * the class Meross keeps the cache in fields and its handler methods are
 * proved to follow that specification.
 */
module Controller {
  import opened Wrappers
  import opened Wire

  /**
   * The value of `isOn`: never assigned (the constructor leaves it out), a
   * boolean assigned by a set handler or a failure, or the raw `onoff`
   * number copied out of a status digest.
   */
  datatype OnValue = Unset | Flag(on: bool) | Raw(onoff: int)

  /** The instance fields the handlers read and write. */
  datatype Cache = Cache(isOn: OnValue, bri: int, tmp: int, rgb: int, hue: int)

  /** The cache right after construction. */
  const InitialCache := Cache(Unset, 0, 0, 0, 0)

  /** One invocation of a registered handler, with the value the host passes to a set. */
  datatype Handler =
    | SetOn(value: bool)
    | GetOn
    | SetBri(level: int)
    | GetBri
    | SetTmp(level: int)

  predicate IsGet(h: Handler) {
    h.GetOn? || h.GetBri?
  }

  /**
   * A transport outcome the handler can consume: a failure, or a success
   * whose digest holds the field a get handler reads.
   */
  predicate Readable(h: Handler, outcome: Option<Response>) {
    outcome.Some? ==>
      && (h.GetOn? ==> |outcome.value.digest.togglex| > 0)
      && (h.GetBri? ==> outcome.value.digest.light.Some?)
  }

  /**
   * The request a handler sends given the cache it starts from. Every
   * request goes to the device's /config URL, names that URL as `from`,
   * passes messageId, timestamp and sign through from the configuration
   * and has payloadVersion 1; get handlers use GET, set handlers SET.
   */
  function Request(config: Config, c: Cache, h: Handler): (p: Post)
    ensures p.url == ConfigUrl(config) && p.body.header.from == p.url
    ensures p.body.header.messageId == config.messageId
    ensures p.body.header.timestamp == config.timestamp
    ensures p.body.header.sign == config.sign
    ensures p.body.header.payloadVersion == 1
    ensures p.body.header.verb == (if IsGet(h) then "GET" else "SET")
  {
    var body :=
      match h
      case SetOn(value) => PowerSetBody(config, value)
      case GetOn => StatusQueryBody(config)
      case SetBri(level) => BrightnessSetBody(config, level)
      case GetBri => StatusQueryBody(config)
      case SetTmp(level) => TemperatureSetBody(config, c.bri, level);
    Post(ConfigUrl(config), body)
  }

  /**
   * The cache after a handler has seen its transport outcome (Some on
   * success). The colour fields are never touched; brightness changes only
   * by a successful brightness set or get, temperature only by a successful
   * temperature set; a failed brightness or temperature set changes nothing,
   * any other failure forces the power flag off, and a successful brightness
   * or temperature set forces it on.
   */
  function Update(c: Cache, h: Handler, outcome: Option<Response>): (c': Cache)
    requires Readable(h, outcome)
    ensures c'.rgb == c.rgb && c'.hue == c.hue
    ensures c'.bri != c.bri ==> outcome.Some? && (h.SetBri? || h.GetBri?)
    ensures c'.tmp != c.tmp ==> outcome.Some? && h.SetTmp?
    ensures (h.SetBri? || h.SetTmp?) && outcome.None? ==> c' == c
    ensures (h.SetBri? || h.SetTmp?) && outcome.Some? ==> c'.isOn == Flag(true)
    ensures !(h.SetBri? || h.SetTmp?) && outcome.None? ==> c'.isOn == Flag(false)
  {
    match h
    case SetOn(value) =>
      c.(isOn := if outcome.Some? then Flag(value) else Flag(false))
    case GetOn =>
      c.(isOn := if outcome.Some? then Raw(outcome.value.digest.togglex[0].onoff) else Flag(false))
    case SetBri(level) =>
      if outcome.Some? then c.(isOn := Flag(true), bri := level) else c
    case GetBri =>
      if outcome.Some? then c.(bri := outcome.value.digest.light.value.luminance)
      else c.(isOn := Flag(false))
    case SetTmp(level) =>
      if outcome.Some? then c.(isOn := Flag(true), tmp := level) else c
  }

  class Meross {
    const config: Config
    var isOn: OnValue
    var bri: int
    var tmp: int
    var rgb: int
    var hue: int

    /** The cached fields as one value. */
    function Snapshot(): Cache
      reads this
    {
      Cache(isOn, bri, tmp, rgb, hue)
    }

    /** Brightness, temperature and the colour fields start at 0; isOn is not set. */
    constructor (config: Config)
      ensures this.config == config
      ensures isOn == Unset && bri == 0 && tmp == 0 && rgb == 0 && hue == 0
      ensures Snapshot() == InitialCache
    {
      this.config := config;
      isOn := Unset;
      bri := 0;
      tmp := 0;
      rgb := 0;
      hue := 0;
    }

    /**
     * Power set: after a success the cache holds the requested value, after
     * a failure it holds false whatever was requested; isOn is reported.
     */
    method SetOnCharacteristicHandler(value: bool, outcome: Option<Response>)
      returns (post: Post, reported: OnValue)
      modifies this`isOn
      ensures post == Request(config, old(Snapshot()), SetOn(value))
      ensures post.body == PowerSetBody(config, value)
      ensures outcome.Some? ==> isOn == Flag(value)
      ensures outcome.None? ==> isOn == Flag(false)
      ensures reported == isOn
      ensures Snapshot() == Update(old(Snapshot()), SetOn(value), outcome)
    {
      post := Post(ConfigUrl(config), PowerSetBody(config, value));
      if outcome.Some? {
        isOn := Flag(value);
      } else {
        isOn := Flag(false);
      }
      reported := isOn;
    }

    /**
     * Power get: a status query; after a success the cache holds the first
     * togglex entry's onoff as the device sent it, after a failure false.
     */
    method GetOnCharacteristicHandler(outcome: Option<Response>)
      returns (post: Post, reported: OnValue)
      requires Readable(GetOn, outcome)
      modifies this`isOn
      ensures post == Request(config, old(Snapshot()), GetOn)
      ensures post.body == StatusQueryBody(config)
      ensures outcome.Some? ==> isOn == Raw(outcome.value.digest.togglex[0].onoff)
      ensures outcome.None? ==> isOn == Flag(false)
      ensures reported == isOn
      ensures Snapshot() == Update(old(Snapshot()), GetOn, outcome)
    {
      post := Post(ConfigUrl(config), StatusQueryBody(config));
      if outcome.Some? {
        isOn := Raw(outcome.value.digest.togglex[0].onoff);
      } else {
        isOn := Flag(false);
      }
      reported := isOn;
    }

    /**
     * Brightness set: after a success the bulb is on and the cache holds the
     * new level; after a failure nothing changes, so the previous brightness
     * is reported.
     */
    method SetBriCharacteristicHandler(level: int, outcome: Option<Response>)
      returns (post: Post, reported: int)
      modifies this`isOn, this`bri
      ensures post == Request(config, old(Snapshot()), SetBri(level))
      ensures post.body == BrightnessSetBody(config, level)
      ensures outcome.Some? ==> isOn == Flag(true) && bri == level
      ensures outcome.None? ==> isOn == old(isOn) && bri == old(bri)
      ensures reported == bri
      ensures Snapshot() == Update(old(Snapshot()), SetBri(level), outcome)
    {
      post := Post(ConfigUrl(config), BrightnessSetBody(config, level));
      if outcome.Some? {
        isOn := Flag(true);
        bri := level;
      }
      reported := bri;
    }

    /**
     * Brightness get: a status query; after a success the cache holds the
     * digest's luminance and isOn is left alone, after a failure brightness
     * is kept and isOn is forced to false.
     */
    method GetBriCharacteristicHandler(outcome: Option<Response>)
      returns (post: Post, reported: int)
      requires Readable(GetBri, outcome)
      modifies this`isOn, this`bri
      ensures post == Request(config, old(Snapshot()), GetBri)
      ensures post.body == StatusQueryBody(config)
      ensures outcome.Some? ==> bri == outcome.value.digest.light.value.luminance && isOn == old(isOn)
      ensures outcome.None? ==> bri == old(bri) && isOn == Flag(false)
      ensures reported == bri
      ensures Snapshot() == Update(old(Snapshot()), GetBri, outcome)
    {
      post := Post(ConfigUrl(config), StatusQueryBody(config));
      if outcome.Some? {
        bri := outcome.value.digest.light.value.luminance;
      } else {
        isOn := Flag(false);
      }
      reported := bri;
    }

    /**
     * Colour temperature set: the request carries the cached brightness and
     * the raw level; after a success the bulb is on and the cache holds the
     * level (brightness untouched), after a failure nothing changes.
     */
    method SetTmpCharacteristicHandler(level: int, outcome: Option<Response>)
      returns (post: Post, reported: int)
      modifies this`isOn, this`tmp
      ensures post == Request(config, old(Snapshot()), SetTmp(level))
      ensures post.body == TemperatureSetBody(config, old(bri), level)
      ensures outcome.Some? ==> isOn == Flag(true) && tmp == level
      ensures outcome.None? ==> isOn == old(isOn) && tmp == old(tmp)
      ensures reported == tmp
      ensures Snapshot() == Update(old(Snapshot()), SetTmp(level), outcome)
    {
      post := Post(ConfigUrl(config), TemperatureSetBody(config, bri, level));
      if outcome.Some? {
        isOn := Flag(true);
        tmp := level;
      }
      reported := tmp;
    }
  }
}

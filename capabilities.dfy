/**
 * What getServices registers with the host: an information service and a
 * lightbulb service whose characteristics get handlers bound by a static,
 * per-model table.
 */
module Capabilities {
  import opened Wire

  datatype Characteristic = On | Brightness | ColorTemperature

  datatype Event = Get | Set

  /** The handler methods of the accessory class. */
  datatype HandlerName =
    | GetOnHandler
    | SetOnHandler
    | GetBriHandler
    | SetBriHandler
    | SetTmpHandler

  /** One `.on(event, handler)` binding on a characteristic. */
  datatype Registration = Registration(characteristic: Characteristic, event: Event, handler: HandlerName)

  datatype Information = Information(manufacturer: string, model: string, serialNumber: string)

  /**
   * The two services getServices returns: the information service and the
   * lightbulb, given by its characteristics and their bindings in the order
   * they are made.
   */
  datatype Services = Services(
    information: Information,
    characteristics: seq<Characteristic>,
    registrations: seq<Registration>)

  /** The one model with brightness and colour temperature. */
  const DimmableModel := "MSL120"

  /** The characteristic and event each handler method answers. */
  function Serves(h: HandlerName): (Characteristic, Event) {
    match h
    case GetOnHandler => (On, Get)
    case SetOnHandler => (On, Set)
    case GetBriHandler => (Brightness, Get)
    case SetBriHandler => (Brightness, Set)
    case SetTmpHandler => (ColorTemperature, Set)
  }

  /**
   * The model -> handler table. Every binding calls the handler written for
   * its characteristic and event, and only on a characteristic the service
   * has; no characteristic and event are bound twice; only the dimmable
   * model has brightness or colour temperature; the information service
   * names the configured model.
   */
  function GetServices(config: Config): (s: Services)
    ensures s.information.manufacturer == "Meross" && s.information.model == config.model
    ensures s.information.serialNumber == "123"
    ensures (Brightness in s.characteristics || ColorTemperature in s.characteristics) ==>
      config.model == DimmableModel
    ensures |s.characteristics| > 0 && s.characteristics[0] == On
    ensures forall i :: 0 <= i < |s.registrations| ==>
      Serves(s.registrations[i].handler) == (s.registrations[i].characteristic, s.registrations[i].event)
    ensures forall i :: 0 <= i < |s.registrations| ==> s.registrations[i].characteristic in s.characteristics
    ensures forall i, j :: 0 <= i < j < |s.registrations| ==>
      s.registrations[i].handler != s.registrations[j].handler
  {
    var info := Information("Meross", config.model, "123");
    if config.model == DimmableModel then
      Services(info, [On, Brightness, ColorTemperature],
               [Registration(On, Get, GetOnHandler),
                Registration(On, Set, SetOnHandler),
                Registration(Brightness, Get, GetBriHandler),
                Registration(Brightness, Set, SetBriHandler),
                Registration(ColorTemperature, Set, SetTmpHandler)])
    else
      Services(info, [On],
               [Registration(On, Get, GetOnHandler),
                Registration(On, Set, SetOnHandler)])
  }

  /** Whether getServices binds a handler to the event on the characteristic. */
  predicate Registered(config: Config, ch: Characteristic, ev: Event) {
    var regs := GetServices(config).registrations;
    exists i :: 0 <= i < |regs| && regs[i].characteristic == ch && regs[i].event == ev
  }

  /**
   * The dimmable model binds get and set on power and brightness and only a
   * set on colour temperature; every other model binds get and set on power
   * and nothing else.
   */
  lemma RegistrationTable(config: Config, ch: Characteristic, ev: Event)
    ensures Registered(config, ch, ev) <==>
      (ch == On || (config.model == DimmableModel && (ch == Brightness || (ch == ColorTemperature && ev == Set))))
  {
    var regs := GetServices(config).registrations;
    if ch == On || (config.model == DimmableModel && (ch == Brightness || (ch == ColorTemperature && ev == Set))) {
      var k := match (ch, ev)
        case (On, Get) => 0
        case (On, Set) => 1
        case (Brightness, Get) => 2
        case (Brightness, Set) => 3
        case (ColorTemperature, _) => 4;
      assert regs[k].characteristic == ch && regs[k].event == ev;
    }
  }

  /** The dimmable bulb shows a colour temperature the host cannot read back through a handler. */
  lemma TemperatureWithoutGetter(config: Config)
    requires config.model == DimmableModel
    ensures ColorTemperature in GetServices(config).characteristics
    ensures Registered(config, ColorTemperature, Set) && !Registered(config, ColorTemperature, Get)
  {
    RegistrationTable(config, ColorTemperature, Set);
    RegistrationTable(config, ColorTemperature, Get);
  }
}

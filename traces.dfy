/**
 * Sequences of handler invocations on one accessory. Run folds the
 * controller's update policy over a trace; LastBri, LastTmp and LastPower
 * are independent, backward-looking definitions of which exchange last
 * established each cached field, and the lemmas prove the two agree.
 */
module Traces {
  import opened Wrappers
  import opened Decimal
  import opened Wire
  import opened Controller

  /** One handler invocation together with the transport outcome it saw. */
  datatype Exchange = Exchange(handler: Handler, outcome: Option<Response>)

  predicate Consumable(e: Exchange) {
    Readable(e.handler, e.outcome)
  }

  predicate AllConsumable(t: seq<Exchange>) {
    forall i :: 0 <= i < |t| ==> Consumable(t[i])
  }

  /** The cache after the exchanges of t, in order, starting from c. */
  function Run(c: Cache, t: seq<Exchange>): Cache
    requires AllConsumable(t)
    decreases |t|
  {
    if |t| == 0 then c
    else Run(Update(c, t[0].handler, t[0].outcome), t[1..])
  }

  /** The brightness an exchange establishes, if any. */
  function BriSetBy(e: Exchange): Option<int>
    requires Consumable(e)
  {
    match e.handler
    case SetBri(level) => if e.outcome.Some? then Some(level) else None
    case GetBri => if e.outcome.Some? then Some(e.outcome.value.digest.light.value.luminance) else None
    case _ => None
  }

  /** The temperature an exchange establishes, if any. */
  function TmpSetBy(e: Exchange): Option<int> {
    match e.handler
    case SetTmp(level) => if e.outcome.Some? then Some(level) else None
    case _ => None
  }

  /** The power value an exchange establishes, if any. */
  function PowerSetBy(e: Exchange): Option<OnValue>
    requires Consumable(e)
  {
    match e.handler
    case SetOn(value) => Some(if e.outcome.Some? then Flag(value) else Flag(false))
    case GetOn => Some(if e.outcome.Some? then Raw(e.outcome.value.digest.togglex[0].onoff) else Flag(false))
    case SetBri(_) => if e.outcome.Some? then Some(Flag(true)) else None
    case GetBri => if e.outcome.Some? then None else Some(Flag(false))
    case SetTmp(_) => if e.outcome.Some? then Some(Flag(true)) else None
  }

  /** The brightness set by the latest exchange of t that sets one, or init. */
  function LastBri(init: int, t: seq<Exchange>): int
    requires AllConsumable(t)
    decreases |t|
  {
    if |t| == 0 then init
    else match BriSetBy(t[|t| - 1])
      case Some(b) => b
      case None => LastBri(init, t[..|t| - 1])
  }

  /** The temperature set by the latest exchange of t that sets one, or init. */
  function LastTmp(init: int, t: seq<Exchange>): int
    decreases |t|
  {
    if |t| == 0 then init
    else match TmpSetBy(t[|t| - 1])
      case Some(v) => v
      case None => LastTmp(init, t[..|t| - 1])
  }

  /** The power value set by the latest exchange of t that sets one, or init. */
  function LastPower(init: OnValue, t: seq<Exchange>): OnValue
    requires AllConsumable(t)
    decreases |t|
  {
    if |t| == 0 then init
    else match PowerSetBy(t[|t| - 1])
      case Some(v) => v
      case None => LastPower(init, t[..|t| - 1])
  }

  /** Running a trace and then one more exchange is one update after the run. */
  lemma {:induction false} RunSnoc(c: Cache, t: seq<Exchange>, e: Exchange)
    requires AllConsumable(t) && Consumable(e)
    ensures AllConsumable(t + [e])
    ensures Run(c, t + [e]) == Update(Run(c, t), e.handler, e.outcome)
    decreases |t|
  {
    assert AllConsumable(t + [e]) by {
      forall i | 0 <= i < |t + [e]| ensures Consumable((t + [e])[i]) {
        if i < |t| { assert (t + [e])[i] == t[i]; }
      }
    }
    if |t| == 0 {
      assert t + [e] == [e];
    } else {
      assert (t + [e])[1..] == t[1..] + [e];
      RunSnoc(Update(c, t[0].handler, t[0].outcome), t[1..], e);
    }
  }

  /** The brightness after a trace is the one the latest brightness-setting exchange established. */
  lemma {:induction false} RunBri(c: Cache, t: seq<Exchange>)
    requires AllConsumable(t)
    ensures Run(c, t).bri == LastBri(c.bri, t)
    decreases |t|
  {
    if |t| > 0 {
      var front, e := t[..|t| - 1], t[|t| - 1];
      assert t == front + [e];
      RunBri(c, front);
      RunSnoc(c, front, e);
    }
  }

  /** The temperature after a trace is the one the latest successful temperature set established. */
  lemma {:induction false} RunTmp(c: Cache, t: seq<Exchange>)
    requires AllConsumable(t)
    ensures Run(c, t).tmp == LastTmp(c.tmp, t)
    decreases |t|
  {
    if |t| > 0 {
      var front, e := t[..|t| - 1], t[|t| - 1];
      assert t == front + [e];
      RunTmp(c, front);
      RunSnoc(c, front, e);
    }
  }

  /** The power flag after a trace is the one the latest power-affecting exchange established. */
  lemma {:induction false} RunPower(c: Cache, t: seq<Exchange>)
    requires AllConsumable(t)
    ensures Run(c, t).isOn == LastPower(c.isOn, t)
    decreases |t|
  {
    if |t| > 0 {
      var front, e := t[..|t| - 1], t[|t| - 1];
      assert t == front + [e];
      RunPower(c, front);
      RunSnoc(c, front, e);
    }
  }

  /** No handler ever changes the colour fields the constructor sets. */
  lemma {:induction false} RunKeepsColour(c: Cache, t: seq<Exchange>)
    requires AllConsumable(t)
    ensures Run(c, t).rgb == c.rgb && Run(c, t).hue == c.hue
    decreases |t|
  {
    if |t| > 0 {
      RunKeepsColour(Update(c, t[0].handler, t[0].outcome), t[1..]);
    }
  }

  /** Once any power handler has run, isOn holds a value. */
  lemma {:induction false} PowerKnownAfterPowerHandler(c: Cache, t: seq<Exchange>, k: nat)
    requires AllConsumable(t)
    requires k < |t| && (t[k].handler.SetOn? || t[k].handler.GetOn?)
    ensures !Run(c, t).isOn.Unset?
  {
    RunPower(c, t);
    LastPowerSet(c.isOn, t, k);
  }

  lemma {:induction false} LastPowerSet(init: OnValue, t: seq<Exchange>, k: nat)
    requires AllConsumable(t)
    requires k < |t| && (t[k].handler.SetOn? || t[k].handler.GetOn?)
    ensures !LastPower(init, t).Unset?
    decreases |t|
  {
    var e := t[|t| - 1];
    if k < |t| - 1 && PowerSetBy(e).None? {
      var front := t[..|t| - 1];
      assert front[k] == t[k];
      LastPowerSet(init, front, k);
    }
  }

  /**
   * A temperature set sends, as luminance, the brightness the latest
   * brightness-setting exchange established since construction (0 if none).
   */
  lemma TemperatureUsesLatestBrightness(config: Config, t: seq<Exchange>, level: int)
    requires AllConsumable(t)
    ensures var p := Request(config, Run(InitialCache, t), SetTmp(level));
      && p.body.payload.Light?
      && ParseDecimal(p.body.payload.luminance) == Some(LastBri(0, t))
      && p.body.payload.temperature == Some(Render(level))
  {
    RunBri(InitialCache, t);
    TemperatureSetRequest(config, Run(InitialCache, t).bri, level);
  }
}

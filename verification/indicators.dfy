// Four indicators that share one RGB LED.
module Indicators {
  datatype IndicatorType = Status | Warning | Fault | Maintenance
  datatype IndicatorState = NotAvailable | Off | On | Blinking

  type Byte = n: int | 0 <= n < 256
  datatype Rgb = Rgb(red: Byte, green: Byte, blue: Byte)

  const DARK := Rgb(0, 0, 0)

  // The first entry with the key; the source throws when there is none, which cannot happen for
  // a table that has every key.
  function At<K(==), V>(table: seq<(K, V)>, key: K): V
    requires exists i :: 0 <= i < |table| && table[i].0 == key
  {
    if table[0].0 == key then table[0].1 else At(table[1..], key)
  }

  const COLOURS: seq<(IndicatorType, Rgb)> :=
    [(Status, Rgb(0, 255, 0)), (Warning, Rgb(255, 255, 0)), (Maintenance, Rgb(0, 0, 255)), (Fault, Rgb(255, 0, 0))]

  lemma TableHasEveryType(t: IndicatorType)
    ensures exists i :: 0 <= i < |COLOURS| && COLOURS[i].0 == t
  {
    assert COLOURS[0].0 == Status && COLOURS[1].0 == Warning && COLOURS[2].0 == Maintenance && COLOURS[3].0 == Fault;
  }

  function Colour(t: IndicatorType): Rgb {
    TableHasEveryType(t);
    At(COLOURS, t)
  }

  lemma ColoursDiffer(t: IndicatorType, u: IndicatorType)
    ensures Colour(t) != DARK && (Colour(t) == Colour(u) ==> t == u)
  {
    ColourTable(t);
    ColourTable(u);
  }

  lemma ColourTable(t: IndicatorType)
    ensures Colour(t) ==
      match t
      case Status => Rgb(0, 255, 0)
      case Warning => Rgb(255, 255, 0)
      case Maintenance => Rgb(0, 0, 255)
      case Fault => Rgb(255, 0, 0)
  {
    TableHasEveryType(t);
    var rest := COLOURS[1..];
    assert rest[0] == COLOURS[1] && rest[1..] == COLOURS[2..];
    assert COLOURS[2..][0] == COLOURS[2] && COLOURS[2..][1..] == COLOURS[3..];
    assert COLOURS[3..][0] == COLOURS[3];
  }

  class RgbLed {
    var brightness: Rgb

    constructor (brightness: Rgb)
      ensures this.brightness == brightness
    {
      this.brightness := brightness;
    }
  }

  class RgbIndicator {
    const kind: IndicatorType
    const led: RgbLed

    constructor (kind: IndicatorType, led: RgbLed)
      ensures this.kind == kind && this.led == led
    {
      this.kind := kind;
      this.led := led;
    }

    function State(): IndicatorState
      reads led
    {
      if led.brightness == Colour(kind) then On else Off
    }

    method SetState(state: IndicatorState)
      modifies led
      ensures led.brightness == Shown(old(led.brightness), kind, state)
    {
      match state {
        case On => led.brightness := Colour(kind);
        case Off => led.brightness := DARK;
        case _ =>
      }
    }
  }

  // The LED after a state is set for an indicator that it has.
  function Shown(led: Rgb, t: IndicatorType, state: IndicatorState): Rgb {
    match state
    case On => Colour(t)
    case Off => DARK
    case _ => led
  }

  datatype Call = Call(t: IndicatorType, state: IndicatorState)

  function ShownAll(led: Rgb, calls: seq<Call>): Rgb {
    if calls == [] then led
    else var last := calls[|calls| - 1]; Shown(ShownAll(led, calls[..|calls| - 1]), last.t, last.state)
  }

  datatype Lit = Nobody | Only(t: IndicatorType)

  // Whom the last On or Off call left lit.
  function LitBy(first: Lit, calls: seq<Call>): Lit {
    if calls == [] then first
    else
      var last := calls[|calls| - 1];
      match last.state
      case On => Only(last.t)
      case Off => Nobody
      case _ => LitBy(first, calls[..|calls| - 1])
  }

  function LedOf(lit: Lit): Rgb { if lit.Nobody? then DARK else Colour(lit.t) }

  // The LED shows the last On call that no Off call followed, whichever indicators they were for.
  lemma {:induction false} LedShowsLastCall(first: Lit, calls: seq<Call>)
    ensures ShownAll(LedOf(first), calls) == LedOf(LitBy(first, calls))
    decreases |calls|
  {
    if calls != [] { LedShowsLastCall(first, calls[..|calls| - 1]); }
  }

  lemma ShownMore(led: Rgb, calls: seq<Call>, c: Call)
    ensures ShownAll(led, calls + [c]) == Shown(ShownAll(led, calls), c.t, c.state)
  {
    assert (calls + [c])[..|calls|] == calls;
  }

  class MainBoard {
    const led: RgbLed
    var indicators: seq<RgbIndicator>
    ghost var calls: seq<Call>

    // The four indicators the provider builds on its one LED, and what has been asked of them.
    ghost predicate Valid()
      reads this, led
    {
      && |indicators| == 4
      && (forall i :: 0 <= i < 4 ==> indicators[i].led == led)
      && indicators[0].kind == Fault && indicators[1].kind == Maintenance
      && indicators[2].kind == Status && indicators[3].kind == Warning
      && led.brightness == ShownAll(Colour(Status), calls)
    }

    constructor (led: RgbLed)
      modifies led
      ensures Valid() && calls == [] && this.led == led
    {
      var fault := new RgbIndicator(Fault, led);
      var maintenance := new RgbIndicator(Maintenance, led);
      var status := new RgbIndicator(Status, led);
      var warning := new RgbIndicator(Warning, led);
      this.led := led;
      this.indicators := [fault, maintenance, status, warning];
      this.calls := [];
      new;
      status.SetState(Off);
      status.SetState(On);
    }

    method Find(t: IndicatorType) returns (i: nat)
      ensures i <= |indicators|
      ensures i < |indicators| ==> indicators[i].kind == t
      ensures forall j :: 0 <= j < i ==> indicators[j].kind != t
    {
      i := 0;
      while i < |indicators| && indicators[i].kind != t
        invariant i <= |indicators|
        invariant forall j :: 0 <= j < i ==> indicators[j].kind != t
      {
        i := i + 1;
      }
    }

    // At any moment, t reads On exactly when the last On or Off call was On for t.
    method ReadIndicator(t: IndicatorType) returns (state: IndicatorState)
      requires Valid()
      ensures state == On <==> LitBy(Only(Status), calls) == Only(t)
      ensures state in {On, Off}
    {
      var i := Find(t);
      assert indicators[0].kind != t && indicators[1].kind != t && indicators[2].kind != t ==> indicators[3].kind == t;
      if i == |indicators| { return NotAvailable; }
      LedShowsLastCall(Only(Status), calls);
      ColoursDiffer(t, Status);
      if LitBy(Only(Status), calls).Only? { ColoursDiffer(t, LitBy(Only(Status), calls).t); }
      state := indicators[i].State();
    }

    method SetIndicatorState(t: IndicatorType, state: IndicatorState)
      requires Valid()
      modifies this`calls, led
      ensures Valid() && calls == old(calls) + [Call(t, state)] && indicators == old(indicators)
    {
      var i := Find(t);
      assert indicators[0].kind != t && indicators[1].kind != t && indicators[2].kind != t ==> indicators[3].kind == t;
      ShownMore(Colour(Status), calls, Call(t, state));
      indicators[i].SetState(state);
      calls := calls + [Call(t, state)];
    }
  }

  // So never more than one of them reads On.
  lemma AtMostOneOn(calls: seq<Call>, t: IndicatorType, u: IndicatorType)
    requires ShownAll(Colour(Status), calls) == Colour(t) && ShownAll(Colour(Status), calls) == Colour(u)
    ensures t == u && LitBy(Only(Status), calls) == Only(t)
  {
    LedShowsLastCall(Only(Status), calls);
    ColoursDiffer(t, u);
    if LitBy(Only(Status), calls).Only? { ColoursDiffer(t, LitBy(Only(Status), calls).t); }
  }
}

// What each operation of EntityAdapter computes. The adapter has no state beside its entity's.
module AdapterSpec {
  import opened Wrappers
  import opened MqttWire
  import opened MqttError
  import opened EntitySpec
  import C = ClientSpec

  // What one adapter is built with: its entity's kind, its discovery config, the reconnection limit.
  datatype Setup = Setup(kind: Kind, config: string, max: int)

  const QOS := 1
  const INIT_RETRY_ATTEMPTS := 10

  // A timer that fails throws.
  function AsyncWait(s: EntityState): (r: Run<int>)
    ensures Later(s, r.st)
  {
    var (ec, s1) :- Lift(s, C.Wait(s.c));
    if ec != 0 then Step(Thrown, s1) else Step(Done(0), s1)
  }

  function AsyncSyncState(a: Setup, s: EntityState): (r: Run<int>)
    ensures Later(s, r.st)
  {
    if a.kind.Button? then Step(Done(NO_ERROR), s) else
    var (payload, s1) :- Lift(s, C.ReadDevice(s.c));
    AsyncSetState(s1, payload, QOS)
  }

  // The outcomes of announcing "online" and of syncing the state are not looked at.
  function Announce(a: Setup, s: EntityState): (r: Run<bool>)
    ensures Later(s, r.st)
  {
    var (_, s1) :- AsyncWait(s);
    var (_, s2) :- AsyncSetAvailability(s1, true, QOS);
    var (_, s3) :- AsyncSyncState(a, s2);
    Step(Done(true), s3)
  }

  function Configure(a: Setup, s: EntityState): (r: Run<bool>)
    ensures Later(s, r.st)
  {
    var (err, s1) :- AsyncConfigure(a.kind, s, a.config, QOS, a.max);
    if err != NO_ERROR then Step(Done(false), s1) else Announce(a, s1)
  }

  // Up to ten connects, a minute apart; the last error when none succeeds.
  function InitConnect(s: EntityState, max: int, attempt: nat, error: int): (r: Run<int>)
    ensures Later(s, r.st)
    decreases s.c.script
  {
    if attempt >= INIT_RETRY_ATTEMPTS then Step(Done(error), s) else
    var (err, s1) :- AsyncConnect(s, max);
    if err == NO_ERROR then Step(Done(NO_ERROR), s1) else
    var (_, s2) :- AsyncWait(s1);
    InitConnect(s2, max, attempt + 1, err)
  }

  // What is left of that loop leads to this outcome.
  ghost predicate Leads(s: EntityState, max: int, attempt: nat, error: int, outcome: Run<int>) {
    InitConnect(s, max, attempt, error) == outcome
  }

  // One turn of the loop: it ends with the connect or with the wait, or goes on behind them.
  lemma LeadsOn(s: EntityState, max: int, attempt: nat, error: int, outcome: Run<int>, c: Run<int>, w: Run<int>)
    requires Leads(s, max, attempt, error, outcome) && attempt < INIT_RETRY_ATTEMPTS
    requires c == AsyncConnect(s, max) && w == AsyncWait(c.st)
    ensures if !c.flow.Done? || c.flow.value == NO_ERROR then outcome == c
            else if !w.flow.Done? then outcome == w
            else Leads(w.st, max, attempt + 1, c.flow.value, outcome)
  {
  }

  lemma LeadsEnd(s: EntityState, max: int, error: int, outcome: Run<int>)
    requires Leads(s, max, INIT_RETRY_ATTEMPTS, error, outcome)
    ensures outcome == Step(Done(error), s)
  {
  }

  function AsyncInit(a: Setup, s: EntityState): (r: Run<bool>)
  {
    var (err, s1) :- InitConnect(s, a.max, 0, NO_ERROR);
    if err != NO_ERROR then Step(Done(false), s1) else Configure(a, s1)
  }

  function HandleError(a: Setup, s: EntityState, code: int): (r: Run<bool>)
    ensures Later(s, r.st)
    ensures code == DISCONNECTED && r.flow.Done? ==> Consumed(s, r.st)
  {
    if code == DISCONNECTED then
      var (err, s1) :- AsyncConnect(s, a.max);
      if err != NO_ERROR then Step(Done(false), s1) else Configure(a, s1)
    else if code == RECONNECTED then Configure(a, s)
    else Step(Done(false), s)
  }

  // The endless receive loop: it ends only with the script or by an exception. What a command
  // does to the device is outside the entity.
  function AsyncRun(a: Setup, s: EntityState): (r: Run<()>)
    ensures Later(s, r.st)
    ensures !r.flow.Done?
    decreases s.c.script
  {
    var (e, s1) :- AsyncReceiveCommand(a.kind, s, a.max);
    match e
    case Value(_) => AsyncRun(a, s1)
    case Unexpected(code) =>
      var (_, s2) :- HandleError(a, s1, code);
      AsyncRun(a, s2)
  }

  // A whole life: initialise and, if that works, run.
  function Life(a: Setup, category: nat, script: Script): (s: EntityState) {
    var init := AsyncInit(a, Fresh(category, script));
    if init.flow == Done(true) then AsyncRun(a, init.st).st else init.st
  }
}

// EntityAdapter: each operation does what AdapterSpec says.
module Adapter {
  import opened MqttWire
  import opened MqttError
  import opened Client
  import opened Entities
  import Spec = AdapterSpec
  import EntitySpec

  class EntityAdapter {
    const entity: Entity
    const config: string

    ghost function Setup(): Spec.Setup { Spec.Setup(entity.kind, config, entity.client.maxAttempts) }

    ghost function State(): (s: EntitySpec.EntityState)
      reads entity, entity.client
    {
      entity.State()
    }

    constructor (entity: Entity, config: string)
      ensures this.entity == entity && this.config == config
    {
      this.entity := entity;
      this.config := config;
    }

    method AsyncWait() returns (r: Flow<int>)
      modifies entity, entity.client
      ensures Step(r, State()) == Spec.AsyncWait(old(State()))
    {
      var ec :- entity.client.Wait();
      if ec != 0 { return Thrown; }
      return Done(0);
    }

    method AsyncSyncState() returns (r: Flow<int>)
      modifies entity, entity.client
      ensures Step(r, State()) == Spec.AsyncSyncState(Setup(), old(State()))
    {
      if entity.kind.Button? { return Done(NO_ERROR); }
      var payload :- entity.client.ReadDevice();
      r := entity.AsyncSetState(payload, Spec.QOS);
    }

    method AsyncConfigure() returns (r: Flow<bool>)
      modifies entity, entity.client
      ensures Step(r, State()) == Spec.Configure(Setup(), old(State()))
    {
      var err :- entity.AsyncConfigure(config, Spec.QOS);
      if err != NO_ERROR { return Done(false); }
      var _ :- AsyncWait();
      var _ :- entity.AsyncSetAvailability(true, Spec.QOS);
      var _ :- AsyncSyncState();
      return Done(true);
    }

    // The retry loop of async_init: the last error, or NO_ERROR.
    method InitConnect() returns (r: Flow<int>)
      modifies entity, entity.client
      ensures Step(r, State()) == Spec.InitConnect(old(State()), entity.client.maxAttempts, 0, NO_ERROR)
    {
      ghost var max := entity.client.maxAttempts;
      ghost var s, outcome := State(), Spec.InitConnect(State(), max, 0, NO_ERROR);
      var error := NO_ERROR;
      for attempt := 0 to Spec.INIT_RETRY_ATTEMPTS
        invariant s == State() && Spec.Leads(s, max, attempt, error, outcome)
      {
        ghost var c := EntitySpec.AsyncConnect(s, max);
        Spec.LeadsOn(s, max, attempt, error, outcome, c, Spec.AsyncWait(c.st));
        error :- entity.AsyncConnect();
        if error == NO_ERROR { return Done(NO_ERROR); }
        var _ :- AsyncWait();
        s := State();
      }
      Spec.LeadsEnd(s, max, error, outcome);
      return Done(error);
    }

    method AsyncInit() returns (r: Flow<bool>)
      modifies entity, entity.client
      ensures Step(r, State()) == Spec.AsyncInit(Setup(), old(State()))
    {
      var error :- InitConnect();
      if error != NO_ERROR { return Done(false); }
      r := AsyncConfigure();
    }

    method AsyncHandleError(code: int) returns (r: Flow<bool>)
      modifies entity, entity.client
      ensures Step(r, State()) == Spec.HandleError(Setup(), old(State()), code)
    {
      if code == DISCONNECTED {
        var err :- entity.AsyncConnect();
        if err != NO_ERROR { return Done(false); }
        r := AsyncConfigure();
      } else if code == RECONNECTED {
        r := AsyncConfigure();
      } else {
        return Done(false);
      }
    }

    method AsyncRun() returns (r: Flow<()>)
      modifies entity, entity.client
      ensures Step(r, State()) == Spec.AsyncRun(Setup(), old(State()))
    {
      while true
        invariant Spec.AsyncRun(Setup(), State()) == Spec.AsyncRun(Setup(), old(State()))
        decreases entity.client.script
      {
        var command :- entity.AsyncReceiveCommand();
        if command.Unexpected? {
          var _ :- AsyncHandleError(command.error);
        }
      }
    }
  }
}

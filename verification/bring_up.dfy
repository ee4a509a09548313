// Bringing up the board and the devices of a platform description: ids, tree, identities and
// the MQTT client ids made from them.
module BringUp {
  import opened Wrappers
  import opened DeviceTrees
  import opened Formatting

  datatype HardwareIdentity = HardwareIdentity(
    manufacturer: string, model: string, revision: string, serialNumber: string)

  type Store = map<DeviceId, HardwareIdentity>

  // The identity of a device: its own, or that of its direct parent; None is the exception.
  function Identity(store: Store, nodes: seq<Node>, d: DeviceId): (r: Option<HardwareIdentity>) {
    if d in store then Some(store[d])
    else match Parent(nodes, d)
      case None => None
      case Some(p) => if p in store then Some(store[p]) else None
  }

  datatype DeviceKind = Hatch | TempSensor

  // An entry of the platform description.
  datatype Descriptor =
    | RgbIndicator(complete: bool)
    | Generic(kind: DeviceKind, hasPath: bool, loads: bool)  // loads: its device can be constructed
    | Faulty  // of no known driver, or lacking what its driver reads without asking

  datatype Created =
    | BoardCreated(id: DeviceId)
    | DeviceCreated(kind: DeviceKind, id: DeviceId)

  // A published event, with the identity that a subscriber looks up there and then.
  datatype Published = Published(event: Created, identity: Option<HardwareIdentity>)

  predicate Loadable(d: Descriptor) { d.Generic? && d.hasPath }

  function Loaders(ds: seq<Descriptor>): (r: seq<Descriptor>)
    ensures forall d :: d in r ==> d.Generic?
  {
    if ds == [] then [] else (if Loadable(ds[0]) then [ds[0]] else []) + Loaders(ds[1..])
  }

  // What has been found among the first i entries, and all there is to find.
  predicate Found(found: seq<Descriptor>, ds: seq<Descriptor>, i: nat)
    requires i <= |ds|
  {
    found + Loaders(ds[i..]) == Loaders(ds)
  }

  lemma FoundFirst(ds: seq<Descriptor>)
    ensures Found([], ds, 0)
  {
    assert ds[0..] == ds && [] + Loaders(ds) == Loaders(ds);
  }

  lemma FoundNext(found: seq<Descriptor>, ds: seq<Descriptor>, i: nat)
    requires i < |ds| && Found(found, ds, i)
    ensures Found(if Loadable(ds[i]) then found + [ds[i]] else found, ds, i + 1)
  {
    assert ds[i..][0] == ds[i] && ds[i..][1..] == ds[i + 1..];
    var rest := Loaders(ds[i + 1..]);
    if Loadable(ds[i]) {
      Regroup(found, [ds[i]], rest);
    } else {
      assert [] + rest == rest;
    }
  }

  lemma FoundAll(found: seq<Descriptor>, ds: seq<Descriptor>)
    requires Found(found, ds, |ds|)
    ensures found == Loaders(ds)
  {
    assert ds[|ds|..] == [] && found + [] == found;
  }

  // The loaders are the generic entries with a path, each as often as it is described ...
  lemma {:induction false} LoadersHaveAPath(ds: seq<Descriptor>, d: Descriptor)
    ensures multiset(Loaders(ds))[d] == if d.Generic? && d.hasPath then multiset(ds)[d] else 0
  {
    if ds != [] {
      LoadersHaveAPath(ds[1..], d);
      var first := if Loadable(ds[0]) then [ds[0]] else [];
      assert ds == [ds[0]] + ds[1..];
      assert multiset(ds) == multiset{ds[0]} + multiset(ds[1..]);
      assert multiset(Loaders(ds)) == multiset(first) + multiset(Loaders(ds[1..]));
    }
  }

  // ... and in the order of the description.
  lemma {:induction false} LoadersInOrder(a: seq<Descriptor>, b: seq<Descriptor>)
    ensures Loaders(a + b) == Loaders(a) + Loaders(b)
  {
    if a == [] {
      assert a + b == b;
    } else {
      var c := a + b;
      assert c[0] == a[0] && c[1..] == a[1..] + b;
      LoadersInOrder(a[1..], b);
      Regroup(if Loadable(a[0]) then [a[0]] else [], Loaders(a[1..]), Loaders(b));
    }
  }

  // How many loaders run before one throws.
  function Loaded(loaders: seq<Descriptor>): (n: nat)
    requires forall d :: d in loaders ==> d.Generic?
    ensures n <= |loaders|
    ensures n < |loaders| ==> !loaders[n].loads
    ensures forall i :: 0 <= i < n ==> loaders[i].loads
  {
    if loaders == [] || !loaders[0].loads then 0 else 1 + Loaded(loaders[1..])
  }

  class Platform {
    const tree: DeviceTree
    var nextId: DeviceId
    var store: Store
    var events: seq<Published>

    // Ids already given out are below the next one.
    ghost predicate Valid()
      reads this, tree
    {
      && tree.Valid()
      && (forall d :: d in store ==> d < nextId)
      && (forall n :: n in tree.nodes ==> n.parent < nextId && n.device < nextId)
    }

    constructor ()
      ensures Valid() && nextId == 1 && store == map[] && events == [] && tree.nodes == []
      ensures fresh(tree)
    {
      tree := new DeviceTree();
      nextId := 1;
      store := map[];
      events := [];
    }

    method NewId() returns (id: DeviceId)
      modifies this`nextId
      ensures id == old(nextId) && nextId == old(nextId) + 1
    {
      id := nextId;
      nextId := nextId + 1;
    }

    method Publish(event: Created)
      modifies this`events
      ensures events == old(events) + [Published(event, Identity(store, tree.nodes, event.id))]
    {
      events := events + [Published(event, Identity(store, tree.nodes, event.id))];
    }

    // Builds the board: false stands for the exception thrown on a description that cannot be read.
    method Setup(description: seq<Descriptor>) returns (ok: bool, loaders: seq<Descriptor>)
      ensures ok <==> Faulty !in description
      ensures ok ==> loaders == Loaders(description)
      ensures ok ==>
        forall d :: multiset(loaders)[d] == if d.Generic? && d.hasPath then multiset(description)[d] else 0
    {
      loaders := [];
      FoundFirst(description);
      for i := 0 to |description|
        invariant forall j :: 0 <= j < i ==> description[j] != Faulty
        invariant Found(loaders, description, i)
      {
        FoundNext(loaders, description, i);
        if description[i].Faulty? { return false, []; }
        if Loadable(description[i]) { loaders := loaders + [description[i]]; }
      }
      FoundAll(loaders, description);
      forall d
        ensures multiset(loaders)[d] == if d.Generic? && d.hasPath then multiset(description)[d] else 0
      {
        LoadersHaveAPath(description, d);
      }
      return true, loaders;
    }

    // One generic device: loaded, hung under the board, published.
    method Handle(board: DeviceId, loader: Descriptor) returns (ok: bool)
      requires Valid() && loader.Generic? && board in store && board < nextId
      modifies this`nextId, this`events, tree
      ensures Valid() && nextId == old(nextId) + 1
      ensures ok == loader.loads
      ensures !ok ==> tree.nodes == old(tree.nodes) && events == old(events)
      ensures ok ==>
        && tree.nodes == old(tree.nodes) + [Node(board, old(nextId))]
        && events == old(events) + [Published(DeviceCreated(loader.kind, old(nextId)), Some(store[board]))]
    {
      var id := NewId();
      if !loader.loads { return false; }
      assert Parent(tree.nodes, id).None?;
      ParentAppend(tree.nodes, [Node(board, id)], id);
      var added := tree.AddChild(board, id);
      assert tree.nodes == old(tree.nodes) + [Node(board, id)];
      Publish(DeviceCreated(loader.kind, id));
      return true;
    }

    // The order of main_board_init: the board gets its id, its identity and its event, and then
    // each generic device in turn, up to the first that cannot be loaded.
    method MainBoardInit(description: seq<Descriptor>, identity: HardwareIdentity) returns (ok: bool)
      requires Valid()
      modifies this, tree
      ensures Valid()
      ensures Faulty in description ==>
        !ok && events == old(events) && tree.nodes == old(tree.nodes) && store == old(store)
      ensures Faulty !in description ==>
        var board, loaders := old(nextId), Loaders(description);
        && ok == (Loaded(loaders) == |loaders|)
        && store == old(store)[board := identity]
        && tree.nodes == old(tree.nodes) + Under(board, Loaded(loaders))
        && events == old(events) + Announced(board, loaders[..Loaded(loaders)], identity)
    {
      var ready, loaders := Setup(description);
      if !ready { return false; }
      var board := NewId();
      store := store[board := identity];
      Publish(BoardCreated(board));
      ok := LoadDevices(board, loaders);
      AnnouncedSplit(board, loaders[..Loaded(loaders)], identity);
    }

    // The generic devices, up to the first that cannot be loaded.
    method LoadDevices(board: DeviceId, loaders: seq<Descriptor>) returns (ok: bool)
      requires Valid() && board in store && nextId == board + 1 && forall d :: d in loaders ==> d.Generic?
      modifies this`nextId, this`events, tree
      ensures Valid()
      ensures ok == (Loaded(loaders) == |loaders|)
      ensures tree.nodes == old(tree.nodes) + Under(board, Loaded(loaders))
      ensures events == old(events) + DevicesAnnounced(board, loaders[..Loaded(loaders)], store[board])
    {
      for i := 0 to |loaders|
        invariant Valid() && nextId == board + 1 + i && i <= Loaded(loaders)
        invariant tree.nodes == old(tree.nodes) + Under(board, i)
        invariant events == old(events) + DevicesAnnounced(board, loaders[..i], store[board])
      {
        OneMore(board, loaders, i, store[board]);
        var loaded := Handle(board, loaders[i]);
        if !loaded { return false; }
      }
      return true;
    }
  }

  // The events of a board and of the devices loaded under it, as subscribers see them.
  function Announced(board: DeviceId, loaded: seq<Descriptor>, identity: HardwareIdentity): seq<Published>
    requires forall d :: d in loaded ==> d.Generic?
  {
    [Published(BoardCreated(board), Some(identity))] + DevicesAnnounced(board, loaded, identity)
  }

  function DevicesAnnounced(board: DeviceId, loaded: seq<Descriptor>, identity: HardwareIdentity): seq<Published>
    requires forall d :: d in loaded ==> d.Generic?
  {
    seq(|loaded|, i requires 0 <= i < |loaded| =>
      Published(DeviceCreated(loaded[i].kind, board + 1 + i), Some(identity)))
  }

  // One event for the board, then one for each device that was loaded, of its kind and with the
  // next id.
  lemma AnnouncedInOrder(board: DeviceId, loaded: seq<Descriptor>, identity: HardwareIdentity)
    requires forall d :: d in loaded ==> d.Generic?
    ensures var events := Announced(board, loaded, identity);
      && |events| == |loaded| + 1 && events[0].event == BoardCreated(board)
      && forall i :: 0 <= i < |loaded| ==> events[i + 1].event == DeviceCreated(loaded[i].kind, board + 1 + i)
  {
  }

  lemma AnnouncedSplit(board: DeviceId, loaded: seq<Descriptor>, identity: HardwareIdentity)
    requires forall d :: d in loaded ==> d.Generic?
    ensures forall before: seq<Published> ::
      before + Announced(board, loaded, identity) ==
      before + [Published(BoardCreated(board), Some(identity))] + DevicesAnnounced(board, loaded, identity)
  {
  }

  lemma OneMore(board: DeviceId, loaders: seq<Descriptor>, i: nat, identity: HardwareIdentity)
    requires i < |loaders| && forall d :: d in loaders ==> d.Generic?
    ensures Under(board, i + 1) == Under(board, i) + [Node(board, board + 1 + i)]
    ensures DevicesAnnounced(board, loaders[..i + 1], identity) ==
      DevicesAnnounced(board, loaders[..i], identity) +
      [Published(DeviceCreated(loaders[i].kind, board + 1 + i), Some(identity))]
  {
  }

  // After a bring-up, every event's identity can be looked up at any time and is the board's,
  // also by a subscriber that looked at once; what could be looked up before is as it was.
  lemma EveryEventIdentified(
    store: Store, nodes: seq<Node>, board: DeviceId, loaded: seq<Descriptor>, identity: HardwareIdentity)
    requires forall d :: d in store ==> d < board
    requires forall m :: m in nodes ==> m.parent < board && m.device < board
    requires forall d :: d in loaded ==> d.Generic?
    ensures var now, all := store[board := identity], nodes + Under(board, |loaded|);
      && (forall e :: e in Announced(board, loaded, identity) ==>
            e.identity == Some(identity) && Identity(now, all, e.event.id) == Some(identity))
      && (forall d :: d < board ==> Identity(now, all, d) == Identity(store, nodes, d))
  {
    KnownIdentities(store, nodes, board, identity, |loaded|);
  }

  // The nodes of n devices hung under a board directly after it.
  function Under(board: DeviceId, n: nat): seq<Node> {
    seq(n, i => Node(board, board + 1 + i))
  }

  lemma KnownIdentities(store: Store, nodes: seq<Node>, board: DeviceId, identity: HardwareIdentity, n: nat)
    requires forall d :: d in store ==> d < board
    requires forall m :: m in nodes ==> m.parent < board && m.device < board
    ensures var now, all := store[board := identity], nodes + Under(board, n);
      && (forall d :: d < board ==> Identity(now, all, d) == Identity(store, nodes, d))
      && (forall d :: board <= d <= board + n ==> Identity(now, all, d) == Some(identity))
  {
    var now, all := store[board := identity], nodes + Under(board, n);
    forall d | d < board
      ensures Identity(now, all, d) == Identity(store, nodes, d)
    {
      ParentAppend(nodes, Under(board, n), d);
    }
    forall d | board <= d <= board + n
      ensures Identity(now, all, d) == Some(identity)
    {
      ParentAppend(nodes, Under(board, n), d);
      if d > board {
        assert Under(board, n)[d - board - 1] == Node(board, d);
      }
    }
  }

  // ---- MQTT client ids ----

  function UniqueId(serial: string, d: DeviceId): string { serial + ['_'] + Decimal(d) }

  // What connects to the broker on behalf of a board: its four indicators, its restart button
  // and its devices.
  datatype ClientOf = IndicatorOf(indicator: nat) | RestartButton | DeviceItself(id: DeviceId)

  const RESTART := "_restart_btn"

  function ClientId(serial: string, board: DeviceId, c: ClientOf): string {
    match c
    case IndicatorOf(t) => UniqueId(serial, board) + ("_i_" + Decimal(t))
    case RestartButton => UniqueId(serial, board) + RESTART
    case DeviceItself(d) => UniqueId(serial, d)
  }

  // The ids in full.
  lemma ClientIdsInFull(serial: string, board: DeviceId, t: nat, d: DeviceId)
    ensures ClientId(serial, board, IndicatorOf(t)) == serial + "_" + Decimal(board) + "_i_" + Decimal(t)
    ensures ClientId(serial, board, RestartButton) == serial + "_" + Decimal(board) + "_restart_btn"
    ensures ClientId(serial, board, DeviceItself(d)) == serial + "_" + Decimal(d)
  {
    var own := serial + "_" + Decimal(board);
    assert own + ("_i_" + Decimal(t)) == own + "_i_" + Decimal(t);
  }

  // What follows the serial number and its separator.
  function Suffix(board: DeviceId, c: ClientOf): string {
    match c
    case IndicatorOf(t) => Decimal(board) + ['_'] + ("i_" + Decimal(t))
    case RestartButton => Decimal(board) + ['_'] + "restart_btn"
    case DeviceItself(d) => Decimal(d)
  }

  lemma ClientIdShape(serial: string, board: DeviceId, c: ClientOf)
    ensures ClientId(serial, board, c) == (serial + ['_']) + Suffix(board, c)
  {
    match c
    case IndicatorOf(t) => assert "_i_" + Decimal(t) == ['_'] + ("i_" + Decimal(t));
    case RestartButton => assert RESTART == ['_'] + "restart_btn";
    case DeviceItself(d) =>
  }

  lemma NoSeparatorMeansDevice(board: DeviceId, c: ClientOf)
    ensures '_' !in Suffix(board, c) <==> c.DeviceItself?
  {
    if c.DeviceItself? {
      NoSeparatorInDecimal(c.id);
    } else {
      assert Suffix(board, c)[|Decimal(board)|] == '_';
    }
  }

  // Different clients of one board never share an id, so none evicts another.
  lemma ClientIdsDiffer(serial: string, board: DeviceId, c: ClientOf, d: ClientOf)
    requires ClientId(serial, board, c) == ClientId(serial, board, d)
    ensures c == d
  {
    ClientIdShape(serial, board, c);
    ClientIdShape(serial, board, d);
    SamePrefix(serial + ['_'], Suffix(board, c), Suffix(board, d));
    NoSeparatorMeansDevice(board, c);
    NoSeparatorMeansDevice(board, d);
    if c.DeviceItself? {
      DecimalInjective(c.id, d.id);
    } else {
      SamePrefix(Decimal(board) + ['_'], OwnPart(c), OwnPart(d));
      assert "restart_btn"[0] == 'r';
      if c.IndicatorOf? && d.IndicatorOf? {
        SamePrefix("i_", Decimal(c.indicator), Decimal(d.indicator));
        DecimalInjective(c.indicator, d.indicator);
      }
      assert c.IndicatorOf? ==> OwnPart(c)[0] == 'i';
      assert d.IndicatorOf? ==> OwnPart(d)[0] == 'i';
    }
  }

  function OwnPart(c: ClientOf): string {
    match c
    case IndicatorOf(t) => "i_" + Decimal(t)
    case RestartButton => "restart_btn"
    case DeviceItself(_) => ""
  }

  // The clients of a board that came up with n devices: the indicators in the order in which
  // they are created, the button, the devices.
  function Clients(board: DeviceId, n: nat): seq<ClientOf> {
    [IndicatorOf(2), IndicatorOf(0), IndicatorOf(1), IndicatorOf(3), RestartButton] +
    seq(n, i => DeviceItself(board + 1 + i))
  }

  lemma NoClientEvictsAnother(serial: string, board: DeviceId, n: nat, i: nat, j: nat)
    requires i < j < |Clients(board, n)|
    ensures ClientId(serial, board, Clients(board, n)[i]) != ClientId(serial, board, Clients(board, n)[j])
  {
    var c, d := Clients(board, n)[i], Clients(board, n)[j];
    assert c != d;
    if ClientId(serial, board, c) == ClientId(serial, board, d) {
      ClientIdsDiffer(serial, board, c, d);
      assert false;
    }
  }
}

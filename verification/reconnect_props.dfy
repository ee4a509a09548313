// How often a client connects, and what one lost connection leads to.
module ReconnectProps {
  import opened MqttWire
  import opened MqttError
  import opened ClientSpec

  function Connects(log: Log): nat {
    match log
    case Start => 0
    case Then(past, e) => Connects(past) + if e.ConnectCall? then 1 else 0
  }

  function LostConnAcks(log: Log): nat {
    match log
    case Start => 0
    case Then(past, e) => LostConnAcks(past) + if e.ConnAckLost? then 1 else 0
  }

  function Cap(max: int): nat { if max < 0 then 0 else max }

  // What a log has earned: max connects for every CONNACK lost, less the connects made.
  function Credit(log: Log, max: int): int {
    match log
    case Start => 0
    case Then(past, e) => Credit(past, max) + if e.ConnAckLost? then Cap(max) else if e.ConnectCall? then -1 else 0
  }

  lemma {:induction false} CreditIsBalance(log: Log, max: int)
    ensures Credit(log, max) == Cap(max) * LostConnAcks(log) - Connects(log)
  {
    if log.Then? {
      CreditIsBalance(log.past, max);
      var k := LostConnAcks(log.past);
      assert Cap(max) * (k + 1) == Cap(max) * k + Cap(max);
    }
  }

  lemma DialCounts(s: ClientState, max: int)
    ensures var t := Dial(s).st;
      Connects(t.log) == Connects(s.log) && Credit(t.log, max) == Credit(s.log, max) && t.attempt == s.attempt
  {
    if Resolve(s).flow == Done(0) {
      var s1 := Resolve(s).st;
      if TcpConnect(s1).flow == Done(0) {
        var s2 := TcpConnect(s1).st;
        assert Credit(Send(s2, Connect).st.log, max) == Credit(s2.log, max);
        assert Connects(Send(s2, Connect).st.log) == Connects(s2.log);
      }
    }
  }

  lemma {:induction false} ConnectBound(s: ClientState, max: int)
    ensures Credit(s.log, max) - 1 <= Credit(AsyncConnect(s, max).st.log, max)
    ensures var r := AsyncConnect(s, max);
      r.flow.Done? ==> r.st.attempt == if r.flow.value == NO_ERROR then 0 else s.attempt
    decreases s.script, 3
  {
    var s0 := s.Note(ConnectCall);
    DialCounts(s0, max);
    var d := Dial(s0);
    assert Credit(d.st.log, max) == Credit(s.log, max) - 1;
    if d.flow == Done(NO_ERROR) {
      ConnAckBound(d.st, max);
      assert AsyncConnect(s, max).st.log == RecvConnAck(d.st, max).st.log;
    } else {
      assert AsyncConnect(s, max).st == d.st;
    }
  }

  lemma {:induction false} ConnAckBound(s: ClientState, max: int)
    ensures Credit(s.log, max) <= Credit(RecvConnAck(s, max).st.log, max)
    ensures var r := RecvConnAck(s, max);
      r.flow.Done? && r.flow.value in {NO_ERROR, TIMEOUT, NO_SERVICE, CONNECTION_REFUSED} ==> r.st.attempt == s.attempt
    decreases s.script, 2
  {
    var e := Recv(s);
    if e.flow.Done? && e.flow.value.Unexpected? {
      RecvErrorCredit(e.st.Note(ConnAckLost), e.flow.value.error, max);
    }
  }

  lemma {:induction false} RecvErrorCredit(s: ClientState, ec: int, max: int)
    ensures Credit(s.log, max) - Cap(max) <= Credit(HandleRecvError(s, ec, max).st.log, max)
    decreases s.script, 2
  {
    if s.connected && max != 0 {
      LoopBound(s.(attempt := 0), max, ReconnectLoop(s.(attempt := 0), max));
    }
  }

  lemma {:induction false} LoopBound(s: ClientState, max: int, outcome: Run<bool>)
    requires Leads(s, max, outcome) && 0 <= s.attempt
    ensures Credit(s.log, max) - Cap(max - s.attempt) <= Credit(outcome.st.log, max)
    decreases s.script, 0
  {
    if s.attempt >= max {
      LeadsEnd(s, max, outcome);
    } else {
      var w := Wait(s.(attempt := s.attempt + 1));
      var c := AsyncConnect(w.st, max);
      LeadsOn(s, max, outcome, w, c);
      if w.flow == Done(0) {
        ConnectBound(w.st, max);
        if c.flow.Done? && c.flow.value != NO_ERROR { LoopBound(c.st, max, outcome); }
      }
    }
  }

  // One receive error leads to at most max * (1 + k) connects, k being the CONNACKs lost.
  lemma RecvErrorBound(s: ClientState, ec: int, max: int)
    ensures var t := HandleRecvError(s, ec, max).st;
      Connects(t.log) - Connects(s.log) <= Cap(max) * (1 + LostConnAcks(t.log) - LostConnAcks(s.log))
  {
    var t := HandleRecvError(s, ec, max).st;
    RecvErrorCredit(s, ec, max);
    CreditIsBalance(s.log, max);
    CreditIsBalance(t.log, max);
    Distribute(Cap(max), LostConnAcks(t.log), LostConnAcks(s.log));
  }

  lemma Distribute(n: int, a: int, b: int)
    ensures n * (1 + a - b) == n + n * a - n * b
  {
  }

  // A connect that loses its CONNACK on a client that has once been connected never returns: the
  // inner reconnection's verdict, good or bad, has no mapping and is thrown. Before the first
  // connection it returns only for an unreachable network or a missing file, and only if the code
  // this is mapped to keeps its number when it is mapped once more.
  lemma LostConnAckIsFatal(s: ClientState, max: int, ec: int)
    requires var d := Dial(s.Note(ConnectCall));
      d.flow == Done(NO_ERROR) && d.st.script.Ev? && d.st.script.head == RecvFailed(ec)
    ensures s.connected ==> !AsyncConnect(s, max).flow.Done?
    ensures !s.connected ==>
      AsyncConnect(s, max).flow ==
        if ec in {ERRC_NETWORK_UNREACHABLE, ERRC_NO_SUCH_FILE} && s.category == 0 then Done(NO_SERVICE) else Thrown
  {
    var d := Dial(s.Note(ConnectCall));
    var lost := Recv(d.st).st.Note(ConnAckLost);
    assert lost.connected == s.connected && lost.category == s.category;
    assert RecvConnAck(d.st, max) == HandleRecvError(lost, ec, max);
    var r := HandleRecvError(lost, ec, max);
    if r.flow.Done? { MapTwice(r.flow.value, s.category); }
  }

  // What a connect that fails before its CONNACK returns: NoService for a name that is not
  // resolved, and otherwise the table of the system's codes, or an exception.
  lemma ConnectErrors(s: ClientState, max: int, ec: int, rest: Script)
    requires ec != 0
    requires s.script == Ev(Resolved(ec), rest) || s.script == Ev(Resolved(0), Ev(TcpConnected(ec), rest))
          || s.script == Ev(Resolved(0), Ev(TcpConnected(0), Ev(SendDone(ec), rest)))
    ensures var r := AsyncConnect(s, max);
      && r.st.script == rest && r.st.connected == s.connected
      && r.flow ==
           (if s.script.head != Resolved(0) || ec == 2 || ec == 101 then Done(2)
            else if ec == 110 then Done(1) else if ec == 111 then Done(3) else Thrown)
  {
  }

  // A timer that fails ends the reconnection at once: Disconnected, and not a single connect.
  lemma TimerLostEnds(s: ClientState, ec: int, max: int, lost: int, rest: Script)
    requires s.connected && max > 0 && lost != 0 && s.script == Ev(TimerFired(lost), rest)
    ensures var h := HandleRecvError(s, ec, max);
      h.flow == Done(DISCONNECTED) && h.st.script == rest && h.st.log == Then(s.log, TimerLost(lost))
  {
    var s0 := s.(attempt := 0);
    assert TryReconnect(s, max) == ReconnectLoop(s0, max);
  }

  // ---- The verdict of a reconnection, in closed form ----

  // One reconnection attempt that reaches a verdict without losing the CONNACK.
  datatype Attempt =
    | ResolveFails(ec: int)
    | TcpFails(ec: int)
    | SendFails(ec: int)
    | Succeeds(p: Packet)

  predicate Ordinary(a: Attempt) {
    match a
    case ResolveFails(ec) => ec != 0
    case TcpFails(ec) => Mapped(ec)
    case SendFails(ec) => Mapped(ec)
    case Succeeds(_) => true
  }

  // The events of the attempts, one after the other, and then the rest.
  function Scripted(attempts: seq<Attempt>, rest: Script): Script {
    if attempts == [] then rest else Events(attempts[0], Scripted(attempts[1..], rest))
  }

  function Events(a: Attempt, rest: Script): (r: Script)
    ensures rest < r
  {
    match a
    case ResolveFails(ec) => Ev(TimerFired(0), Ev(Resolved(ec), rest))
    case TcpFails(ec) => Ev(TimerFired(0), Ev(Resolved(0), Ev(TcpConnected(ec), rest)))
    case SendFails(ec) => Ev(TimerFired(0), Ev(Resolved(0), Ev(TcpConnected(0), Ev(SendDone(ec), rest))))
    case Succeeds(p) =>
      Ev(TimerFired(0), Ev(Resolved(0), Ev(TcpConnected(0), Ev(SendDone(0), Ev(Received(p), rest)))))
  }

  function FirstSuccess(attempts: seq<Attempt>): (n: nat)
    ensures n <= |attempts|
    ensures forall i :: 0 <= i < n ==> !attempts[i].Succeeds?
    ensures n < |attempts| ==> attempts[n].Succeeds?
  {
    if attempts == [] || attempts[0].Succeeds? then 0 else 1 + FirstSuccess(attempts[1..])
  }

  // The dialling part of an attempt, its timer having fired.
  lemma DialAttempt(s: ClientState, a: Attempt, rest: Script)
    requires Ordinary(a) && Ev(TimerFired(0), s.script) == Events(a, rest)
    ensures var d := Dial(s);
      && d.flow.Done? && (d.flow.value == NO_ERROR <==> a.Succeeds?) && d.st.connected == s.connected
      && d.st.script == if a.Succeeds? then Ev(Received(a.p), rest) else rest
  {
  }

  lemma OneAttempt(s: ClientState, max: int, a: Attempt, rest: Script)
    requires Ordinary(a) && s.script == Events(a, rest)
    ensures Wait(s).flow == Done(0)
    ensures var r := AsyncConnect(Wait(s).st, max);
      && r.flow.Done? && r.st.script == rest && Connects(r.st.log) == Connects(s.log) + 1
      && (r.flow.value == NO_ERROR <==> a.Succeeds?)
      && (!a.Succeeds? ==> r.st.attempt == s.attempt)
      && (r.st.connected <==> s.connected || (a.Succeeds? && a.p.ConnAck?))
  {
    var s1 := Wait(s).st.Note(ConnectCall);
    DialAttempt(s1, a, rest);
    DialCounts(s1, max);
  }

  lemma {:induction false} ReconnectVerdict(s: ClientState, max: int, attempts: seq<Attempt>, rest: Script)
    requires 0 <= s.attempt <= max
    requires forall a :: a in attempts ==> Ordinary(a)
    requires s.script == Scripted(attempts, rest)
    ensures var n, left, r := FirstSuccess(attempts), max - s.attempt, ReconnectLoop(s, max);
      && (n < left && n < |attempts| ==>
            r.flow == Done(true) && Connects(r.st.log) == Connects(s.log) + n + 1)
      && (left <= n ==>
            r.flow == Done(false) && Connects(r.st.log) == Connects(s.log) + left)
    decreases |attempts|
  {
    if s.attempt < max && attempts != [] {
      var s1 := s.(attempt := s.attempt + 1);
      var others := Scripted(attempts[1..], rest);
      OneAttempt(s1, max, attempts[0], others);
      if !attempts[0].Succeeds? {
        ReconnectVerdict(AsyncConnect(Wait(s1).st, max).st, max, attempts[1..], rest);
      }
    }
  }

  lemma SuccessAmong(attempts: seq<Attempt>, max: int)
    requires max <= |attempts|
    ensures FirstSuccess(attempts) < max <==> exists i :: 0 <= i < max && attempts[i].Succeeds?
  {
    var n := FirstSuccess(attempts);
    assert n < max ==> attempts[n].Succeeds?;
  }

  // With enough ordinary attempts on offer, a lost connection ends in Reconnected exactly when
  // one of the first max attempts succeeds, at the first of them, and else in Disconnected.
  lemma RecvErrorVerdict(s: ClientState, ec: int, max: int, attempts: seq<Attempt>, rest: Script)
    requires s.connected
    requires forall a :: a in attempts ==> Ordinary(a)
    requires s.script == Scripted(attempts, rest)
    requires max <= |attempts|
    ensures HandleRecvError(s, ec, max).flow ==
      Done(if exists i :: 0 <= i < max && attempts[i].Succeeds? then RECONNECTED else DISCONNECTED)
    ensures var n := FirstSuccess(attempts);
      Connects(HandleRecvError(s, ec, max).st.log) == Connects(s.log) + if n < max then n + 1 else Cap(max)
  {
    var s0 := s.(attempt := 0);
    if max > 0 {
      ReconnectVerdict(s0, max, attempts, rest);
      assert TryReconnect(s, max) == ReconnectLoop(s0, max);
    } else if max < 0 {
      assert TryReconnect(s, max) == ReconnectLoop(s0, max);
    }
    SuccessAmong(attempts, max);
  }
}

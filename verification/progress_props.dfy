// Progress: initialisation and both ways of recovering succeed when the broker accepts and
// answers, whatever packets of no concern come in between and however many attempts fail before.
module ProgressProps {
  import opened Wrappers
  import opened MqttWire
  import opened MqttError
  import opened EntitySpec
  import opened AdapterSpec
  import opened QuietProps
  import opened OnlineProps
  import opened ReconnectProps
  import opened AnswerProps
  import opened ConversationProps
  import C = ClientSpec

  // ---- Connecting, after any number of failures ----

  predicate Failures(fails: seq<Attempt>) {
    fails == [] || (Ordinary(fails[0]) && !fails[0].Succeeds? && Failures(fails[1..]))
  }

  // Failing attempts and then one that is accepted, each behind its timer.
  function Retries(fails: seq<Attempt>, rest: Script): (r: Script)
    ensures r.Ev? && r.head == TimerFired(0)
  {
    if fails == [] then Events(Succeeds(ConnAck(0)), rest) else Events(fails[0], Retries(fails[1..], rest))
  }

  // All that a connect says is CONNECT, and that only if it gets so far.
  lemma ConnectSays(s: C.ClientState, max: int, a: Attempt, rest: Script)
    requires Ordinary(a) && Ev(TimerFired(0), s.script) == Events(a, rest)
    ensures Said(C.AsyncConnect(s, max).st.log) == Said(s.log) + if a.Succeeds? then [Connect] else []
  {
    var s0 := s.Note(ConnectCall);
    DialAttempt(s0, a, rest);
    DialSays(s0, a, rest);
    var d := C.Dial(s0);
    if a.Succeeds? { assert Said(C.Recv(d.st).st.log) == Said(d.st.log); }
  }

  lemma DialSays(s: C.ClientState, a: Attempt, rest: Script)
    requires Ordinary(a) && Ev(TimerFired(0), s.script) == Events(a, rest)
    ensures Said(C.Dial(s).st.log) == Said(s.log) + if a.Succeeds? then [Connect] else []
  {
    var s1 := C.Resolve(s).st;
    if C.Resolve(s).flow == Done(0) {
      var s2 := C.TcpConnect(s1).st;
      assert Said(s2.log) == Said(s.log);
    }
  }

  // One connect at the head of such a script, its timer having fired.
  lemma ConnectOnce(s: C.ClientState, max: int, a: Attempt, rest: Script)
    requires Ordinary(a) && Ev(TimerFired(0), s.script) == Events(a, rest)
    ensures var r := C.AsyncConnect(s, max);
      && r.flow.Done? && r.st.script == rest && (r.flow.value == NO_ERROR <==> a.Succeeds?)
      && (!a.Succeeds? ==> r.st.attempt == s.attempt)
      && (s.connected || (a.Succeeds? && a.p.ConnAck?) ==> r.st.connected)
      && Said(r.st.log) == Said(s.log) + if a.Succeeds? then [Connect] else []
  {
    ConnectSays(s, max, a, rest);
    var waiting := s.(script := Ev(TimerFired(0), s.script));
    OneAttempt(waiting, max, a, rest);
    assert C.Wait(waiting).st == s;
  }

  // A turn of the retry loop whose connect fails.
  lemma FailingTurn(
    s: EntityState, max: int, attempt: nat, error: int, a: Attempt, left: Script, outcome: EntitySpec.Run<int>)
    returns (t: EntityState, err: int)
    requires AdapterSpec.Leads(s, max, attempt, error, outcome) && attempt < INIT_RETRY_ATTEMPTS
    requires Ordinary(a) && !a.Succeeds? && Ev(TimerFired(0), s.c.script) == Events(a, left)
    requires left.Ev? && left.head == TimerFired(0)
    ensures AdapterSpec.Leads(t, max, attempt + 1, err, outcome) && Ev(TimerFired(0), t.c.script) == left
    ensures Said(t.c.log) == Said(s.c.log) && err != NO_ERROR
  {
    var c := EntitySpec.AsyncConnect(s, max);
    ConnectOnce(s.c, max, a, left);
    AdapterSpec.LeadsOn(s, max, attempt, error, outcome, c, AsyncWait(c.st));
    t, err := AsyncWait(c.st).st, c.flow.value;
  }

  // And one whose connect is accepted.
  lemma AcceptedTurn(s: EntityState, max: int, attempt: nat, error: int, rest: Script, outcome: EntitySpec.Run<int>)
    requires AdapterSpec.Leads(s, max, attempt, error, outcome) && attempt < INIT_RETRY_ATTEMPTS
    requires Ev(TimerFired(0), s.c.script) == Events(Succeeds(ConnAck(0)), rest)
    ensures Ends(outcome, NO_ERROR, rest, Said(s.c.log) + [Connect])
  {
    var c := EntitySpec.AsyncConnect(s, max);
    AdapterSpec.LeadsOn(s, max, attempt, error, outcome, c, AsyncWait(c.st));
    ConnectOnce(s.c, max, Succeeds(ConnAck(0)), rest);
  }

  lemma {:induction false} RetriesConnect(
    s: EntityState, max: int, attempt: nat, error: int, fails: seq<Attempt>, rest: Script,
    outcome: EntitySpec.Run<int>)
    requires AdapterSpec.Leads(s, max, attempt, error, outcome) && attempt + |fails| < INIT_RETRY_ATTEMPTS
    requires Failures(fails) && Ev(TimerFired(0), s.c.script) == Retries(fails, rest)
    ensures Ends(outcome, NO_ERROR, rest, Said(s.c.log) + [Connect])
    decreases |fails|
  {
    if fails == [] {
      AcceptedTurn(s, max, attempt, error, rest, outcome);
    } else {
      var t, err := FailingTurn(s, max, attempt, error, fails[0], Retries(fails[1..], rest), outcome);
      RetriesConnect(t, max, attempt + 1, err, fails[1..], rest, outcome);
    }
  }

  // Fewer than ten failing connects, an accepted one and an answered configuration: the
  // initialisation succeeds, the connection is ready, and this is all that was said.
  lemma InitProgress(a: Setup, s: EntityState, fails: seq<Attempt>, t: Talk, rest: Script)
    requires Failures(fails) && |fails| < 10
    requires s.c.script == Retries(fails, Conversation(a.kind, t, rest)).tail
    ensures Ends(AsyncInit(a, s), true, rest, Said(s.c.log) + [Connect] + Spoken(a, t))
    ensures Ready(a, AsyncInit(a, s).st.c.log)
  {
    var c := InitConnect(s, a.max, 0, NO_ERROR);
    RetriesConnect(s, a.max, 0, NO_ERROR, fails, Conversation(a.kind, t, rest), c);
    ConversationConfigures(a, c.st, t, rest);
    ConversationAnswers(a.kind, t, rest);
    InitConfigures(a, s);
  }

  lemma {:induction false} RetriesReconnect(
    s: C.ClientState, max: int, fails: seq<Attempt>, rest: Script, outcome: C.Run<bool>)
    requires C.Leads(s, max, outcome) && s.connected && s.attempt + |fails| < max
    requires Failures(fails) && s.script == Retries(fails, rest)
    ensures outcome.flow == Done(true) && outcome.st.connected && outcome.st.script == rest
    ensures Said(outcome.st.log) == Said(s.log) + [Connect]
    decreases |fails|
  {
    var w := C.Wait(s.(attempt := s.attempt + 1));
    var c := C.AsyncConnect(w.st, max);
    C.LeadsOn(s, max, outcome, w, c);
    if fails == [] {
      ConnectOnce(w.st, max, Succeeds(ConnAck(0)), rest);
    } else {
      ConnectOnce(w.st, max, fails[0], Retries(fails[1..], rest));
      RetriesReconnect(c.st, max, fails[1..], rest, outcome);
    }
  }

  // Failing attempts only, as many as are left.
  lemma {:induction false} RetriesExhausted(
    s: C.ClientState, max: int, fails: seq<Attempt>, rest: Script, outcome: C.Run<bool>)
    requires C.Leads(s, max, outcome) && s.connected && s.attempt + |fails| == max
    requires Failures(fails) && s.script == Scripted(fails, rest)
    ensures outcome.flow == Done(false) && outcome.st.connected && outcome.st.script == rest
    ensures Said(outcome.st.log) == Said(s.log)
    decreases |fails|
  {
    if fails == [] {
      C.LeadsEnd(s, max, outcome);
    } else {
      var w := C.Wait(s.(attempt := s.attempt + 1));
      var c := C.AsyncConnect(w.st, max);
      C.LeadsOn(s, max, outcome, w, c);
      ConnectOnce(w.st, max, fails[0], Scripted(fails[1..], rest));
      RetriesExhausted(c.st, max, fails[1..], rest, outcome);
    }
  }

  // ---- A lost connection in the run loop ----

  lemma LostReceive(a: Setup, s: EntityState, ec: int)
    requires s.c.connected && s.c.script.Ev? && s.c.script.head == RecvFailed(ec)
    ensures var e, h := AsyncReceiveCommand(a.kind, s, a.max), C.HandleRecvError(C.Recv(s.c).st, ec, a.max);
      h.flow.Done? ==> e.flow == Done(Unexpected(h.flow.value)) && e.st == s.(c := h.st)
  {
  }

  // What a lost connection comes to, as the adapter sees it.
  lemma LostReconnects(a: Setup, s: EntityState, ec: int, fails: seq<Attempt>, rest: Script)
    requires s.c.connected && Failures(fails) && |fails| < a.max
    requires s.c.script == Ev(RecvFailed(ec), Retries(fails, rest))
    ensures var e := AsyncReceiveCommand(a.kind, s, a.max);
      && e.flow == Done(Unexpected(RECONNECTED)) && e.st.c.connected && e.st.c.script == rest
      && Said(e.st.c.log) == Said(s.c.log) + [Connect]
  {
    var lost := C.Recv(s.c).st.(attempt := 0);
    RetriesReconnect(lost, a.max, fails, rest, C.ReconnectLoop(lost, a.max));
    LostReceive(a, s, ec);
  }

  lemma LostDisconnects(a: Setup, s: EntityState, ec: int, fails: seq<Attempt>, rest: Script)
    requires s.c.connected && Failures(fails) && |fails| == Cap(a.max)
    requires s.c.script == Ev(RecvFailed(ec), Scripted(fails, rest))
    ensures var e := AsyncReceiveCommand(a.kind, s, a.max);
      && e.flow == Done(Unexpected(DISCONNECTED)) && e.st.c.connected && e.st.c.script == rest
      && Said(e.st.c.log) == Said(s.c.log)
  {
    AllFail(C.Recv(s.c).st, ec, a.max, fails, rest);
    LostReceive(a, s, ec);
  }

  lemma DisconnectedHandled(a: Setup, s: EntityState, t: Talk, rest: Script)
    requires s.c.connected && s.c.script == Retries([], Conversation(a.kind, t, rest)).tail
    ensures Ends(HandleError(a, s, DISCONNECTED), true, rest, Said(s.c.log) + [Connect] + Spoken(a, t))
    ensures Ready(a, HandleError(a, s, DISCONNECTED).st.c.log)
  {
    ConnectOnce(s.c, a.max, Succeeds(ConnAck(0)), Conversation(a.kind, t, rest));
    var c := EntitySpec.AsyncConnect(s, a.max);
    ConversationConfigures(a, c.st, t, rest);
    ConversationAnswers(a.kind, t, rest);
    DisconnectionConfigures(a, s);
  }

  // The run goes on behind an error that has been handled.
  lemma RunGoesOn(a: Setup, s: EntityState, code: int)
    requires AsyncReceiveCommand(a.kind, s, a.max).flow == Done(Unexpected(code))
    requires HandleError(a, AsyncReceiveCommand(a.kind, s, a.max).st, code).flow.Done?
    ensures AsyncRun(a, s) == AsyncRun(a, HandleError(a, AsyncReceiveCommand(a.kind, s, a.max).st, code).st)
  {
  }

  // A connection lost while a command is awaited, fewer failing attempts than the limit, an
  // accepted one and an answered configuration: the run goes on on a connection that is ready.
  lemma ReconnectionProgress(a: Setup, s: EntityState, ec: int, fails: seq<Attempt>, t: Talk, rest: Script)
    returns (u: EntityState)
    requires s.c.connected && Failures(fails) && |fails| < a.max
    requires s.c.script == Ev(RecvFailed(ec), Retries(fails, Conversation(a.kind, t, rest)))
    ensures AsyncRun(a, s) == AsyncRun(a, u)
    ensures u.c.connected && u.c.script == rest && Ready(a, u.c.log)
    ensures Said(u.c.log) == Said(s.c.log) + [Connect] + Spoken(a, t)
  {
    LostReconnects(a, s, ec, fails, Conversation(a.kind, t, rest));
    var e := AsyncReceiveCommand(a.kind, s, a.max);
    ConversationConfigures(a, e.st, t, rest);
    ConversationAnswers(a.kind, t, rest);
    ReconnectionConfigures(a, s);
    RunGoesOn(a, s, RECONNECTED);
    u := HandleError(a, e.st, RECONNECTED).st;
  }

  // When all attempts fail, the adapter connects once more itself; accepted and answered, the run
  // goes on on a connection that is ready.
  lemma DisconnectionProgress(a: Setup, s: EntityState, ec: int, fails: seq<Attempt>, t: Talk, rest: Script)
    returns (u: EntityState)
    requires s.c.connected && Failures(fails) && |fails| == Cap(a.max)
    requires s.c.script == Ev(RecvFailed(ec), Scripted(fails, Retries([], Conversation(a.kind, t, rest)).tail))
    ensures AsyncRun(a, s) == AsyncRun(a, u)
    ensures u.c.connected && u.c.script == rest && Ready(a, u.c.log)
    ensures Said(u.c.log) == Said(s.c.log) + [Connect] + Spoken(a, t)
  {
    LostDisconnects(a, s, ec, fails, Retries([], Conversation(a.kind, t, rest)).tail);
    var e := AsyncReceiveCommand(a.kind, s, a.max);
    DisconnectedHandled(a, e.st, t, rest);
    RunGoesOn(a, s, DISCONNECTED);
    u := HandleError(a, e.st, DISCONNECTED).st;
  }

  lemma AllFail(s: C.ClientState, ec: int, max: int, fails: seq<Attempt>, rest: Script)
    requires s.connected && Failures(fails) && |fails| == Cap(max) && s.script == Scripted(fails, rest)
    ensures var h := C.HandleRecvError(s, ec, max);
      h.flow == Done(DISCONNECTED) && h.st.connected && h.st.script == rest && Said(h.st.log) == Said(s.log)
  {
    var s0 := s.(attempt := 0);
    var outcome := C.ReconnectLoop(s0, max);
    if max > 0 {
      RetriesExhausted(s0, max, fails, rest, outcome);
    } else {
      C.LeadsEnd(s0, max, outcome);
    }
  }
}

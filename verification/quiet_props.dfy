// What connecting and receiving add to the log, and what they leave alone.
module QuietProps {
  import opened MqttWire
  import opened MqttError
  import opened ClientSpec

  // Entries that send nothing but CONNECT and settle nothing.
  predicate Plumbing(e: Entry) { !e.Taken? && (e.Sent? ==> e.out.Connect?) }

  // b is a, followed by plumbing only.
  ghost predicate Quiet(a: Log, b: Log) {
    a == b || (b.Then? && Plumbing(b.last) && Quiet(a, b.past))
  }

  lemma {:induction false} QuietTrans(a: Log, b: Log, c: Log)
    requires Quiet(a, b) && Quiet(b, c)
    ensures Quiet(a, c)
  {
    if b != c { QuietTrans(a, b, c.past); }
  }

  lemma DialQuiet(s: ClientState)
    ensures Quiet(s.log, Dial(s).st.log) && Dial(s).st.connected == s.connected
  {
    if Resolve(s).flow == Done(0) {
      var s1 := Resolve(s).st;
      if TcpConnect(s1).flow == Done(0) {
        var s2 := TcpConnect(s1).st;
        assert Quiet(s.log, s2.log);
        assert Quiet(s2.log, Send(s2, Connect).st.log);
        QuietTrans(s.log, s2.log, Send(s2, Connect).st.log);
      }
    }
  }

  // A connection made just now: the last thing that happened is the answer to its CONNECT.
  predicate JustConnected(log: Log) {
    && log.Then? && log.last.Got? && log.past.Then? && log.past.last == Sent(Connect)
    && log.past.past.Then? && log.past.past.last == TcpUp
  }

  predicate Accepted(log: Log) { JustConnected(log) && log.last.p.ConnAck? }

  lemma {:induction false} ConnectQuiet(s: ClientState, max: int)
    ensures var r := AsyncConnect(s, max);
      && Quiet(s.log, r.st.log) && (s.connected ==> r.st.connected)
      && (r.flow == Done(NO_ERROR) ==> JustConnected(r.st.log) && (Accepted(r.st.log) ==> r.st.connected))
    decreases s.script, 3
  {
    var s0 := s.Note(ConnectCall);
    DialQuiet(s0);
    QuietTrans(s.log, s0.log, Dial(s0).st.log);
    var d := Dial(s0);
    if d.flow == Done(NO_ERROR) {
      ConnAckQuiet(d.st, max);
      QuietTrans(s.log, d.st.log, RecvConnAck(d.st, max).st.log);
    }
  }

  lemma {:induction false} ConnAckQuiet(s: ClientState, max: int)
    ensures var r := RecvConnAck(s, max);
      && Quiet(s.log, r.st.log) && (s.connected ==> r.st.connected)
      && (r.flow == Done(NO_ERROR) ==>
            && r.st.log.Then? && r.st.log.past == s.log && r.st.log.last.Got?
            && (r.st.log.last.p.ConnAck? ==> r.st.connected))
    decreases s.script, 2
  {
    var e := Recv(s);
    if e.flow.Done? && e.flow.value.Unexpected? {
      var s1 := e.st.Note(ConnAckLost);
      assert Quiet(s.log, e.st.log) && Quiet(e.st.log, s1.log);
      QuietTrans(s.log, e.st.log, s1.log);
      RecvErrorQuiet(s1, e.flow.value.error, max);
      QuietTrans(s.log, s1.log, HandleRecvError(s1, e.flow.value.error, max).st.log);
    }
  }

  lemma {:induction false} RecvErrorQuiet(s: ClientState, ec: int, max: int)
    ensures var r := HandleRecvError(s, ec, max);
      && Quiet(s.log, r.st.log) && (s.connected ==> r.st.connected)
      && (r.flow == Done(RECONNECTED) ==> JustConnected(r.st.log) && r.st.connected)
    decreases s.script, 2
  {
    if s.connected && max != 0 {
      LoopQuiet(s.(attempt := 0), max, ReconnectLoop(s.(attempt := 0), max));
    }
  }

  lemma {:induction false} LoopQuiet(s: ClientState, max: int, outcome: Run<bool>)
    requires Leads(s, max, outcome)
    ensures Quiet(s.log, outcome.st.log) && (s.connected ==> outcome.st.connected)
    ensures outcome.flow == Done(true) ==> JustConnected(outcome.st.log)
    decreases s.script, 0
  {
    if s.attempt >= max {
      LeadsEnd(s, max, outcome);
    } else {
      var w := Wait(s.(attempt := s.attempt + 1));
      var c := AsyncConnect(w.st, max);
      LeadsOn(s, max, outcome, w, c);
      assert Quiet(s.log, w.st.log);
      if w.flow == Done(0) {
        ConnectQuiet(w.st, max);
        if c.flow.Done? && c.flow.value != NO_ERROR {
          LoopQuiet(c.st, max, outcome);
          QuietTrans(w.st.log, c.st.log, outcome.st.log);
        }
      }
    }
  }

  lemma {:induction false} ReceiveQuiet(s: ClientState, max: int)
    ensures var r := AsyncReceive(s, max);
      && Quiet(s.log, r.st.log) && (s.connected ==> r.st.connected)
      && (r.flow == Done(Unexpected(RECONNECTED)) ==> JustConnected(r.st.log) && r.st.connected)
    decreases s.script
  {
    if s.connected {
      var e := Recv(s);
      if e.flow.Done? {
        assert Quiet(s.log, e.st.log);
        if e.flow.value.Unexpected? {
          RecvErrorQuiet(e.st, e.flow.value.error, max);
          QuietTrans(s.log, e.st.log, HandleRecvError(e.st, e.flow.value.error, max).st.log);
        } else if !e.flow.value.value.Untyped? && !Delivered(e.flow.value.value) {
          ReceiveQuiet(e.st, max);
          QuietTrans(s.log, e.st.log, ReceiveLoop(e.st, max).st.log);
        }
      }
    }
  }
}

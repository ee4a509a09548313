// The run loop as a whole: it takes every packet that comes and goes on; and a life from the first
// connect through commands, a lost connection and more commands.
module RunProps {
  import opened Wrappers
  import opened MqttWire
  import opened MqttError
  import opened EntitySpec
  import opened AdapterSpec
  import opened OnlineProps
  import opened ReconnectProps
  import opened AnswerProps
  import opened ConversationProps
  import opened EntityProps
  import opened ProgressProps
  import C = ClientSpec

  // ---- Packets ----

  // A command that a cover cannot read.
  predicate Unreadable(kind: Kind, p: Packet) {
    kind.Cover? && p.Message? && p.topic == CommandTopic && p.payload !in {"open", "close", "stop"}
  }

  predicate Readable(kind: Kind, ps: seq<Packet>) {
    ps == [] || (!Unreadable(kind, ps[0]) && Readable(kind, ps[1..]))
  }

  // One packet in the run: it is taken, whatever it is, and the run goes on.
  lemma PassOne(a: Setup, s: EntityState, p: Packet) returns (t: EntityState)
    requires s.c.connected && s.c.script.Ev? && s.c.script.head == Received(p) && !Unreadable(a.kind, p)
    ensures AsyncRun(a, s) == AsyncRun(a, t) && t.c.connected && t.c.script == s.c.script.tail
    ensures Said(t.c.log) == Said(s.c.log) && (Ready(a, s.c.log) ==> Ready(a, t.c.log))
  {
    SkipOne(s, a.max, p);
    var s1 := s.(c := s.c.Next().Note(Got(p)));
    assert Said(s1.c.log) == Said(s.c.log);
    assert Ready(a, s.c.log) ==> Ready(a, s1.c.log);
    t := if p.PubAck? then Settle(s1, p.id) else s1;
    if Image(p) == [] {
      assert AsyncReceiveCommand(a.kind, s, a.max) == AsyncReceiveCommand(a.kind, t, a.max);
    } else {
      var e := AsyncReceiveCommand(a.kind, s, a.max);
      assert e.flow.Done? && e.st == t;
      assert e.flow.value.Unexpected? ==> HandleError(a, t, e.flow.value.error) == Step(Done(false), t);
    }
  }

  // Any number of them.
  lemma {:induction false} RunPasses(a: Setup, s: EntityState, ps: seq<Packet>, rest: Script)
    returns (t: EntityState)
    requires s.c.connected && Readable(a.kind, ps) && s.c.script == Arriving(ps, rest)
    ensures AsyncRun(a, s) == AsyncRun(a, t) && t.c.connected && t.c.script == rest
    ensures Said(t.c.log) == Said(s.c.log) && (Ready(a, s.c.log) ==> Ready(a, t.c.log))
    decreases |ps|
  {
    if ps == [] {
      t := s;
    } else {
      t := PassOne(a, s, ps[0]);
      t := RunPasses(a, t, ps[1..], rest);
    }
  }

  // So the run takes all packets of any stream, and is still waiting for the next.
  lemma RunTakesAll(a: Setup, s: EntityState, ps: seq<Packet>)
    requires s.c.connected && Readable(a.kind, ps) && s.c.script == Stream(ps)
    ensures AsyncRun(a, s).flow == Pending && AsyncRun(a, s).st.c.script == End
  {
    var t := RunPasses(a, s, ps, End);
  }

  // But it does not survive a command that a cover cannot read.
  lemma RunEndsWithUnreadable(a: Setup, s: EntityState, ps: seq<Packet>, p: Packet, rest: Script)
    requires s.c.connected && Readable(a.kind, ps) && Unreadable(a.kind, p)
    requires s.c.script == Arriving(ps, Ev(Received(p), rest))
    ensures AsyncRun(a, s).flow == Thrown && AsyncRun(a, s).st.c.script == rest
  {
    var t := RunPasses(a, s, ps, Ev(Received(p), rest));
    SkipOne(t, a.max, p);
  }

  // ---- Giving up at the start ----

  ghost predicate GivenUp(r: EntitySpec.Run<int>, rest: Script, said: seq<Outgoing>) {
    r.flow.Done? && r.flow.value != NO_ERROR && r.st.c.script == rest && Said(r.st.c.log) == said
  }

  lemma LastFailed(s: EntityState, max: int, error: int, rest: Script, outcome: EntitySpec.Run<int>)
    requires AdapterSpec.Leads(s, max, INIT_RETRY_ATTEMPTS, error, outcome) && error != NO_ERROR
    requires Ev(TimerFired(0), s.c.script) == Scripted([], Ev(TimerFired(0), rest))
    ensures GivenUp(outcome, rest, Said(s.c.log))
  {
    AdapterSpec.LeadsEnd(s, max, error, outcome);
  }

  lemma {:induction false} RetriesGivenUp(
    s: EntityState, max: int, attempt: nat, error: int, fails: seq<Attempt>, rest: Script,
    outcome: EntitySpec.Run<int>)
    requires AdapterSpec.Leads(s, max, attempt, error, outcome) && attempt + |fails| == INIT_RETRY_ATTEMPTS
    requires error != NO_ERROR || attempt == 0
    requires Failures(fails) && Ev(TimerFired(0), s.c.script) == Scripted(fails, Ev(TimerFired(0), rest))
    ensures GivenUp(outcome, rest, Said(s.c.log))
    decreases |fails|
  {
    if fails == [] {
      LastFailed(s, max, error, rest, outcome);
    } else {
      var left := Scripted(fails[1..], Ev(TimerFired(0), rest));
      StartsWithTimer(fails[1..], rest);
      var t, err := FailingTurn(s, max, attempt, error, fails[0], left, outcome);
      RetriesGivenUp(t, max, attempt + 1, err, fails[1..], rest, outcome);
    }
  }

  lemma StartsWithTimer(fails: seq<Attempt>, rest: Script)
    ensures var r := Scripted(fails, Ev(TimerFired(0), rest));
      r.Ev? && r.head == TimerFired(0)
  {
  }

  // After ten failing connects, each with its wait, the initialisation fails; there is no
  // eleventh, nothing has been said, and nothing follows.
  lemma InitGivesUp(a: Setup, category: nat, fails: seq<Attempt>, rest: Script)
    requires Failures(fails) && |fails| == 10
    ensures var script := Scripted(fails, Ev(TimerFired(0), rest)).tail;
      var r := AsyncInit(a, Fresh(category, script));
      && r.flow == Done(false) && r.st.c.script == rest && Said(r.st.c.log) == []
      && Life(a, category, script) == r.st
  {
    StartsWithTimer(fails, rest);
    var s := Fresh(category, Scripted(fails, Ev(TimerFired(0), rest)).tail);
    RetriesGivenUp(s, a.max, 0, NO_ERROR, fails, rest, InitConnect(s, a.max, 0, NO_ERROR));
  }

  // ---- A life ----

  // Some failing connects, an accepted one, an answered configuration, packets; the connection is
  // lost, some attempts fail, one is accepted, the configuration is answered again; more packets.
  function LifeScript(
    kind: Kind, fails: seq<Attempt>, t: Talk, ps: seq<Packet>,
    ec: int, again: seq<Attempt>, u: Talk, qs: seq<Packet>): Script
  {
    var second := Arriving(qs, End);
    var lost := Ev(RecvFailed(ec), Retries(again, Conversation(kind, u, second)));
    Retries(fails, Conversation(kind, t, Arriving(ps, lost))).tail
  }

  // The adapter lives through all of it: nothing is left of the script, the client is connected,
  // the connection in use is ready, and what was said is this and no more.
  lemma LifeGoesOn(
    a: Setup, category: nat, fails: seq<Attempt>, t: Talk, ps: seq<Packet>,
    ec: int, again: seq<Attempt>, u: Talk, qs: seq<Packet>)
    requires Failures(fails) && |fails| < 10 && Failures(again) && |again| < a.max
    requires Readable(a.kind, ps) && Readable(a.kind, qs)
    ensures var s := Life(a, category, LifeScript(a.kind, fails, t, ps, ec, again, u, qs));
      && s.c.connected && s.c.script == End && Ready(a, s.c.log)
      && Said(s.c.log) == [Connect] + Spoken(a, t) + [Connect] + Spoken(a, u)
  {
    var second := Arriving(qs, End);
    var lost := Ev(RecvFailed(ec), Retries(again, Conversation(a.kind, u, second)));
    var s := Fresh(category, LifeScript(a.kind, fails, t, ps, ec, again, u, qs));
    InitProgress(a, s, fails, t, Arriving(ps, lost));
    assert [] + [Connect] == [Connect];
    var s1 := RunPasses(a, AsyncInit(a, s).st, ps, lost);
    var s2 := ReconnectionProgress(a, s1, ec, again, u, second);
    var s3 := RunPasses(a, s2, qs, End);
    StillWaiting(a, s3);
  }

  lemma StillWaiting(a: Setup, s: EntityState)
    requires s.c.connected && s.c.script == End
    ensures AsyncRun(a, s) == Step(Pending, s)
  {
  }
}

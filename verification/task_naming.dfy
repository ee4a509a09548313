// The name from which a task's id is generated: its owner, and its duration in text.
module TaskNaming {
  import opened Formatting

  datatype Duration =
    | Milliseconds(count: int)
    | Seconds(count: int)
    | Minutes(count: int)
    | Hours(count: int)
    | Days(count: int)
    | DaysAt(count: int, at: string)

  const AT_TIME := "AtTime_t_"

  function Unit(d: Duration): string {
    match d
    case Milliseconds(_) => "milliseconds"
    case Seconds(_) => "seconds"
    case Minutes(_) => "minutes"
    case Hours(_) => "hours"
    case Days(_) => "days"
    case DaysAt(_, _) => "days"
  }

  // The text behind the unit and its separator.
  function Tail(d: Duration): string {
    if d.DaysAt? then Decimal(d.count) + ['_'] + (AT_TIME + d.at) else Decimal(d.count)
  }

  function DurationToStr(d: Duration): string { Unit(d) + ['_'] + Tail(d) }

  function TaskName(owner: string, d: Duration): string { owner + DurationToStr(d) }

  // A number that tells the units apart, read off their text.
  function UnitCode(u: string): int { if |u| < 4 then 0 else u[0] as int * 1000 + |u| }

  lemma UnitFacts(d: Duration)
    ensures '_' !in Unit(d)
    ensures UnitCode(Unit(d)) ==
      match d
      case Milliseconds(_) => 109012
      case Seconds(_) => 115007
      case Minutes(_) => 109007
      case Hours(_) => 104005
      case Days(_) => 100004
      case DaysAt(_, _) => 100004
  {
  }

  lemma TailKind(d: Duration, e: Duration)
    requires Tail(d) == Tail(e)
    ensures d.count == e.count && d.DaysAt? == e.DaysAt? && (d.DaysAt? ==> d.at == e.at)
  {
    NoSeparatorInDecimal(d.count);
    NoSeparatorInDecimal(e.count);
    if d.DaysAt? && e.DaysAt? {
      SplitAtSeparator(Decimal(d.count), Decimal(e.count), '_', AT_TIME + d.at, AT_TIME + e.at);
      SamePrefix(AT_TIME, d.at, e.at);
    }
    assert d.DaysAt? ==> Tail(d)[|Decimal(d.count)|] == '_';
    assert e.DaysAt? ==> Tail(e)[|Decimal(e.count)|] == '_';
    assert d.DaysAt? == e.DaysAt?;
    DecimalInjective(d.count, e.count);
  }

  // For one owner, different durations give different names, whatever their kinds.
  lemma NameInjective(owner: string, d: Duration, e: Duration)
    requires TaskName(owner, d) == TaskName(owner, e)
    ensures d == e
  {
    SamePrefix(owner, DurationToStr(d), DurationToStr(e));
    UnitFacts(d);
    UnitFacts(e);
    SplitAtSeparator(Unit(d), Unit(e), '_', Tail(d), Tail(e));
    TailKind(d, e);
  }

  // The text of every kind, given its count in digits.
  lemma DurationsInFull(n: int, at: string)
    ensures DurationToStr(Milliseconds(n)) == "milliseconds_" + Decimal(n)
    ensures DurationToStr(Seconds(n)) == "seconds_" + Decimal(n)
    ensures DurationToStr(Minutes(n)) == "minutes_" + Decimal(n)
    ensures DurationToStr(Hours(n)) == "hours_" + Decimal(n)
    ensures DurationToStr(Days(n)) == "days_" + Decimal(n)
    ensures DurationToStr(DaysAt(n, at)) == "days_" + Decimal(n) + "_AtTime_t_" + at
  {
    assert "milliseconds" + ['_'] == "milliseconds_" && "seconds" + ['_'] == "seconds_";
    assert "minutes" + ['_'] == "minutes_" && "hours" + ['_'] == "hours_" && "days" + ['_'] == "days_";
    HeadOfName(n, at);
  }

  // The owner's name has no end mark, so two owners can share a name, and with it an id.
  lemma OwnersCollide()
    ensures TaskName("Xmilli", Seconds(5)) == TaskName("X", Milliseconds(5))
  {
    var rest := ['_'] + Decimal(5);
    assert "Xmilli" + ("seconds" + ['_'] + Decimal(5)) == "Xmilli" + "seconds" + rest;
    assert "X" + ("milliseconds" + ['_'] + Decimal(5)) == "X" + "milliseconds" + rest;
    assert "Xmilli" + "seconds" == "X" + "milliseconds";
  }

  // All that stands before the time of day.
  function Head(count: int): string { "days_" + Decimal(count) + "_AtTime_t_" }

  lemma HeadOfName(count: int, at: string)
    ensures DurationToStr(DaysAt(count, at)) == Head(count) + at
  {
    var n := Decimal(count);
    assert AT_TIME == "AtTime_t_" && ['_'] + AT_TIME == "_AtTime_t_";
    assert "days" + ['_'] == "days_";
    assert "days" + ['_'] + (n + ['_'] + (AT_TIME + at)) == ("days" + ['_']) + n + (['_'] + AT_TIME) + at;
  }

  // The two ways for a longer owner o to take over the name of a shorter owner p.
  ghost predicate Milli(o: string, p: string, d: Duration, e: Duration) {
    o == p + "milli" && d.Seconds? && e == Milliseconds(d.count)
  }

  ghost predicate TimeNamesDuration(o: string, p: string, d: Duration, e: Duration) {
    e.DaysAt? && exists x :: e.at == x + DurationToStr(d) && o == p + (Head(e.count) + x)
  }

  ghost predicate TakesOver(o: string, p: string, d: Duration, e: Duration) {
    Milli(o, p, d, e) || TimeNamesDuration(o, p, d, e)
  }

  // For all owners and all durations: two tasks share a name if and only if they agree in both,
  // or one owner takes over the name of the other.
  lemma Collisions(o: string, p: string, d: Duration, e: Duration)
    ensures TaskName(o, d) == TaskName(p, e) <==>
      (o == p && d == e) || TakesOver(o, p, d, e) || TakesOver(p, o, e, d)
  {
    if TaskName(o, d) == TaskName(p, e) {
      if |o| > |p| {
        CollisionTakesOver(o, p, d, e);
      } else if |p| > |o| {
        CollisionTakesOver(p, o, e, d);
      } else {
        assert (o + DurationToStr(d))[..|o|] == o && (p + DurationToStr(e))[..|o|] == p;
        NameInjective(o, d, e);
      }
    }
    if TakesOver(o, p, d, e) { TakenOver(o, p, d, e); }
    if TakesOver(p, o, e, d) { TakenOver(p, o, e, d); }
  }

  // With times of day as they are written, "21:30", only "milli" is left.
  lemma CollisionsWithTimesOfDay(o: string, p: string, d: Duration, e: Duration)
    requires (d.DaysAt? ==> '_' !in d.at) && (e.DaysAt? ==> '_' !in e.at)
    ensures TaskName(o, d) == TaskName(p, e) <==> (o == p && d == e) || Milli(o, p, d, e) || Milli(p, o, e, d)
  {
    Collisions(o, p, d, e);
    TimeHasSeparator(o, p, d, e);
    TimeHasSeparator(p, o, e, d);
  }

  lemma TimeHasSeparator(o: string, p: string, d: Duration, e: Duration)
    ensures TimeNamesDuration(o, p, d, e) ==> '_' in e.at
  {
    if TimeNamesDuration(o, p, d, e) {
      var x :| e.at == x + DurationToStr(d) && o == p + (Head(e.count) + x);
      assert e.at[|x| + |Unit(d)|] == '_';
    }
  }

  lemma TakenOver(o: string, p: string, d: Duration, e: Duration)
    requires TakesOver(o, p, d, e)
    ensures TaskName(o, d) == TaskName(p, e)
  {
    if Milli(o, p, d, e) {
      assert "milli" + "seconds" == "milliseconds";
      Regroup(p, "milli", "seconds", Tail(d));
    } else {
      var x :| e.at == x + DurationToStr(d) && o == p + (Head(e.count) + x);
      HeadOfName(e.count, e.at);
      Reassociate(p, Head(e.count), x, DurationToStr(d));
    }
  }

  lemma Reassociate(p: string, h: string, x: string, t: string)
    ensures (p + (h + x)) + t == p + (h + (x + t))
  {
  }

  lemma Regroup(p: string, m: string, u: string, t: string)
    ensures (p + m) + (u + ['_'] + t) == p + ((m + u) + ['_'] + t)
  {
  }

  lemma SplitOwner(o: string, p: string, x: string, y: string)
    requires o + x == p + y && |o| > |p|
    ensures o == p + o[|p|..]
  {
    assert (o + x)[..|p|] == o[..|p|] && (p + y)[..|p|] == p;
  }

  lemma RestOfName(p: string, more: string, x: string, y: string)
    requires (p + more) + x == p + y
    ensures more + x == y
  {
    assert (p + more) + x == p + (more + x);
    SamePrefix(p, more + x, y);
  }

  lemma CollisionTakesOver(o: string, p: string, d: Duration, e: Duration)
    requires |o| > |p| && TaskName(o, d) == TaskName(p, e)
    ensures TakesOver(o, p, d, e)
  {
    var more := o[|p|..];
    SplitOwner(o, p, DurationToStr(d), DurationToStr(e));
    RestOfName(p, more, DurationToStr(d), DurationToStr(e));
    if e.DaysAt? {
      var x := SuffixOfDaysAt(more, d, e);
      assert e.at == x + DurationToStr(d) && o == p + (Head(e.count) + x);
    } else {
      PlainEndsPlain(more, d, e);
      CollisionIsMilli(o, p, d, e);
    }
  }

  predicate StartsUnit(a: char, b: char) {
    (a == 'm' && b == 'i') || (a == 's' && b == 'e') || (a == 'h' && b == 'o') || (a == 'd' && b == 'a')
  }

  lemma Starts(d: Duration)
    ensures |DurationToStr(d)| >= 2 && StartsUnit(DurationToStr(d)[0], DurationToStr(d)[1])
  {
    assert |Unit(d)| >= 2 && StartsUnit(Unit(d)[0], Unit(d)[1]);
  }

  // A duration's text does not begin anywhere inside the text before a time of day.
  lemma NotInsideHead(count: int, at: string, k: nat)
    requires 1 <= k < |Head(count)| && k + 1 < |Head(count) + at|
    ensures !StartsUnit((Head(count) + at)[k], (Head(count) + at)[k + 1])
  {
    DecimalChars(count);
    var n, s := |Decimal(count)|, Head(count) + at;
    if k < 5 {
      assert s[k] == "days_"[k] && (k < 4 ==> s[k + 1] == "days_"[k + 1]);
    } else if k < 5 + n {
      assert s[k] == Decimal(count)[k - 5];
    } else {
      var t, j := "_AtTime_t_", k - 5 - n;
      assert s[k] == t[j] && (j < 9 ==> s[k + 1] == t[j + 1]);
      assert t[0] == '_' && t[1] == 'A' && t[2] == 't' && t[3] == 'T' && t[4] == 'i';
      assert t[5] == 'm' && t[6] == 'e' && t[7] == '_' && t[8] == 't' && t[9] == '_';
    }
  }

  lemma SuffixIsBehindHead(more: string, d: Duration, h: string, at: string, count: int)
    requires h == Head(count) && more != [] && more + DurationToStr(d) == h + at
    ensures |h| <= |more|
  {
    var k, s, t := |more|, h + at, DurationToStr(d);
    Starts(d);
    assert s[k] == (more + t)[k] == t[0] && s[k + 1] == (more + t)[k + 1] == t[1];
    if k < |h| { NotInsideHead(count, at, k); }
  }

  lemma SuffixOfDaysAt(more: string, d: Duration, e: Duration) returns (x: string)
    requires e.DaysAt? && more != [] && more + DurationToStr(d) == DurationToStr(e)
    ensures e.at == x + DurationToStr(d) && more == Head(e.count) + x
  {
    var h := Head(e.count);
    HeadOfName(e.count, e.at);
    SuffixIsBehindHead(more, d, h, e.at, e.count);
    x := Divide(more, DurationToStr(d), h, e.at);
  }

  lemma Divide(more: string, t: string, h: string, at: string) returns (x: string)
    requires more + t == h + at && |h| <= |more|
    ensures at == x + t && more == h + x
  {
    x := more[|h|..];
    assert more[..|h|] == (more + t)[..|h|] == (h + at)[..|h|] == h;
    assert more == h + x;
    RestOfName(h, x, t, at);
  }

  lemma PlainSeparator(e: Duration)
    requires !e.DaysAt?
    ensures forall k :: 0 <= k < |DurationToStr(e)| && DurationToStr(e)[k] == '_' ==> k == |Unit(e)|
  {
    UnitFacts(e);
    NoSeparatorInDecimal(e.count);
  }

  lemma DaysAtSeparators(d: Duration)
    requires d.DaysAt?
    ensures exists i, j :: 0 <= i < j < |DurationToStr(d)| && DurationToStr(d)[i] == '_' && DurationToStr(d)[j] == '_'
  {
    var t, j := DurationToStr(d), 5 + |Decimal(d.count)|;
    assert t[4] == '_' && t[j] == '_';
  }

  // The text of a plain duration has one separator and so does not end in that of a DaysAt.
  lemma PlainEndsPlain(more: string, d: Duration, e: Duration)
    requires !e.DaysAt? && more + DurationToStr(d) == DurationToStr(e)
    ensures !d.DaysAt?
  {
    PlainSeparator(e);
    if d.DaysAt? {
      DaysAtSeparators(d);
      assert forall i :: 0 <= i < |DurationToStr(d)| ==> DurationToStr(d)[i] == (more + DurationToStr(d))[|more| + i];
      assert false;
    }
  }

  lemma CollisionIsMilli(o: string, p: string, d: Duration, e: Duration)
    requires !d.DaysAt? && !e.DaysAt? && |o| > |p| && TaskName(o, d) == TaskName(p, e)
    ensures Milli(o, p, d, e)
  {
    SplitOwner(o, p, DurationToStr(d), DurationToStr(e));
    SameUnits(p, o[|p|..], Unit(d), Tail(d), Unit(e), Tail(e)) by {
      NoSeparatorInDecimal(d.count);
      NoSeparatorInDecimal(e.count);
      UnitFacts(e);
    }
    DecimalInjective(d.count, e.count);
    ProperSuffix(o[|p|..], d, e);
  }

  lemma SameUnits(p: string, more: string, u: string, t: string, v: string, w: string)
    requires (p + more) + (u + ['_'] + t) == p + (v + ['_'] + w)
    requires '_' !in t && '_' !in v && '_' !in w
    ensures more + u == v && t == w
  {
    Regroup(p, more, u, t);
    SamePrefix(p, (more + u) + ['_'] + t, v + ['_'] + w);
    SeparatorIsLast(more + u, v, '_', t, w);
    SplitAtSeparator(more + u, v, '_', t, w);
  }

  // Text in which the separator does not occur again after it.
  lemma SeparatorIsLast(a: string, b: string, sep: char, x: string, y: string)
    requires sep !in b && sep !in x && sep !in y && a + [sep] + x == b + [sep] + y
    ensures sep !in a
  {
    var s := a + [sep] + x;
    SeparatorComesLate(a, b, sep, x, y);
    if |b| < |a| {
      After(b, sep, y, |a|);
      At(a, sep, x);
      assert false;
    }
    assert forall i :: 0 <= i < |a| ==> a[i] == s[i] && b[i] == s[i];
  }

  lemma ProperSuffix(more: string, d: Duration, e: Duration)
    requires more != [] && more + Unit(d) == Unit(e)
    ensures more == "milli" && d.Seconds? && e.Milliseconds?
  {
    var u, v := Unit(d), Unit(e);
    assert |more| == |v| - |u|;
    assert v[|v| - |u|..] == u && v[..|v| - |u|] == more;
    assert forall i :: 0 <= i < |u| ==> v[|v| - |u| + i] == u[i];
    assert u[0] == v[|v| - |u|] && u[1] == v[|v| - |u| + 1];
    if e.Milliseconds? && d.Seconds? { assert "milliseconds"[..5] == "milli"; }
  }
}

/** The edge-triggered alert evaluator of the dashboard: five sensor channels,
    a stored copy of each channel's previous value, and a warning (plus an
    email when email notifications are on) for every channel that went from
    clear to alarmed since the previous poll. */
module Alerts {

  /** The five tracked channels, declared in the order the evaluator visits them. */
  datatype Channel = Capacitive | Current | Infrared | Tamper | Ultrasonic

  /** Position of a channel in the visiting order. */
  function Rank(c: Channel): nat {
    match c
    case Capacitive => 0
    case Current => 1
    case Infrared => 2
    case Tamper => 3
    case Ultrasonic => 4
  }

  /** The part of one telemetry snapshot that the evaluator reads. */
  datatype Snapshot = Snapshot(
    capacitiveDetected: bool,
    currentDetected: bool,
    irDetected: bool,
    tamperDetected: bool,
    ultrasonic: real)

  /** The stored previous value of every channel (the dashboard's previousStates). */
  datatype ChannelState = ChannelState(
    capacitiveDetected: bool,
    currentDetected: bool,
    irDetected: bool,
    tamperDetected: bool,
    ultrasonicCritical: bool)
  {
    function Get(c: Channel): bool {
      match c
      case Capacitive => capacitiveDetected
      case Current => currentDetected
      case Infrared => irDetected
      case Tamper => tamperDetected
      case Ultrasonic => ultrasonicCritical
    }

  }

  /** Every channel clear, as at page load. */
  const Initial: ChannelState := ChannelState(false, false, false, false, false)

  /** The ultrasonic channel is critical when the distance lies strictly between 0 and 30 cm. */
  predicate UltrasonicCritical(distance: real)
    // both bounds strict: a zero reading and 30 cm itself are not critical
    ensures UltrasonicCritical(distance) <==> 0.0 < distance && distance < 30.0
  {
    0.0 < distance < 30.0
  }

  lemma UltrasonicBoundaries()
    ensures !UltrasonicCritical(0.0) && UltrasonicCritical(1.0)
    ensures UltrasonicCritical(29.0) && !UltrasonicCritical(30.0)
    ensures !UltrasonicCritical(30.0001) && !UltrasonicCritical(-5.0)
  {
  }

  /** The current value of channel `c` in snapshot `s`. */
  function Reading(s: Snapshot, c: Channel): bool {
    match c
    case Capacitive => s.capacitiveDetected
    case Current => s.currentDetected
    case Infrared => s.irDetected
    case Tamper => s.tamperDetected
    case Ultrasonic => UltrasonicCritical(s.ultrasonic)
  }

  /** The channel state that shadows snapshot `s`. */
  function Observe(s: Snapshot): (st: ChannelState)
    ensures forall c :: st.Get(c) == Reading(s, c)
  {
    ChannelState(s.capacitiveDetected, s.currentDetected, s.irDetected,
                 s.tamperDetected, UltrasonicCritical(s.ultrasonic))
  }

  /** Channel `c` rises: it reads true now and was stored false. */
  predicate Rises(prev: ChannelState, s: Snapshot, c: Channel) {
    Reading(s, c) && !prev.Get(c)
  }

  /** The one-element list [c] when channel `c` rises, else the empty list. */
  function Edge(prev: ChannelState, s: Snapshot, c: Channel): seq<Channel> {
    if Rises(prev, s, c) then [c] else []
  }

  /** The channels that fire, visited in the evaluator's order. */
  function Fired(prev: ChannelState, s: Snapshot): seq<Channel> {
    Edge(prev, s, Capacitive) + Edge(prev, s, Current) + Edge(prev, s, Infrared)
    + Edge(prev, s, Tamper) + Edge(prev, s, Ultrasonic)
  }

  /** The channels of `f` come in visiting order, each at most once. */
  predicate Ascending(f: seq<Channel>) {
    forall i, j :: 0 <= i < j < |f| ==> Rank(f[i]) < Rank(f[j])
  }

  /** Exactly the rising channels fire, in visiting order. */
  lemma FiredFacts(prev: ChannelState, s: Snapshot)
    ensures forall c :: c in Fired(prev, s) <==> Rises(prev, s, c)
    ensures Ascending(Fired(prev, s))
  {
    forall c
      ensures c in Fired(prev, s) <==> Rises(prev, s, c)
    {
      FiredMember(prev, s, c);
    }
    FiredAscending(prev, s);
  }

  /** The edge of channel `c` holds `c` alone, or nothing. */
  lemma EdgeShape(prev: ChannelState, s: Snapshot, c: Channel)
    ensures |Edge(prev, s, c)| <= 1
    ensures forall i :: 0 <= i < |Edge(prev, s, c)| ==> Edge(prev, s, c)[i] == c
    ensures c in Edge(prev, s, c) <==> Rises(prev, s, c)
  {
  }

  lemma FiredMember(prev: ChannelState, s: Snapshot, c: Channel)
    ensures c in Fired(prev, s) <==> Rises(prev, s, c)
  {
    var f1, f2, f3 := Edge(prev, s, Capacitive), Edge(prev, s, Current), Edge(prev, s, Infrared);
    var f4, f5 := Edge(prev, s, Tamper), Edge(prev, s, Ultrasonic);
    assert c in Fired(prev, s) <==> c in f1 || c in f2 || c in f3 || c in f4 || c in f5;
    match c
    case Capacitive => EdgeShape(prev, s, c);
    case Current => EdgeShape(prev, s, c);
    case Infrared => EdgeShape(prev, s, c);
    case Tamper => EdgeShape(prev, s, c);
    case Ultrasonic => EdgeShape(prev, s, c);
  }

  lemma FiredAscending(prev: ChannelState, s: Snapshot)
    ensures Ascending(Fired(prev, s))
  {
    EdgeShape(prev, s, Capacitive);
    EdgeShape(prev, s, Current);
    EdgeShape(prev, s, Infrared);
    EdgeShape(prev, s, Tamper);
    EdgeShape(prev, s, Ultrasonic);
    AscendingFive(Edge(prev, s, Capacitive), Edge(prev, s, Current), Edge(prev, s, Infrared),
                  Edge(prev, s, Tamper), Edge(prev, s, Ultrasonic));
  }

  /** Five lists of at most one channel each, the i-th holding only the
      channel of rank i, concatenate to an ascending list. */
  lemma AscendingFive(f1: seq<Channel>, f2: seq<Channel>, f3: seq<Channel>,
                      f4: seq<Channel>, f5: seq<Channel>)
    requires |f1| <= 1 && (forall i :: 0 <= i < |f1| ==> f1[i] == Capacitive)
    requires |f2| <= 1 && (forall i :: 0 <= i < |f2| ==> f2[i] == Current)
    requires |f3| <= 1 && (forall i :: 0 <= i < |f3| ==> f3[i] == Infrared)
    requires |f4| <= 1 && (forall i :: 0 <= i < |f4| ==> f4[i] == Tamper)
    requires |f5| <= 1 && (forall i :: 0 <= i < |f5| ==> f5[i] == Ultrasonic)
    ensures Ascending(f1 + f2 + f3 + f4 + f5)
  {
    EdgesAscending([], f1, 0);
    assert [] + f1 == f1;
    EdgesAscending(f1, f2, 1);
    EdgesAscending(f1 + f2, f3, 2);
    EdgesAscending(f1 + f2 + f3, f4, 3);
    EdgesAscending(f1 + f2 + f3 + f4, f5, 4);
  }

  /** Appending channels of rank k to ascending channels all of rank below k. */
  lemma EdgesAscending(a: seq<Channel>, b: seq<Channel>, k: nat)
    requires Ascending(a) && (forall i :: 0 <= i < |a| ==> Rank(a[i]) < k)
    requires |b| <= 1 && (forall i :: 0 <= i < |b| ==> Rank(b[i]) == k)
    ensures Ascending(a + b) && (forall i :: 0 <= i < |a + b| ==> Rank((a + b)[i]) < k + 1)
  {
  }

  /** What one evaluation produces: the channels that fired, in visiting
      order, and the state stored for the next poll. */
  datatype Outcome = Outcome(fired: seq<Channel>, next: ChannelState)

  /** One evaluation of snapshot `s` against the stored state `prev`: the
      rising channels, visited in order, and the shadow of `s`. */
  function Evaluate(prev: ChannelState, s: Snapshot): (o: Outcome)
    // a channel fires exactly on a false -> true edge
    ensures forall c :: c in o.fired <==> Reading(s, c) && !prev.Get(c)
    // in visiting order, each at most once
    ensures Ascending(o.fired)
    // the stored state becomes a copy of the snapshot, edge or not
    ensures forall c :: o.next.Get(c) == Reading(s, c)
  {
    FiredFacts(prev, s);
    Outcome(Fired(prev, s), Observe(s))
  }

  /** Which channel a notice is about, and whether it is the on-screen
      warning or the email. */
  datatype Notice = ShowWarning(channel: Channel) | SendEmail(channel: Channel, alertType: string)

  /** The notices raised for the fired channels: a warning for each, followed
      by an email when email notifications are on. */
  function Notices(fired: seq<Channel>, emailNotifications: bool): (n: seq<Notice>)
    // one warning per fired channel, and one email each when emails are on
    ensures |n| == |fired| * (if emailNotifications then 2 else 1)
  {
    if fired == [] then []
    else ChannelNotices(fired[0], emailNotifications) + Notices(fired[1..], emailNotifications)
  }

  /** The email subject the dashboard uses for each channel. */
  function EmailAlertType(c: Channel): (subject: string)
    ensures c == Capacitive ==> subject == "Capacitive Sensor Alert"
    ensures c == Current ==> subject == "High Current Alert"
    ensures c == Infrared ==> subject == "Tampering Detected"
    ensures c == Tamper ==> subject == "Device Movement Detected"
    ensures c == Ultrasonic ==> subject == "Proximity Alert"
  {
    match c
    case Capacitive => "Capacitive Sensor Alert"
    case Current => "High Current Alert"
    case Infrared => "Tampering Detected"
    case Tamper => "Device Movement Detected"
    case Ultrasonic => "Proximity Alert"
  }

  /** A warning is raised for exactly the fired channels; an email for exactly
      the fired channels, and only when email notifications are on. */
  lemma {:induction false} NoticesFor(fired: seq<Channel>, emailNotifications: bool, c: Channel)
    ensures ShowWarning(c) in Notices(fired, emailNotifications) <==> c in fired
    ensures SendEmail(c, EmailAlertType(c)) in Notices(fired, emailNotifications) <==> emailNotifications && c in fired
  {
    if fired != [] {
      NoticesFor(fired[1..], emailNotifications, c);
      assert fired == [fired[0]] + fired[1..];
    }
  }

  /** The notices of a concatenation are the concatenated notices. */
  lemma {:induction false} NoticesAppend(a: seq<Channel>, b: seq<Channel>, emailNotifications: bool)
    ensures Notices(a + b, emailNotifications) == Notices(a, emailNotifications) + Notices(b, emailNotifications)
  {
    if a == [] {
      assert a + b == b;
    } else {
      var e, head := emailNotifications, ChannelNotices(a[0], emailNotifications);
      assert (a + b)[0] == a[0] && (a + b)[1..] == a[1..] + b;
      calc {
        Notices(a + b, e);
        head + Notices(a[1..] + b, e);
        { NoticesAppend(a[1..], b, e); }
        head + (Notices(a[1..], e) + Notices(b, e));
        { AppendAssociative(head, Notices(a[1..], e), Notices(b, e)); }
        head + Notices(a[1..], e) + Notices(b, e);
      }
    }
  }

  lemma AppendAssociative<T>(x: seq<T>, y: seq<T>, z: seq<T>)
    ensures x + (y + z) == x + y + z
  {
  }

  /** Evaluating the same snapshot again, from the state the first evaluation
      stored, fires nothing and stores the same state. */
  lemma Idempotent(prev: ChannelState, s: Snapshot)
    ensures var o := Evaluate(prev, s);
      Evaluate(o.next, s) == Outcome([], o.next)
  {
  }

  /** Whether a channel fires depends only on its own stored and current
      values, never on the other channels. */
  lemma ChannelIndependence(p1: ChannelState, s1: Snapshot, p2: ChannelState, s2: Snapshot, c: Channel)
    requires p1.Get(c) == p2.Get(c) && Reading(s1, c) == Reading(s2, c)
    ensures c in Evaluate(p1, s1).fired <==> c in Evaluate(p2, s2).fired
    ensures Evaluate(p1, s1).next.Get(c) == Evaluate(p2, s2).next.Get(c)
  {
  }

  // ---------------------------------------------------------------------
  // A run of polls

  /** The stored state after evaluating every snapshot of `snaps` in turn. */
  function StateAfter(prev: ChannelState, snaps: seq<Snapshot>): ChannelState
    decreases |snaps|
  {
    if snaps == [] then prev
    else StateAfter(Evaluate(prev, snaps[0]).next, snaps[1..])
  }

  /** The channels fired at each poll of a run. */
  function Replay(prev: ChannelState, snaps: seq<Snapshot>): (trace: seq<seq<Channel>>)
    ensures |trace| == |snaps|
    decreases |snaps|
  {
    if snaps == [] then []
    else [Evaluate(prev, snaps[0]).fired] + Replay(Evaluate(prev, snaps[0]).next, snaps[1..])
  }

  /** After a non-empty run the stored state shadows the last snapshot. */
  lemma {:induction false} StateAfterShadowsLast(prev: ChannelState, snaps: seq<Snapshot>)
    requires snaps != []
    ensures StateAfter(prev, snaps) == Observe(snaps[|snaps| - 1])
    decreases |snaps|
  {
    if |snaps| > 1 {
      StateAfterShadowsLast(Evaluate(prev, snaps[0]).next, snaps[1..]);
    } else {
      var o := Evaluate(prev, snaps[0]);
      assert o.next.Get(Capacitive) == Observe(snaps[0]).Get(Capacitive);
      assert o.next.Get(Current) == Observe(snaps[0]).Get(Current);
      assert o.next.Get(Infrared) == Observe(snaps[0]).Get(Infrared);
      assert o.next.Get(Tamper) == Observe(snaps[0]).Get(Tamper);
      assert o.next.Get(Ultrasonic) == Observe(snaps[0]).Get(Ultrasonic);
    }
  }

  /** Poll `j` of a run is an ordinary evaluation from the state the first `j` polls left. */
  lemma {:induction false} ReplayAt(prev: ChannelState, snaps: seq<Snapshot>, j: nat)
    requires j < |snaps|
    ensures Replay(prev, snaps)[j] == Evaluate(StateAfter(prev, snaps[..j]), snaps[j]).fired
    decreases j
  {
    if j > 0 {
      var next := Evaluate(prev, snaps[0]).next;
      ReplayAt(next, snaps[1..], j - 1);
      assert snaps[..j][1..] == snaps[1..][..j - 1];
      assert snaps[..j][0] == snaps[0];
    }
  }

  /** A channel that reads true at every poll of a run fires at most once,
      at the first poll, and only if it was stored clear before the run. */
  lemma SustainedFiresOnce(prev: ChannelState, snaps: seq<Snapshot>, c: Channel)
    requires forall i :: 0 <= i < |snaps| ==> Reading(snaps[i], c)
    ensures forall i :: 0 <= i < |snaps| ==>
      (c in Replay(prev, snaps)[i] <==> i == 0 && !prev.Get(c))
  {
    forall i | 0 <= i < |snaps|
      ensures c in Replay(prev, snaps)[i] <==> i == 0 && !prev.Get(c)
    {
      ReplayAt(prev, snaps, i);
      if i > 0 {
        StateAfterShadowsLast(prev, snaps[..i]);
      }
    }
  }

  /** Between two firings of the same channel the channel was observed clear. */
  lemma RefireNeedsClear(prev: ChannelState, snaps: seq<Snapshot>, c: Channel, i: nat, j: nat)
    requires i < j < |snaps|
    requires c in Replay(prev, snaps)[i] && c in Replay(prev, snaps)[j]
    ensures exists k :: i < k < j && !Reading(snaps[k], c)
  {
    assert Reading(snaps[i], c) by {
      ReplayAt(prev, snaps, i);
    }
    assert !Reading(snaps[j - 1], c) by {
      var before := snaps[..j];
      var st := StateAfter(prev, before);
      assert !st.Get(c) by {
        ReplayAt(prev, snaps, j);
      }
      assert st == Observe(snaps[j - 1]) by {
        StateAfterShadowsLast(prev, before);
        assert before[j - 1] == snaps[j - 1];
      }
    }
  }

  /** Every channel but the capacitive one reads clear in `s`. */
  predicate OthersClear(s: Snapshot) {
    !s.currentDetected && !s.irDetected && !s.tamperDetected && !UltrasonicCritical(s.ultrasonic)
  }

  /** Over a run, a channel fires at a later poll exactly when it reads true
      there and read false at the poll before. */
  lemma RunEdge(prev: ChannelState, snaps: seq<Snapshot>, c: Channel, i: nat)
    requires 0 < i < |snaps|
    ensures c in Replay(prev, snaps)[i] <==> Reading(snaps[i], c) && !Reading(snaps[i - 1], c)
  {
    ReplayAt(prev, snaps, i);
    StateAfterShadowsLast(prev, snaps[..i]);
    assert snaps[..i][i - 1] == snaps[i - 1];
  }

  /** A scenario: with every other channel clear, capacitive on, on, off, on
      fires capacitive at the first and the fourth poll only. */
  lemma CapacitiveScenario(snaps: seq<Snapshot>)
    requires |snaps| == 4 && forall i :: 0 <= i < 4 ==> OthersClear(snaps[i])
    requires snaps[0].capacitiveDetected && snaps[1].capacitiveDetected
    requires !snaps[2].capacitiveDetected && snaps[3].capacitiveDetected
    ensures var trace := Replay(Initial, snaps);
      trace[0] == [Capacitive] && trace[1] == [] && trace[2] == [] && trace[3] == [Capacitive]
  {
    FirstPoll(snaps);
    PollAfterPrevious(snaps, 1);
    PollAfterPrevious(snaps, 2);
    PollAfterPrevious(snaps, 3);
  }

  /** The first poll of a capacitive-only run. */
  lemma FirstPoll(snaps: seq<Snapshot>)
    requires snaps != [] && OthersClear(snaps[0])
    ensures Replay(Initial, snaps)[0] == if snaps[0].capacitiveDetected then [Capacitive] else []
  {
    ReplayAt(Initial, snaps, 0);
    CapacitiveOnly(Initial, snaps[0]);
  }

  /** Poll `i` of a capacitive-only run, from the state poll `i - 1` left. */
  lemma PollAfterPrevious(snaps: seq<Snapshot>, i: nat)
    requires 0 < i < |snaps| && OthersClear(snaps[i])
    ensures Replay(Initial, snaps)[i]
      == if snaps[i].capacitiveDetected && !snaps[i - 1].capacitiveDetected then [Capacitive] else []
  {
    var before := snaps[..i];
    ReplayAt(Initial, snaps, i);
    StateAfterShadowsLast(Initial, before);
    assert before[i - 1] == snaps[i - 1];
    CapacitiveOnly(StateAfter(Initial, before), snaps[i]);
  }

  /** With every other channel clear, the evaluator is a rising-edge
      detector on the capacitive channel. */
  lemma CapacitiveOnly(prev: ChannelState, s: Snapshot)
    requires OthersClear(s)
    ensures Evaluate(prev, s).fired
      == if s.capacitiveDetected && !prev.capacitiveDetected then [Capacitive] else []
    ensures Evaluate(prev, s).next == Observe(s)
  {
    assert Fired(prev, s) == Edge(prev, s, Capacitive);
  }

  // ---------------------------------------------------------------------
  // The stateful evaluator

  /** The dashboard's alert evaluator: `previousStates` persists across polls. */
  class AlertMonitor {
    var previousStates: ChannelState

    constructor ()
      ensures previousStates == Initial
    {
      previousStates := Initial;
    }

    /** Checks one snapshot: visits the five channels in order; for each,
        raises its notices on a false -> true edge, then overwrites the
        channel's stored value with the current one. */
    method CheckForCriticalAlerts(data: Snapshot, emailNotifications: bool) returns (notices: seq<Notice>)
      modifies this
      ensures var o := Evaluate(old(previousStates), data);
        previousStates == o.next && notices == Notices(o.fired, emailNotifications)
    {
      ghost var prev := previousStates;
      var e := emailNotifications;

      var capacitive := OnRisingEdge(Capacitive, previousStates.capacitiveDetected, data.capacitiveDetected, e);
      previousStates := previousStates.(capacitiveDetected := data.capacitiveDetected);

      var current := OnRisingEdge(Current, previousStates.currentDetected, data.currentDetected, e);
      previousStates := previousStates.(currentDetected := data.currentDetected);

      var infrared := OnRisingEdge(Infrared, previousStates.irDetected, data.irDetected, e);
      previousStates := previousStates.(irDetected := data.irDetected);

      var tamper := OnRisingEdge(Tamper, previousStates.tamperDetected, data.tamperDetected, e);
      previousStates := previousStates.(tamperDetected := data.tamperDetected);

      var ultrasonicCritical := UltrasonicCritical(data.ultrasonic);
      var ultrasonic := OnRisingEdge(Ultrasonic, previousStates.ultrasonicCritical, ultrasonicCritical, e);
      previousStates := previousStates.(ultrasonicCritical := ultrasonicCritical);

      notices := capacitive + current + infrared + tamper + ultrasonic;
      NoticesMatchVisit(prev, data, e);
    }
  }

  /** The notices of one fired channel: its warning, then its email when
      email notifications are on. */
  function ChannelNotices(c: Channel, emailNotifications: bool): (n: seq<Notice>)
    // the warning first, then the email with the channel's subject when emails are on
    ensures |n| == if emailNotifications then 2 else 1
    ensures n[0] == ShowWarning(c)
    ensures emailNotifications ==> n[1] == SendEmail(c, EmailAlertType(c))
  {
    [ShowWarning(c)] + (if emailNotifications then [SendEmail(c, EmailAlertType(c))] else [])
  }

  /** The notices of channel `c` given its stored and its current value:
      those of ChannelNotices on a false -> true edge, none otherwise. */
  function OnRisingEdge(c: Channel, stored: bool, current: bool, emailNotifications: bool): (n: seq<Notice>)
    // something is raised exactly on a false -> true edge, and then the channel's notices
    ensures n != [] <==> current && !stored
    ensures n != [] ==> n == ChannelNotices(c, emailNotifications)
  {
    if current && !stored then ChannelNotices(c, emailNotifications) else []
  }

  /** The notices raised channel by channel add up to the notices of Evaluate. */
  lemma NoticesMatchVisit(prev: ChannelState, s: Snapshot, emailNotifications: bool)
    ensures var e := emailNotifications;
      OnRisingEdge(Capacitive, prev.capacitiveDetected, s.capacitiveDetected, e)
      + OnRisingEdge(Current, prev.currentDetected, s.currentDetected, e)
      + OnRisingEdge(Infrared, prev.irDetected, s.irDetected, e)
      + OnRisingEdge(Tamper, prev.tamperDetected, s.tamperDetected, e)
      + OnRisingEdge(Ultrasonic, prev.ultrasonicCritical, UltrasonicCritical(s.ultrasonic), e)
      == Notices(Evaluate(prev, s).fired, e)
  {
    var e := emailNotifications;
    NoticesOfEdge(prev, s, Capacitive, e);
    NoticesOfEdge(prev, s, Current, e);
    NoticesOfEdge(prev, s, Infrared, e);
    NoticesOfEdge(prev, s, Tamper, e);
    NoticesOfEdge(prev, s, Ultrasonic, e);
    NoticesOfFive(Edge(prev, s, Capacitive), Edge(prev, s, Current), Edge(prev, s, Infrared),
                  Edge(prev, s, Tamper), Edge(prev, s, Ultrasonic), e);
  }

  /** The notices of five concatenated lists of channels are the
      concatenated notices of each. */
  lemma NoticesOfFive(f1: seq<Channel>, f2: seq<Channel>, f3: seq<Channel>,
                      f4: seq<Channel>, f5: seq<Channel>, e: bool)
    ensures Notices(f1 + f2 + f3 + f4 + f5, e)
      == Notices(f1, e) + Notices(f2, e) + Notices(f3, e) + Notices(f4, e) + Notices(f5, e)
  {
    NoticesAppend(f1, f2, e);
    NoticesAppend(f1 + f2, f3, e);
    NoticesAppend(f1 + f2 + f3, f4, e);
    NoticesAppend(f1 + f2 + f3 + f4, f5, e);
  }

  /** The notices of one channel's edge are those the evaluator raises at its visit. */
  lemma NoticesOfEdge(prev: ChannelState, s: Snapshot, c: Channel, emailNotifications: bool)
    ensures Notices(Edge(prev, s, c), emailNotifications)
         == OnRisingEdge(c, prev.Get(c), Reading(s, c), emailNotifications)
  {
    if Rises(prev, s, c) {
      assert Edge(prev, s, c)[1..] == [];
    }
  }
}

// One UDP check round: what is sent, what may count as a failure, and when the round ends
// (protocol/ngx_healthcheck_udp.c, protocol/ngx_healthcheck_probe.c).

module Udp {
  import opened Time

  const RETRIES: nat := 8
  const PAYLOAD: string := "NGX_UDP_CHECKER"
  const PAYLOAD_LENGTH: nat := |PAYLOAD|

  datatype Errno = Interrupted | WouldBlock | ConnectionRefused | NoResources | OtherError

  datatype Validity = Owned | Unreadable | Lost

  // What a look at the process and the shared record gives: is the process stopping, does the
  // round still own its record, and what time is it.
  datatype Look = Look(stopping: bool, validity: Validity, clock: Option<U64>)

  // The test before any socket work, and the second look its timeout path takes.
  datatype Gate = Gate(first: Look, second: Look)

  datatype Attempt = Attempt(moved: Option<nat>, errno: Errno, gate: Gate, clock: Option<U64>)

  datatype Query = Query(answered: bool, reported: Option<Errno>, errno: Errno, gate: Gate)

  datatype Receive = Receive(data: bool, errno: Errno, gate: Gate, clock: Option<U64>)

  datatype Connected = NoSocket | InProgress | AtOnce

  // Everything the environment decides during one event: looks, socket results, event
  // registrations. Enough results are supplied for the bounded retries.
  datatype Inputs = Inputs(
    readGate: Gate, writeGate: Gate, look: Look, late: Look, readable: bool, writable: bool, connected: Connected,
    clock: Option<U64>, errorClock: Option<U64>,
    tries: seq<Attempt>, queries: seq<Query>, receives: seq<Receive>, eventsWork: bool)
  {
    predicate Enough() { |tries| >= RETRIES && |queries| >= RETRIES && |receives| >= RETRIES }
  }

  // dropped: the watchdog or a stop abandons the round. settled: its result is committed.
  datatype Signal = ReadReady | WriteReady | Deadline | Resumed | Dropped | Settled

  // What happened in a round, in order: the socket is prepared, a send is tried, the whole
  // datagram goes out, the round turns to listening, an error refuses it, a verdict is fixed,
  // or the round is abandoned.
  datatype Event = Prepared | Tried | Datagram | Listening | Refused(at: U64) | Fixed(success: bool) | Abandoned

  function Count(trace: seq<Event>, e: Event): nat {
    if trace == [] then 0 else Count(trace[..|trace| - 1], e) + if trace[|trace| - 1] == e then 1 else 0
  }

  // A failure stands only directly behind a refusal seen before the deadline, after a send.
  predicate FailureConfirmed(trace: seq<Event>, deadline: U64, k: nat)
    requires k < |trace|
  {
    trace[k] == Fixed(false) ==>
      k > 0 && trace[k - 1].Refused? && trace[k - 1].at < deadline && Tried in trace[..k - 1]
  }

  predicate FailuresConfirmed(trace: seq<Event>, deadline: U64) {
    forall k :: 0 <= k < |trace| ==> FailureConfirmed(trace, deadline, k)
  }

  function Verdicts(trace: seq<Event>): nat { Count(trace, Fixed(true)) + Count(trace, Fixed(false)) }

  // The safety of a round.
  predicate Safe(trace: seq<Event>, deadline: U64) {
    FailuresConfirmed(trace, deadline) && Count(trace, Datagram) <= 1 && Verdicts(trace) <= 1
  }

  lemma Grow(trace: seq<Event>, e: Event, other: Event)
    ensures Count(trace + [e], other) == Count(trace, other) + if e == other then 1 else 0
  {
    assert (trace + [e])[..|trace|] == trace;
  }

  lemma GrowAll(trace: seq<Event>, e: Event)
    ensures Count(trace + [e], Datagram) == Count(trace, Datagram) + if e == Datagram then 1 else 0
    ensures Verdicts(trace + [e]) == Verdicts(trace) + if e.Fixed? then 1 else 0
  {
    Grow(trace, e, Datagram);
    Grow(trace, e, Fixed(true));
    Grow(trace, e, Fixed(false));
  }

  lemma Members(trace: seq<Event>, e: Event)
    ensures forall other :: other in trace + [e] <==> other in trace || other == e
  {
  }

  lemma StillConfirmed(trace: seq<Event>, deadline: U64, e: Event)
    requires FailuresConfirmed(trace, deadline) && FailureConfirmed(trace + [e], deadline, |trace|)
    ensures FailuresConfirmed(trace + [e], deadline)
  {
    forall k | 0 <= k < |trace|
      ensures FailureConfirmed(trace + [e], deadline, k)
    {
      assert FailureConfirmed(trace, deadline, k);
      if k > 0 {
        assert (trace + [e])[..k - 1] == trace[..k - 1];
      }
    }
  }

  // What an error of the socket says about the round: an end, or nothing yet.
  datatype Meaning = Ends(success: bool) | Continues

  function Classify(attempted: bool, clock: Option<U64>, deadline: U64, errno: Errno): Meaning {
    if clock.None? || clock.value >= deadline then Ends(true)
    else if attempted && errno == ConnectionRefused then Ends(false)
    else if errno == NoResources then Ends(true)
    else Continues
  }

  // ---- What each event adds to the round ----

  predicate Passes(look: Look, deadline: U64) {
    !look.stopping && look.validity.Owned? && look.clock.Some? && look.clock.value < deadline
  }

  // The deadline's handler: a stopping process or a lost record abandons the round, an
  // expired one is a success, and an early or unreadable clock only waits.
  function TimeoutEvents(look: Look, deadline: U64): seq<Event> {
    if look.stopping || look.validity.Lost? then [Abandoned]
    else if look.clock.None? || look.clock.value < deadline then []
    else [Fixed(true)]
  }

  // The test before any socket work, when it does not pass.
  function GateEvents(gate: Gate, deadline: U64): seq<Event> {
    var look := gate.first;
    if look.stopping || look.validity.Lost? then [Abandoned]
    else if look.validity.Unreadable? || look.clock.None? || look.clock.value < deadline then []
    else TimeoutEvents(gate.second, deadline)
  }

  lemma NoGateEvents(gate: Gate, deadline: U64)
    requires Passes(gate.first, deadline)
    ensures GateEvents(gate, deadline) == []
  {
  }

  function ErrorEvents(attempted: bool, clock: Option<U64>, deadline: U64, errno: Errno): seq<Event> {
    match Classify(attempted, clock, deadline, errno)
    case Ends(true) => [Fixed(true)]
    case Ends(false) => [Refused(clock.value), Fixed(false)]
    case Continues => []
  }

  function Watching(eventsWork: bool): seq<Event> { if eventsWork then [] else [Fixed(true)] }

  predicate Repeats(t: Attempt, deadline: U64) {
    t.moved.None? && t.errno == Interrupted && Passes(t.gate.first, deadline)
  }

  // A try that is not repeated.
  function TryEvents(t: Attempt, deadline: U64, eventsWork: bool): seq<Event> {
    if t.moved == Some(PAYLOAD_LENGTH) then [Datagram, Listening] + Watching(eventsWork)
    else if t.moved.Some? then [Fixed(true)]
    else if t.errno == Interrupted then GateEvents(t.gate, deadline)
    else if t.errno == WouldBlock then Watching(eventsWork)
    else
      var events := ErrorEvents(true, t.clock, deadline, t.errno);
      if events == [] then [Listening] + Watching(eventsWork) else events
  }

  // Sending: interrupted tries are repeated while the round stays live and in time.
  function SendEvents(tries: seq<Attempt>, left: nat, deadline: U64, eventsWork: bool): seq<Event>
    requires left <= |tries|
    decreases left
  {
    if left == 0 then []
    else
      var rest := if Repeats(tries[0], deadline) then SendEvents(tries[1..], left - 1, deadline, eventsWork)
                  else TryEvents(tries[0], deadline, eventsWork);
      [Tried] + rest
  }

  function WriteEvents(gate: Gate, tries: seq<Attempt>, sending: bool, deadline: U64, eventsWork: bool): seq<Event>
    requires RETRIES <= |tries|
  {
    if sending && Passes(gate.first, deadline) then SendEvents(tries, RETRIES, deadline, eventsWork)
    else GateEvents(gate, deadline)
  }

  // Preparing the socket: every local failure is a success of the round, an expired round too.
  function StartEvents(inputs: Inputs, sending: bool, deadline: U64): seq<Event>
    requires inputs.Enough()
  {
    var look := inputs.look;
    if look.validity.Lost? then [Abandoned]
    else if look.validity.Unreadable? || look.clock.None? then []
    else if look.clock.value >= deadline then TimeoutEvents(inputs.late, deadline)
    else if inputs.connected.NoSocket? then [Fixed(true)]
    else if inputs.clock.None? then [Prepared, Fixed(true)]
    else if inputs.connected.AtOnce? then
      [Prepared] + WriteEvents(inputs.writeGate, inputs.tries, sending, deadline, inputs.eventsWork)
    else [Prepared]
  }

  // Asking for the stored error: its value, or the events of a query that got no answer.
  datatype Answer = Answered(reported: Option<Errno>) | Unanswered(events: seq<Event>)

  function QueryAnswer(queries: seq<Query>, left: nat, deadline: U64): Answer
    requires left <= |queries|
    decreases left
  {
    if left == 0 then Unanswered([])
    else
      var q := queries[0];
      if q.answered then Answered(q.reported)
      else if q.errno != Interrupted then Unanswered([Fixed(true)])
      else if Passes(q.gate.first, deadline) then QueryAnswer(queries[1..], left - 1, deadline)
      else Unanswered(GateEvents(q.gate, deadline))
  }

  function ReceiveEvents(receives: seq<Receive>, left: nat, attempted: bool, deadline: U64, eventsWork: bool): seq<Event>
    requires left <= |receives|
    decreases left
  {
    if left == 0 then []
    else
      var r := receives[0];
      if r.data then [Fixed(true)]
      else if r.errno == Interrupted then
        if Passes(r.gate.first, deadline) then ReceiveEvents(receives[1..], left - 1, attempted, deadline, eventsWork)
        else GateEvents(r.gate, deadline)
      else if r.errno == WouldBlock then Watching(eventsWork)
      else
        var events := ErrorEvents(attempted, r.clock, deadline, r.errno);
        if events == [] then Watching(eventsWork) else events
  }

  function ReadEvents(queries: seq<Query>, clock: Option<U64>, receives: seq<Receive>, attempted: bool, deadline: U64, eventsWork: bool): seq<Event>
    requires RETRIES <= |queries| && RETRIES <= |receives|
  {
    match QueryAnswer(queries, RETRIES, deadline)
    case Unanswered(events) => events
    case Answered(reported) =>
      var events := if reported.Some? then ErrorEvents(attempted, clock, deadline, reported.value) else [];
      if events != [] then events else ReceiveEvents(receives, RETRIES, attempted, deadline, eventsWork)
  }

  // A read event as a whole.
  function ReadyReadEvents(inputs: Inputs, attempted: bool, deadline: U64): seq<Event>
    requires inputs.Enough()
  {
    if Passes(inputs.readGate.first, deadline)
    then ReadEvents(inputs.queries, inputs.errorClock, inputs.receives, attempted, deadline, inputs.eventsWork)
    else GateEvents(inputs.readGate, deadline)
  }

  // Events after which the round goes on.
  predicate Live(events: seq<Event>) {
    Fixed(true) !in events && Fixed(false) !in events && Abandoned !in events
  }

  // The watchdog's nudge: prepare what is not prepared, end what is late, and otherwise do
  // the reading and, in a round that goes on, the writing the socket is ready for.
  function ResumeEvents(inputs: Inputs, prepared: bool, attempted: bool, sending: bool, deadline: U64): seq<Event>
    requires inputs.Enough()
  {
    if !prepared then StartEvents(inputs, sending, deadline)
    else if inputs.clock.Some? && inputs.clock.value >= deadline then TimeoutEvents(inputs.look, deadline)
    else
      var read := if inputs.readable then ReadyReadEvents(inputs, attempted, deadline) else [];
      read + if inputs.writable && Live(read) then WriteEvents(inputs.writeGate, inputs.tries, sending, deadline, inputs.eventsWork) else []
  }

  // What a signal adds to a live round with that log.
  function SignalEvents(signal: Signal, inputs: Inputs, trace: seq<Event>, deadline: U64): seq<Event>
    requires inputs.Enough()
  {
    if !Live(trace) then []
    else
      match signal
      case ReadReady => ReadyReadEvents(inputs, Tried in trace, deadline)
      case WriteReady => WriteEvents(inputs.writeGate, inputs.tries, Listening !in trace, deadline, inputs.eventsWork)
      case Deadline => TimeoutEvents(inputs.look, deadline)
      case Resumed => ResumeEvents(inputs, Prepared in trace, Tried in trace, Listening !in trace, deadline)
      case Dropped => [Abandoned]
      case Settled => []
  }

  // The log of a whole round.
  function RoundEvents(deadline: U64, first: Inputs, signals: seq<(Signal, Inputs)>): seq<Event>
    requires first.Enough() && AllEnough(signals)
  {
    if signals == [] then StartEvents(first, true, deadline)
    else
      var n := |signals| - 1;
      var before := RoundEvents(deadline, first, signals[..n]);
      before + SignalEvents(signals[n].0, signals[n].1, before, deadline)
  }

  lemma {:induction false} NoVerdict(trace: seq<Event>)
    ensures Verdicts(trace) == 0 <==> Fixed(true) !in trace && Fixed(false) !in trace
  {
    if trace != [] {
      NoVerdict(trace[..|trace| - 1]);
      assert trace == trace[..|trace| - 1] + [trace[|trace| - 1]];
    }
  }

  // ---- What the events of a handler say about its inputs ----

  predicate RefusedNow(errno: Errno, clock: Option<U64>, deadline: U64) {
    errno == ConnectionRefused && clock.Some? && clock.value < deadline
  }

  // An error that ends the round as a success: no clock, too late, or no resources.
  predicate Excused(errno: Errno, clock: Option<U64>, deadline: U64) {
    clock.None? || clock.value >= deadline || errno == NoResources
  }

  // A look that finds the process stopping or the record another's.
  predicate Drops(look: Look) { look.stopping || look.validity.Lost? }

  predicate Late(look: Look, deadline: U64) { look.clock.Some? && look.clock.value >= deadline }

  // The round is given up by the test before socket work, or it has expired at both looks.
  predicate GateDrops(gate: Gate, deadline: U64) {
    Drops(gate.first) || (gate.first.validity.Owned? && Late(gate.first, deadline) && Drops(gate.second))
  }

  predicate GateExpires(gate: Gate, deadline: U64) {
    !Drops(gate.first) && gate.first.validity.Owned? && Late(gate.first, deadline) && !Drops(gate.second) && Late(gate.second, deadline)
  }

  lemma GateExactly(gate: Gate, deadline: U64)
    ensures GateEvents(gate, deadline) ==
      if GateDrops(gate, deadline) then [Abandoned] else if GateExpires(gate, deadline) then [Fixed(true)] else []
  {
  }

  // The try that settles a write: the first one that is not repeated.
  function Settling(tries: seq<Attempt>, left: nat, deadline: U64): (n: nat)
    requires left <= |tries|
    ensures n <= left
    decreases left
  {
    if left == 0 || !Repeats(tries[0], deadline) then 0 else 1 + Settling(tries[1..], left - 1, deadline)
  }

  lemma SendStep(tries: seq<Attempt>, left: nat, deadline: U64, eventsWork: bool)
    requires 0 < left <= |tries|
    ensures SendEvents(tries, left, deadline, eventsWork) == [Tried] +
      if Repeats(tries[0], deadline) then SendEvents(tries[1..], left - 1, deadline, eventsWork)
      else TryEvents(tries[0], deadline, eventsWork)
    ensures Settling(tries, left, deadline) ==
      if Repeats(tries[0], deadline) then 1 + Settling(tries[1..], left - 1, deadline) else 0
  {
    hide Repeats, TryEvents;
  }

  // It is the first: every earlier one is interrupted in a live round and it is not.
  lemma {:induction false} SettlingIsFirst(tries: seq<Attempt>, left: nat, deadline: U64)
    requires left <= |tries|
    ensures var n := Settling(tries, left, deadline);
      && (forall j :: 0 <= j < n ==> tries[j].moved.None? && tries[j].errno == Interrupted && Passes(tries[j].gate.first, deadline))
      && (n < left && tries[n].moved.None? && tries[n].errno == Interrupted ==> !Passes(tries[n].gate.first, deadline))
    decreases left
  {
    hide Passes;
    if left > 0 && Repeats(tries[0], deadline) {
      SettlingIsFirst(tries[1..], left - 1, deadline);
      forall j | 0 < j < Settling(tries, left, deadline) ensures Repeats(tries[j], deadline) {
        assert tries[j] == tries[1..][j - 1];
      }
    }
  }

  lemma NoTries(tries: seq<Attempt>, deadline: U64, eventsWork: bool)
    ensures SendEvents(tries, 0, deadline, eventsWork) == [] && Settling(tries, 0, deadline) == 0
  {
  }

  // A try that meets an error it can go on with.
  predicate Unconfirmed(t: Attempt, deadline: U64) {
    && t.moved.None? && t.errno != Interrupted && t.errno != WouldBlock
    && !Excused(t.errno, t.clock, deadline) && t.errno != ConnectionRefused
  }

  // What the settling try makes of the round.
  predicate TryDecides(t: Attempt, deadline: U64, eventsWork: bool, events: seq<Event>) {
    && (Datagram in events <==> t.moved == Some(PAYLOAD_LENGTH))
    && (Listening in events <==> t.moved == Some(PAYLOAD_LENGTH) || Unconfirmed(t, deadline))
    && (Fixed(false) in events <==> t.moved.None? && RefusedNow(t.errno, t.clock, deadline))
    && (Abandoned in events <==> t.moved.None? && t.errno == Interrupted && GateDrops(t.gate, deadline))
    && (Fixed(true) in events <==>
          || (t.moved.Some? && t.moved != Some(PAYLOAD_LENGTH))
          || (t.moved.None? && t.errno == Interrupted && GateExpires(t.gate, deadline))
          || (t.moved.None? && t.errno != Interrupted && t.errno != WouldBlock && Excused(t.errno, t.clock, deadline))
          || (!eventsWork && (t.moved == Some(PAYLOAD_LENGTH) || (t.moved.None? && t.errno == WouldBlock) || Unconfirmed(t, deadline))))
    && Tried !in events && Prepared !in events
  }

  lemma TryEventsDecide(t: Attempt, deadline: U64, eventsWork: bool)
    requires !Repeats(t, deadline)
    ensures TryDecides(t, deadline, eventsWork, TryEvents(t, deadline, eventsWork))
  {
    GateExactly(t.gate, deadline);
    assert !(GateDrops(t.gate, deadline) && GateExpires(t.gate, deadline));
    hide GateEvents, GateDrops, GateExpires, Passes;
    var events := TryEvents(t, deadline, eventsWork);
    if t.moved == Some(PAYLOAD_LENGTH) {
      assert events[0] == Datagram && events[1] == Listening;
    } else if t.moved.None? && t.errno != Interrupted && t.errno != WouldBlock {
      if RefusedNow(t.errno, t.clock, deadline) {
        assert events[1] == Fixed(false);
      } else if !Excused(t.errno, t.clock, deadline) {
        assert events[0] == Listening;
      }
    }
  }

  // A write tries once more than it is interrupted in a live round, eight times at most. The
  // settling try alone decides: whether the datagram goes out, whether the round fails or
  // succeeds, whether it turns to listening, and whether it is given up.
  lemma {:induction false} SendsExactly(tries: seq<Attempt>, left: nat, deadline: U64, eventsWork: bool)
    requires left <= |tries|
    ensures var events, n := SendEvents(tries, left, deadline, eventsWork), Settling(tries, left, deadline);
      && |events| >= Min(n + 1, left) && (forall k :: 0 <= k < Min(n + 1, left) ==> events[k] == Tried)
      && (if n < left then TryDecides(tries[n], deadline, eventsWork, events[n + 1..]) else events[left..] == [])
    decreases left
  {
    hide SendEvents, Settling, Repeats, TryEvents, TryDecides;
    if left == 0 {
      NoTries(tries, deadline, eventsWork);
    } else {
      SendStep(tries, left, deadline, eventsWork);
      var events := SendEvents(tries, left, deadline, eventsWork);
      if Repeats(tries[0], deadline) {
        SendsExactly(tries[1..], left - 1, deadline, eventsWork);
        var rest, n := SendEvents(tries[1..], left - 1, deadline, eventsWork), Settling(tries, left, deadline);
        assert forall k :: 0 < k < |events| ==> events[k] == rest[k - 1];
        if n < left {
          assert events[n + 1..] == rest[n..];
        } else {
          assert events[left..] == rest[left - 1..];
        }
      } else {
        TryEventsDecide(tries[0], deadline, eventsWork);
        assert events[1..] == TryEvents(tries[0], deadline, eventsWork);
      }
    }
  }

  // A write event does nothing but that, in a live round that is still sending, and at most
  // eight times.
  lemma WritesExactly(gate: Gate, tries: seq<Attempt>, sending: bool, deadline: U64, eventsWork: bool)
    requires |tries| >= 8
    ensures var events := WriteEvents(gate, tries, sending, deadline, eventsWork);
      var live := !Drops(gate.first) && gate.first.validity.Owned? && gate.first.clock.Some? && gate.first.clock.value < deadline;
      && (events != [] && events[0] == Tried <==> sending && live)
      && (sending && live ==> events == SendEvents(tries, 8, deadline, eventsWork))
      && (live && !sending ==> events == [])
      && (!live ==> events == if GateDrops(gate, deadline) then [Abandoned] else if GateExpires(gate, deadline) then [Fixed(true)] else [])
  {
    GateExactly(gate, deadline);
    if sending && Passes(gate.first, deadline) {
      SendStep(tries, RETRIES, deadline, eventsWork);
    }
    hide SendEvents;
  }

  // Preparing: the socket is prepared exactly in a live round that gets one; every local
  // failure is a success of the round at once; a datagram leaves at once exactly when the
  // socket is connected at once.
  lemma StartsExactly(inputs: Inputs, sending: bool, deadline: U64)
    requires inputs.Enough()
    ensures var events, look := StartEvents(inputs, sending, deadline), inputs.look;
      var live := look.validity.Owned? && look.clock.Some? && look.clock.value < deadline;
      && (Prepared in events <==> live && !inputs.connected.NoSocket?)
      && (live && inputs.connected.NoSocket? ==> events == [Fixed(true)])
      && (live && !inputs.connected.NoSocket? && inputs.clock.None? ==> events == [Prepared, Fixed(true)])
      && (live && inputs.connected.InProgress? && inputs.clock.Some? ==> events == [Prepared])
      && (live && inputs.connected.AtOnce? && inputs.clock.Some? ==>
            events == [Prepared] + WriteEvents(inputs.writeGate, inputs.tries, sending, deadline, inputs.eventsWork))
      && (!live && look.validity.Lost? ==> events == [Abandoned])
      && (!live && look.validity.Owned? && Late(look, deadline) ==>
            events == if Drops(inputs.late) then [Abandoned] else if Late(inputs.late, deadline) then [Fixed(true)] else [])
      && (!live && (look.validity.Unreadable? || (look.validity.Owned? && look.clock.None?)) ==> events == [])
  {
    hide WriteEvents;
  }

  // The query that settles what the socket's stored error is, and the reception that settles
  // a read: the first that is not interrupted in a live round.
  function Asking(queries: seq<Query>, left: nat, deadline: U64): (n: nat)
    requires left <= |queries|
    ensures n <= left
    ensures forall j :: 0 <= j < n ==> !queries[j].answered && queries[j].errno == Interrupted && Passes(queries[j].gate.first, deadline)
    ensures n < left && !queries[n].answered && queries[n].errno == Interrupted ==> !Passes(queries[n].gate.first, deadline)
    decreases left
  {
    if left == 0 || queries[0].answered || queries[0].errno != Interrupted || !Passes(queries[0].gate.first, deadline) then 0
    else
      var n := 1 + Asking(queries[1..], left - 1, deadline);
      assert forall j :: 0 < j < n ==> queries[j] == queries[1..][j - 1];
      n
  }

  function Hearing(receives: seq<Receive>, left: nat, deadline: U64): (n: nat)
    requires left <= |receives|
    ensures n <= left
    ensures forall j :: 0 <= j < n ==> !receives[j].data && receives[j].errno == Interrupted && Passes(receives[j].gate.first, deadline)
    ensures n < left && !receives[n].data && receives[n].errno == Interrupted ==> !Passes(receives[n].gate.first, deadline)
    decreases left
  {
    if left == 0 || receives[0].data || receives[0].errno != Interrupted || !Passes(receives[0].gate.first, deadline) then 0
    else
      var n := 1 + Hearing(receives[1..], left - 1, deadline);
      assert forall j :: 0 < j < n ==> receives[j] == receives[1..][j - 1];
      n
  }

  lemma {:induction false} QueryExactly(queries: seq<Query>, left: nat, deadline: U64)
    requires left <= |queries|
    ensures var n := Asking(queries, left, deadline);
      QueryAnswer(queries, left, deadline) ==
        if n == left then Unanswered([])
        else if queries[n].answered then Answered(queries[n].reported)
        else if queries[n].errno != Interrupted then Unanswered([Fixed(true)])
        else if GateDrops(queries[n].gate, deadline) then Unanswered([Abandoned])
        else if GateExpires(queries[n].gate, deadline) then Unanswered([Fixed(true)])
        else Unanswered([])
    decreases left
  {
    hide Passes, GateEvents, GateDrops, GateExpires;
    if left > 0 {
      GateExactly(queries[0].gate, deadline);
      if !queries[0].answered && queries[0].errno == Interrupted && Passes(queries[0].gate.first, deadline) {
        QueryExactly(queries[1..], left - 1, deadline);
        assert Asking(queries, left, deadline) < left ==>
          queries[Asking(queries, left, deadline)] == queries[1..][Asking(queries[1..], left - 1, deadline)];
      }
    }
  }

  // What the settling reception makes of the round.
  function Heard(r: Receive, attempted: bool, deadline: U64, eventsWork: bool): seq<Event> {
    var watching := if eventsWork then [] else [Fixed(true)];
    if r.data then [Fixed(true)]
    else if r.errno == Interrupted then
      if GateDrops(r.gate, deadline) then [Abandoned] else if GateExpires(r.gate, deadline) then [Fixed(true)] else []
    else if r.errno == WouldBlock then watching
    else if attempted && RefusedNow(r.errno, r.clock, deadline) then [Refused(r.clock.value), Fixed(false)]
    else if Excused(r.errno, r.clock, deadline) then [Fixed(true)]
    else watching
  }

  lemma {:induction false} ReceivesExactly(receives: seq<Receive>, left: nat, attempted: bool, deadline: U64, eventsWork: bool)
    requires left <= |receives|
    ensures var n := Hearing(receives, left, deadline);
      ReceiveEvents(receives, left, attempted, deadline, eventsWork)
        == if n == left then [] else Heard(receives[n], attempted, deadline, eventsWork)
    decreases left
  {
    hide Passes, GateEvents, GateDrops, GateExpires;
    if left > 0 {
      GateExactly(receives[0].gate, deadline);
      if !receives[0].data && receives[0].errno == Interrupted && Passes(receives[0].gate.first, deadline) {
        ReceivesExactly(receives[1..], left - 1, attempted, deadline, eventsWork);
        assert Hearing(receives, left, deadline) < left ==>
          receives[Hearing(receives, left, deadline)] == receives[1..][Hearing(receives[1..], left - 1, deadline)];
      }
    }
  }

  // A read asks for the stored error before it receives anything. A stored refusal in time,
  // after a try to send, fails the round at once; an excused stored error ends it as a
  // success; any other one, and none, leave the decision to the settling reception.
  lemma ReadsExactly(queries: seq<Query>, clock: Option<U64>, receives: seq<Receive>, attempted: bool, deadline: U64, eventsWork: bool)
    requires |queries| >= 8 && |receives| >= 8
    ensures var m, n := Asking(queries, 8, deadline), Hearing(receives, 8, deadline);
      ReadEvents(queries, clock, receives, attempted, deadline, eventsWork) ==
        if m == 8 then []
        else
          var q := queries[m];
          if !q.answered then
            if q.errno != Interrupted then [Fixed(true)]
            else if GateDrops(q.gate, deadline) then [Abandoned]
            else if GateExpires(q.gate, deadline) then [Fixed(true)] else []
          else if q.reported.Some? && attempted && RefusedNow(q.reported.value, clock, deadline) then
            [Refused(clock.value), Fixed(false)]
          else if q.reported.Some? && Excused(q.reported.value, clock, deadline) then [Fixed(true)]
          else if n == 8 then []
          else Heard(receives[n], attempted, deadline, eventsWork)
  {
    QueryExactly(queries, RETRIES, deadline);
    ReceivesExactly(receives, RETRIES, attempted, deadline, eventsWork);
    hide QueryAnswer, ReceiveEvents, Heard, GateDrops, GateExpires;
  }

  // When a read fails the round, exactly.
  lemma ReadFailsExactly(queries: seq<Query>, clock: Option<U64>, receives: seq<Receive>, attempted: bool, deadline: U64, eventsWork: bool)
    requires |queries| >= 8 && |receives| >= 8
    ensures var m, n := Asking(queries, 8, deadline), Hearing(receives, 8, deadline);
      var events := ReadEvents(queries, clock, receives, attempted, deadline, eventsWork);
      && Tried !in events && Datagram !in events && Listening !in events && Prepared !in events
      && (Fixed(false) in events <==>
            && attempted && m < 8 && queries[m].answered
            && var stored := queries[m].reported;
            if stored.Some? && (RefusedNow(stored.value, clock, deadline) || Excused(stored.value, clock, deadline))
            then RefusedNow(stored.value, clock, deadline)
            else n < 8 && !receives[n].data && RefusedNow(receives[n].errno, receives[n].clock, deadline))
  {
    ReadsExactly(queries, clock, receives, attempted, deadline, eventsWork);
    var n := Hearing(receives, 8, deadline);
    if n < 8 {
      HeardFails(receives[n], attempted, deadline, eventsWork);
    }
    hide ReadEvents, Asking, Hearing, GateDrops, GateExpires, Heard, RefusedNow, Excused;
  }

  lemma HeardFails(r: Receive, attempted: bool, deadline: U64, eventsWork: bool)
    ensures var events := Heard(r, attempted, deadline, eventsWork);
      && Tried !in events && Datagram !in events && Listening !in events && Prepared !in events
      && (Fixed(false) in events <==> attempted && !r.data && RefusedNow(r.errno, r.clock, deadline))
  {
    hide GateDrops, GateExpires;
    if attempted && !r.data && RefusedNow(r.errno, r.clock, deadline) {
      assert Heard(r, attempted, deadline, eventsWork)[1] == Fixed(false);
    }
  }

  class Round {
    const deadline: U64
    var active: bool
    var pending: bool
    var success: bool
    var attempted: bool
    var sent: bool
    var sending: bool
    var prepared: bool
    // The log of the round, kept by the model.
    var trace: seq<Event>

    // The log determines the state of the round: it is live until a verdict or its end, and
    // it has tried, sent, prepared and turned to listening exactly when the log says so.
    ghost predicate Valid()
      reads this
    {
      && Safe(trace, deadline)
      && (active <==> Verdicts(trace) == 0 && Abandoned !in trace)
      && (active ==> !pending)
      && (pending ==> Fixed(success) in trace)
      && (attempted <==> Tried in trace) && (sent <==> Datagram in trace) && (prepared <==> Prepared in trace)
      && (sending <==> Listening !in trace) && (sending ==> Count(trace, Datagram) == 0)
    }

    // A freshly claimed round.
    constructor (deadline: U64)
      ensures Valid() && this.deadline == deadline && active && !pending && trace == []
    {
      this.deadline := deadline;
      active, pending, success := true, false, false;
      attempted, sent, sending, prepared := false, false, true, false;
      trace := [];
    }

    method Note(e: Event)
      requires Valid() && e.Refused?
      modifies `trace
      ensures Valid() && trace == old(trace) + [e]
    {
      GrowAll(trace, e);
      StillConfirmed(trace, deadline, e);
      hide Count;
      Members(trace, e);
      trace := trace + [e];
    }

    // finish: the first verdict of a round is its only one.
    method Finish(good: bool)
      requires Valid()
      requires active && !good ==> FailureConfirmed(trace + [Fixed(false)], deadline, |trace|)
      modifies `active, `pending, `success, `trace
      ensures Valid()
      ensures trace == if old(active) then old(trace) + [Fixed(good)] else old(trace)
      ensures !active && pending == (old(active) || old(pending)) && (old(active) ==> success == good)
    {
      if !active || pending {
        return;
      }
      GrowAll(trace, Fixed(good));
      StillConfirmed(trace, deadline, Fixed(good));
      hide Count;
      Members(trace, Fixed(good));
      active := false;
      pending := true;
      success := good;
      trace := trace + [Fixed(good)];
    }

    // The round is given up without a verdict.
    method Abandon()
      requires Valid() && active
      modifies `active, `trace
      ensures Valid() && !active && trace == old(trace) + [Abandoned]
    {
      GrowAll(trace, Abandoned);
      StillConfirmed(trace, deadline, Abandoned);
      hide Count;
      Members(trace, Abandoned);
      active := false;
      trace := trace + [Abandoned];
    }

    method Prepare()
      requires Valid()
      modifies `prepared, `trace
      ensures Valid() && prepared && trace == old(trace) + [Prepared]
    {
      GrowAll(trace, Prepared);
      StillConfirmed(trace, deadline, Prepared);
      hide Count;
      Members(trace, Prepared);
      prepared := true;
      trace := trace + [Prepared];
    }

    method Stop()
      requires Valid()
      modifies `active, `pending, `trace
      ensures Valid() && !active && !pending
      ensures trace == old(trace) + if old(active) then [Abandoned] else []
    {
      if active {
        Abandon();
      }
      pending := false;
    }

    // timeout: an expired round without a confirmed failure is a success.
    method Timeout(look: Look)
      requires Valid()
      modifies `active, `pending, `success, `trace
      ensures Valid()
      ensures trace == old(trace) + if old(active) then TimeoutEvents(look, deadline) else []
    {
      if !active || pending {
        return;
      }
      if look.stopping {
        Stop();
        return;
      }
      if look.validity.Lost? {
        Abandon();
        return;
      }
      if look.clock.None? || look.clock.value < deadline {
        return;
      }
      Finish(true);
    }

    // io_ready: socket work goes on only for the live round, in time.
    method IoReady(gate: Gate) returns (ready: bool)
      requires Valid()
      modifies `active, `pending, `success, `trace
      ensures Valid()
      ensures ready <==> old(active) && Passes(gate.first, deadline)
      ensures ready ==> active
      ensures trace == old(trace) + if old(active) then GateEvents(gate, deadline) else []
    {
      if !active || pending {
        return false;
      }
      if gate.first.stopping {
        Stop();
        return false;
      }
      if gate.first.validity.Lost? {
        Abandon();
        return false;
      }
      if gate.first.validity.Unreadable? || gate.first.clock.None? {
        return false;
      }
      if gate.first.clock.value >= deadline {
        Timeout(gate.second);
        return false;
      }
      return true;
    }

    // A refusal in time after a try to send: the round fails.
    method Refuse(at: U64)
      requires Valid() && active && attempted && at < deadline
      modifies `active, `pending, `success, `trace
      ensures Valid() && !active && trace == old(trace) + [Refused(at), Fixed(false)]
    {
      ghost var was := trace;
      Note(Refused(at));
      assert (trace + [Fixed(false)])[..|was|] == was;
      Finish(false);
      assert trace == was + [Refused(at), Fixed(false)];
    }

    // udp_error: the only way to a failure.
    method Error(errno: Errno, clock: Option<U64>) returns (ended: bool)
      requires Valid() && active
      modifies `active, `pending, `success, `trace
      ensures Valid()
      ensures ended == !active && ended == (ErrorEvents(attempted, clock, deadline, errno) != [])
      ensures trace == old(trace) + ErrorEvents(attempted, clock, deadline, errno)
    {
      if clock.None? {
        Finish(true);
      } else if clock.value >= deadline {
        Finish(true);
      } else if attempted && errno == ConnectionRefused {
        Refuse(clock.value);
      } else if errno == NoResources {
        Finish(true);
      } else {
        return false;
      }
      return true;
    }

    // A listener that cannot be registered ends the round as a success.
    method Watch(eventsWork: bool)
      requires Valid() && active
      modifies `active, `pending, `success, `trace
      ensures Valid() && trace == old(trace) + Watching(eventsWork)
    {
      if !eventsWork {
        Finish(true);
      }
    }

    // wait_reply: no more sending in this round.
    method WaitReply(eventsWork: bool)
      requires Valid() && active
      modifies `active, `pending, `success, `sending, `trace
      ensures Valid() && trace == old(trace) + [Listening] + Watching(eventsWork)
    {
      GrowAll(trace, Listening);
      StillConfirmed(trace, deadline, Listening);
      Members(trace, Listening);
      hide Count;
      sending := false;
      trace := trace + [Listening];
      Watch(eventsWork);
    }

    method Try()
      requires Valid() && active
      modifies `attempted, `trace
      ensures Valid() && attempted && trace == old(trace) + [Tried]
    {
      GrowAll(trace, Tried);
      StillConfirmed(trace, deadline, Tried);
      Members(trace, Tried);
      hide Count;
      attempted := true;
      trace := trace + [Tried];
    }

    // The whole datagram went out.
    method SendWhole(eventsWork: bool)
      requires Valid() && active && sending
      modifies `active, `pending, `success, `sent, `sending, `trace
      ensures Valid() && trace == old(trace) + [Datagram, Listening] + Watching(eventsWork)
    {
      GrowAll(trace, Datagram);
      StillConfirmed(trace, deadline, Datagram);
      Members(trace, Datagram);
      GrowAll(trace + [Datagram], Listening);
      StillConfirmed(trace + [Datagram], deadline, Listening);
      Members(trace + [Datagram], Listening);
      hide Count;
      assert trace + [Datagram] + [Listening] == trace + [Datagram, Listening];
      sent := true;
      sending := false;
      trace := trace + [Datagram, Listening];
      Watch(eventsWork);
    }

    // udp_write: up to eight tries to send the one datagram.
    method Write(gate: Gate, tries: seq<Attempt>, eventsWork: bool)
      requires Valid() && |tries| >= RETRIES
      modifies this
      ensures Valid()
      ensures trace == old(trace) + if old(active) then WriteEvents(gate, tries, old(sending), deadline, eventsWork) else []
    {
      hide Round.Valid, SendEvents, GateEvents, Passes;
      var ready := IoReady(gate);
      if ready {
        NoGateEvents(gate, deadline);
      }
      if ready && sending {
        SendDatagram(tries, eventsWork);
      }
    }

    method SendDatagram(tries: seq<Attempt>, eventsWork: bool)
      requires Valid() && active && sending && |tries| >= RETRIES
      modifies `active, `pending, `success, `attempted, `sent, `sending, `trace
      ensures Valid() && trace == old(trace) + SendEvents(tries, RETRIES, deadline, eventsWork)
    {
      hide Round.Valid, TryEvents, Repeats, SendEvents;
      ghost var goal := trace + SendEvents(tries, RETRIES, deadline, eventsWork);
      var retries := 0;
      while retries < RETRIES
        invariant 0 <= retries <= RETRIES && Valid() && active && sending
        invariant trace + SendEvents(tries[retries..], RETRIES - retries, deadline, eventsWork) == goal
      {
        var t := tries[retries];
        SendStep(tries[retries..], RETRIES - retries, deadline, eventsWork);
        assert tries[retries..][0] == t && tries[retries..][1..] == tries[retries + 1..];
        var again := SendOnce(t, eventsWork);
        if !again {
          return;
        }
        retries := retries + 1;
      }
      NoTries(tries[retries..], deadline, eventsWork);
    }

    method SendOnce(t: Attempt, eventsWork: bool) returns (again: bool)
      requires Valid() && active && sending
      modifies `active, `pending, `success, `attempted, `sent, `sending, `trace
      ensures Valid() && again == Repeats(t, deadline) && (again ==> active && sending)
      ensures trace == old(trace) + [Tried] + if again then [] else TryEvents(t, deadline, eventsWork)
    {
      hide Round.Valid, ErrorEvents, GateEvents, Passes, Watching;
      Try();
      if t.moved == Some(PAYLOAD_LENGTH) {
        SendWhole(eventsWork);
        return false;
      }
      if t.moved.Some? {
        Finish(true);
        return false;
      }
      if t.errno == Interrupted {
        again := IoReady(t.gate);
        if again {
          NoGateEvents(t.gate, deadline);
        }
        return;
      }
      if t.errno != WouldBlock {
        var ended := Error(t.errno, t.clock);
        if !ended {
          WaitReply(eventsWork);
        }
        return false;
      }
      Watch(eventsWork);
      return false;
    }

    // udp_read: the socket's stored error first, then a reply.
    method Read(gate: Gate, queries: seq<Query>, clock: Option<U64>, receives: seq<Receive>, eventsWork: bool)
      requires Valid() && |queries| >= RETRIES && |receives| >= RETRIES
      modifies `active, `pending, `success, `trace
      ensures Valid()
      ensures trace == old(trace) +
        if old(active) && Passes(gate.first, deadline) then ReadEvents(queries, clock, receives, attempted, deadline, eventsWork)
        else if old(active) then GateEvents(gate, deadline) else []
    {
      hide Round.Valid, ErrorEvents, GateEvents, Passes, QueryAnswer, ReceiveEvents;
      var ready := IoReady(gate);
      if !ready {
        return;
      }
      NoGateEvents(gate, deadline);
      var proceed, reported := QueryError(queries);
      if !proceed {
        return;
      }
      if reported.Some? {
        var ended := Error(reported.value, clock);
        if ended {
          return;
        }
      }
      ReceiveReply(receives, eventsWork);
    }

    // Asking for the stored error clears it, so it is classified before anything is read.
    method QueryError(queries: seq<Query>) returns (proceed: bool, reported: Option<Errno>)
      requires Valid() && active && |queries| >= RETRIES
      modifies `active, `pending, `success, `trace
      ensures Valid() && (proceed ==> active)
      ensures var answer := QueryAnswer(queries, RETRIES, deadline);
        && proceed == answer.Answered?
        && (proceed ==> reported == answer.reported && trace == old(trace))
        && (!proceed ==> trace == old(trace) + answer.events)
    {
      reported := None;
      var retries := 0;
      while retries < RETRIES
        invariant 0 <= retries <= RETRIES && Valid() && active && trace == old(trace)
        invariant QueryAnswer(queries, RETRIES, deadline) == QueryAnswer(queries[retries..], RETRIES - retries, deadline)
      {
        var q := queries[retries];
        assert queries[retries..][0] == q && queries[retries..][1..] == queries[retries + 1..];
        if q.answered {
          return true, q.reported;
        }
        if q.errno != Interrupted {
          Finish(true);
          return false, None;
        }
        var ready := IoReady(q.gate);
        if !ready {
          return false, None;
        }
        retries := retries + 1;
      }
      return false, None;
    }

    method ReceiveReply(receives: seq<Receive>, eventsWork: bool)
      requires Valid() && active && |receives| >= RETRIES
      modifies `active, `pending, `success, `trace
      ensures Valid()
      ensures trace == old(trace) + ReceiveEvents(receives, RETRIES, attempted, deadline, eventsWork)
    {
      hide Round.Valid, ErrorEvents, GateEvents, Passes, Watching;
      var retries := 0;
      while retries < RETRIES
        invariant 0 <= retries <= RETRIES && Valid() && active && trace == old(trace)
        invariant ReceiveEvents(receives, RETRIES, attempted, deadline, eventsWork)
                  == ReceiveEvents(receives[retries..], RETRIES - retries, attempted, deadline, eventsWork)
      {
        var r := receives[retries];
        assert receives[retries..][0] == r && receives[retries..][1..] == receives[retries + 1..];
        if r.data {
          Finish(true);
          return;
        }
        if r.errno == Interrupted {
          var ready := IoReady(r.gate);
          if !ready {
            return;
          }
          NoGateEvents(r.gate, deadline);
          retries := retries + 1;
          continue;
        }
        if r.errno != WouldBlock {
          var ended := Error(r.errno, r.clock);
          if ended {
            return;
          }
        }
        break;
      }
      if retries == RETRIES {
        return;
      }
      Watch(eventsWork);
    }

    // probe_start: prepares the socket; the round keeps the deadline fixed at its claim.
    method Start(inputs: Inputs)
      requires Valid() && inputs.Enough()
      modifies this
      ensures Valid()
      ensures trace == old(trace) + if old(active) then StartEvents(inputs, old(sending), deadline) else []
    {
      hide Round.Valid, WriteEvents, TimeoutEvents;
      if !active {
        return;
      }
      var look := inputs.look;
      if look.validity.Lost? {
        Abandon();
        return;
      }
      if look.validity.Unreadable? || look.clock.None? {
        return;
      }
      if look.clock.value >= deadline {
        Timeout(inputs.late);
        return;
      }
      if inputs.connected.NoSocket? {
        Finish(true);
        return;
      }
      Prepare();
      if inputs.clock.None? {
        Finish(true);
        return;
      }
      if inputs.connected.AtOnce? {
        Write(inputs.writeGate, inputs.tries, inputs.eventsWork);
      }
    }

    // A round is live exactly while its log shows no end.
    lemma LiveWhileOpen()
      requires Valid()
      ensures active <==> Live(trace)
    {
      NoVerdict(trace);
    }

    // probe_resume: the watchdog's nudge.
    method Resume(inputs: Inputs)
      requires Valid() && inputs.Enough()
      modifies this
      ensures Valid()
      ensures trace == old(trace) + if old(active) then ResumeEvents(inputs, old(prepared), old(attempted), old(sending), deadline) else []
    {
      hide Round.Valid, StartEvents, ReadEvents, WriteEvents, TimeoutEvents, GateEvents, Passes;
      LiveWhileOpen();
      if !active {
        return;
      }
      if !prepared {
        Start(inputs);
        return;
      }
      if inputs.clock.Some? && inputs.clock.value >= deadline {
        Timeout(inputs.look);
        return;
      }
      if inputs.readable {
        Read(inputs.readGate, inputs.queries, inputs.errorClock, inputs.receives, inputs.eventsWork);
      }
      LiveWhileOpen();
      if active && inputs.writable {
        Write(inputs.writeGate, inputs.tries, inputs.eventsWork);
      }
    }

    lemma LogTells()
      requires Valid()
      ensures (attempted <==> Tried in trace) && (prepared <==> Prepared in trace) && (sending <==> Listening !in trace)
    {
    }

    method Handle(signal: Signal, inputs: Inputs)
      requires Valid() && inputs.Enough()
      modifies this
      ensures Valid() && trace == old(trace) + SignalEvents(signal, inputs, old(trace), deadline)
    {
      LiveWhileOpen();
      LogTells();
      hide Round.Valid, StartEvents, ReadEvents, WriteEvents, TimeoutEvents, GateEvents, ResumeEvents, Passes, Live;
      match signal {
        case ReadReady => Read(inputs.readGate, inputs.queries, inputs.errorClock, inputs.receives, inputs.eventsWork);
        case WriteReady => Write(inputs.writeGate, inputs.tries, inputs.eventsWork);
        case Deadline => Timeout(inputs.look);
        case Resumed => Resume(inputs);
        case Dropped => Stop();
        case Settled => Settle();
      }
    }

    method Settle()
      requires Valid()
      modifies `pending
      ensures Valid() && !pending
    {
      pending := false;
    }

    lemma Verdict()
      requires Valid()
      ensures Safe(trace, deadline) && (pending ==> Fixed(success) in trace)
    {
    }
  }

  // A nudge prepares a round exactly when it was not prepared and its look, in time, gets a
  // socket. A prepared round that is late ends or is given up by its deadline's look. One in
  // time reads exactly when it can, and then tries to send exactly when it still may.
  lemma ResumesExactly(inputs: Inputs, prepared: bool, attempted: bool, sending: bool, deadline: U64)
    requires inputs.Enough()
    ensures var events := ResumeEvents(inputs, prepared, attempted, sending, deadline);
      var late := inputs.clock.Some? && inputs.clock.value >= deadline;
      var read := if inputs.readable then ReadyReadEvents(inputs, attempted, deadline) else [];
      && (!prepared ==>
            (Prepared in events <==> inputs.look.validity.Owned? && inputs.look.clock.Some? && inputs.look.clock.value < deadline && !inputs.connected.NoSocket?))
      && (prepared && late ==>
            events == if Drops(inputs.look) then [Abandoned] else if Late(inputs.look, deadline) then [Fixed(true)] else [])
      && (prepared && !late ==> read <= events && Prepared !in events)
      && (prepared && !late ==> (Tried in events <==> inputs.writable && Live(read) && sending && Passes(inputs.writeGate.first, deadline)))
  {
    hide ReadyReadEvents, WriteEvents, StartEvents, Passes;
    if !prepared {
      StartsExactly(inputs, sending, deadline);
    } else {
      ReadingSendsNothing(inputs, attempted, deadline);
      WritingTries(inputs.writeGate, inputs.tries, sending, deadline, inputs.eventsWork);
    }
  }

  lemma ReadingSendsNothing(inputs: Inputs, attempted: bool, deadline: U64)
    requires inputs.Enough()
    ensures Tried !in ReadyReadEvents(inputs, attempted, deadline) && Prepared !in ReadyReadEvents(inputs, attempted, deadline)
  {
    ReadFailsExactly(inputs.queries, inputs.errorClock, inputs.receives, attempted, deadline, inputs.eventsWork);
    GateExactly(inputs.readGate, deadline);
    hide ReadEvents, GateEvents, GateDrops, GateExpires, Asking, Hearing;
  }

  lemma WritingTries(gate: Gate, tries: seq<Attempt>, sending: bool, deadline: U64, eventsWork: bool)
    requires |tries| >= 8
    ensures var events := WriteEvents(gate, tries, sending, deadline, eventsWork);
      Prepared !in events && (Tried in events <==> sending && Passes(gate.first, deadline))
  {
    GateExactly(gate, deadline);
    WritesExactly(gate, tries, sending, deadline, eventsWork);
    SendsNoPreparation(tries, RETRIES, deadline, eventsWork);
    hide SendEvents, GateEvents, GateDrops, GateExpires;
  }

  // A round that ended takes no more notice of any signal; a live one that the watchdog drops
  // is given up, and the deadline's own look ends it, gives it up, or lets it go on.
  lemma SignalsExactly(signal: Signal, inputs: Inputs, trace: seq<Event>, deadline: U64)
    requires inputs.Enough()
    ensures var events := SignalEvents(signal, inputs, trace, deadline);
      && (Fixed(true) in trace || Fixed(false) in trace || Abandoned in trace ==> events == [])
      && (Live(trace) && signal.Dropped? ==> events == [Abandoned])
      && (Live(trace) && signal.Deadline? ==>
            events == if Drops(inputs.look) then [Abandoned] else if Late(inputs.look, deadline) then [Fixed(true)] else [])
      && (Live(trace) && signal.WriteReady? && Tried in events ==> Listening !in trace)
  {
    WritesExactly(inputs.writeGate, inputs.tries, Listening !in trace, deadline, inputs.eventsWork);
    hide ReadyReadEvents, ResumeEvents, WriteEvents, GateDrops, GateExpires;
  }

  lemma SendsNoPreparation(tries: seq<Attempt>, left: nat, deadline: U64, eventsWork: bool)
    requires left <= |tries|
    ensures Prepared !in SendEvents(tries, left, deadline, eventsWork)
  {
    SendsExactly(tries, left, deadline, eventsWork);
    var events, n := SendEvents(tries, left, deadline, eventsWork), Settling(tries, left, deadline);
    var tried := Min(n + 1, left);
    hide SendEvents, Settling, Unconfirmed, Excused, GateDrops, GateExpires;
    assert events == events[..tried] + events[tried..];
  }

  predicate AllEnough(signals: seq<(Signal, Inputs)>) { forall k :: 0 <= k < |signals| ==> signals[k].1.Enough() }

  lemma OneMoreSignal(deadline: U64, first: Inputs, signals: seq<(Signal, Inputs)>, k: nat)
    requires first.Enough() && AllEnough(signals) && k < |signals|
    ensures AllEnough(signals[..k]) && AllEnough(signals[..k + 1]) && signals[k].1.Enough()
    ensures var before := RoundEvents(deadline, first, signals[..k]);
      RoundEvents(deadline, first, signals[..k + 1]) == before + SignalEvents(signals[k].0, signals[k].1, before, deadline)
  {
    hide SignalEvents, StartEvents, Inputs.Enough;
    assert signals[..k + 1][..k] == signals[..k];
  }

  lemma NoSignals(deadline: U64, first: Inputs, signals: seq<(Signal, Inputs)>)
    requires first.Enough()
    ensures AllEnough(signals[..0]) && RoundEvents(deadline, first, signals[..0]) == StartEvents(first, true, deadline)
  {
    hide StartEvents, Inputs.Enough;
    assert signals[..0] == [];
  }

  // Every round, whatever the network, the kernel and the other processes do: its log is
  // determined by what it met, and shows at most one datagram, at most one verdict, and a
  // failure only for a refusal in time.
  method Run(deadline: U64, first: Inputs, signals: seq<(Signal, Inputs)>) returns (verdict: Option<bool>, trace: seq<Event>)
    requires first.Enough() && AllEnough(signals)
    ensures trace == RoundEvents(deadline, first, signals) && Safe(trace, deadline)
    ensures verdict.Some? ==> Fixed(verdict.value) in trace
  {
    hide Round.Valid, StartEvents, SignalEvents, RoundEvents, Safe, AllEnough, Inputs.Enough;
    var round := new Round(deadline);
    round.LogTells();
    round.Start(first);
    assert [] + StartEvents(first, true, deadline) == StartEvents(first, true, deadline);
    NoSignals(deadline, first, signals);
    var k := 0;
    while k < |signals|
      invariant k <= |signals| && AllEnough(signals[..k]) && round.Valid() && round.deadline == deadline
      invariant round.trace == RoundEvents(deadline, first, signals[..k])
    {
      OneMoreSignal(deadline, first, signals, k);
      round.Handle(signals[k].0, signals[k].1);
      k := k + 1;
    }
    assert signals[..k] == signals;
    round.Verdict();
    trace := round.trace;
    verdict := if round.pending then Some(round.success) else None;
  }

  // A failure implies a refusal strictly before the deadline and an earlier attempt to send.
  lemma FailureMeansRefusal(trace: seq<Event>, deadline: U64)
    requires Safe(trace, deadline) && Fixed(false) in trace
    ensures exists j, k :: 0 <= j < k < |trace| && trace[j] == Tried && trace[k].Refused? && trace[k].at < deadline
    ensures Fixed(true) !in trace
  {
    var f :| 0 <= f < |trace| && trace[f] == Fixed(false);
    assert FailureConfirmed(trace, deadline, f);
    var j :| 0 <= j < f - 1 && trace[j] == Tried;
    assert trace[j] == Tried && trace[f - 1].Refused?;
    if Fixed(true) in trace {
      Present(trace, Fixed(true));
      Present(trace, Fixed(false));
    }
  }

  lemma {:induction false} Present(trace: seq<Event>, e: Event)
    requires e in trace
    ensures Count(trace, e) > 0
  {
    var n := |trace| - 1;
    if trace[n] != e {
      assert e in trace[..n];
      Present(trace[..n], e);
    }
  }
}

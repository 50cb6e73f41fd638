/**
 * The flight alert writer of Lambda/write_abnormal_data_flight.py: for each
 * ticket departing soon, the flight's current status is compared with the
 * last alert recorded for the same (user, ticket number); an abnormal status
 * that is new, or an unchanged one whose departure moved by more than an hour,
 * is upserted into the `flight_alerts` table and enqueued as a message. The
 * flight API's answer for each ticket, the users table, ISO parsing and the
 * clock are inputs; the table is an `AlertTable` object updated in place.
 */
module FlightAlerts {
  import opened Wrappers

  /** The composite key of `flight_alerts`: (user_id, ticket_number). */
  datatype AlertKey = AlertKey(userId: int, ticketNumber: string)

  /** One `flight_alerts` row: the last status and departure alerted, and when. */
  datatype AlertRecord = AlertRecord(lastStatus: Option<string>, departTime: Option<int>, alertedAt: int)

  datatype TicketRow = TicketRow(ticketNumber: string, userId: int, departure: int)

  /** A JSON object member: absent, present as `null`, or present with a value. */
  datatype JsonField<T> = Missing | Null | Present(value: T)

  /** The `departure` object of a flight: `estimated` and `scheduled`, each possibly absent. */
  datatype Departure = Departure(estimated: Option<string>, scheduled: Option<string>)

  /** A flight object the API returns: `flight_status` and `departure`. */
  datatype Flight = Flight(status: JsonField<string>, departure: JsonField<Departure>)

  /**
   * A ticket with the API's first flight for it: `Missing` when `data` is
   * absent or empty, `Null` when its first element is `null`.
   */
  datatype Lookup = Lookup(ticket: TicketRow, flight: JsonField<Flight>)

  /**
   * What ends a run: calling a method on a `null` flight, status or
   * departure (`AttributeError`), or a time text `fromisoformat` rejects.
   */
  datatype Fault = NullFlight | NullStatus | NullDeparture | BadTime(text: string)

  datatype User = User(email: Option<string>, name: Option<string>)

  /** The queued payload for one alert. */
  datatype Message = Message(email: Option<string>, name: Option<string>, ticket: string, status: string, departTime: Option<int>)

  const AbnormalStatuses: set<string> := {"delayed", "cancelled", "diverted"}

  /** `str.lower` on ASCII letters. */
  function LowerChar(c: char): char {
    if 'A' <= c <= 'Z' then (c as int + 32) as char else c
  }

  function Lower(s: string): (r: string)
    ensures |r| == |s|
    ensures forall i :: 0 <= i < |s| ==> r[i] == LowerChar(s[i])
  {
    seq(|s|, i requires 0 <= i < |s| => LowerChar(s[i]))
  }

  /**
   * Because the status is lowered before the comparison, the API's capitalised
   * spellings of the abnormal statuses alert too.
   */
  lemma CapitalisedStatusesAlert()
    ensures Lower("DELAYED") == "delayed" && Lower("Delayed") == "delayed"
    ensures Lower("CANCELLED") == "cancelled" && Lower("Cancelled") == "cancelled"
    ensures Lower("DIVERTED") == "diverted" && Lower("Diverted") == "diverted"
    ensures Lower("Scheduled") !in AbnormalStatuses
  {
    assert Lower("DELAYED") == "delayed";
    assert Lower("Delayed") == "delayed";
    assert Lower("CANCELLED") == "cancelled";
    assert Lower("Cancelled") == "cancelled";
    assert Lower("DIVERTED") == "diverted";
    assert Lower("Diverted") == "diverted";
    assert Lower("Scheduled")[0] == 's';
  }

  /** `s` and `t` spell the same text in any mix of ASCII cases. */
  predicate SameUpToCase(s: string, t: string) {
    |s| == |t| && forall i :: 0 <= i < |s| ==> LowerChar(s[i]) == LowerChar(t[i])
  }

  /** The abnormal statuses are written in lower case. */
  lemma AbnormalAreLowercase(a: string)
    requires a in AbnormalStatuses
    ensures forall i :: 0 <= i < |a| ==> LowerChar(a[i]) == a[i]
  {
  }

  /** A status lowers to an abnormal status exactly when it spells that status up to case. */
  lemma LowerMatchesUpToCase(s: string, a: string)
    requires a in AbnormalStatuses
    ensures Lower(s) == a <==> SameUpToCase(s, a)
  {
    AbnormalAreLowercase(a);
    if SameUpToCase(s, a) {
      assert forall i :: 0 <= i < |s| ==> Lower(s)[i] == a[i];
    }
  }

  /**
   * `f.get('flight_status', '').lower()`: an absent status reads as the empty
   * text; a `null` one raises.
   */
  function StatusOf(f: Flight): (r: Result<string, Fault>)
    ensures r.Failure? <==> f.status.Null?
    ensures r.Failure? ==> r.error == NullStatus
    ensures f.status.Missing? ==> r == Success("")
    ensures f.status.Present? ==> r == Success(Lower(f.status.value))
  {
    match f.status
    case Missing => Success("")
    case Null => Failure(NullStatus)
    case Present(text) => Success(Lower(text))
  }

  /** `f.get('departure', {})`: an absent departure has no times; a `null` one raises at its first `get`. */
  function DepartureOf(f: Flight): (r: Result<Departure, Fault>)
    ensures r.Failure? <==> f.departure.Null?
    ensures r.Failure? ==> r.error == NullDeparture
    ensures f.departure.Missing? ==> r == Success(Departure(None, None))
    ensures f.departure.Present? ==> r == Success(f.departure.value)
  {
    match f.departure
    case Missing => Success(Departure(None, None))
    case Null => Failure(NullDeparture)
    case Present(d) => Success(d)
  }

  /** Python truthiness of an optional string: present and not empty. */
  predicate Truthy(s: Option<string>) {
    s.Some? && |s.value| > 0
  }

  /** `dep.get('estimated') or dep.get('scheduled')`. */
  function ChosenTime(d: Departure): Option<string> {
    if Truthy(d.estimated) then d.estimated else d.scheduled
  }

  /**
   * The chosen time text, parsed when truthy; a text `fromisoformat` rejects
   * is raised, carried by `Failure`.
   */
  function CurrentDeparture(d: Departure, parse: string -> Option<int>): (r: Result<Option<int>, Fault>)
    ensures Truthy(ChosenTime(d)) ==> (r.Failure? <==> parse(ChosenTime(d).value).None?)
    ensures Truthy(ChosenTime(d)) && r.Success? ==> r.value == parse(ChosenTime(d).value)
    ensures r.Failure? ==> Truthy(ChosenTime(d)) && r.error == BadTime(ChosenTime(d).value)
    ensures !Truthy(ChosenTime(d)) ==> r == Success(None)
    ensures Truthy(d.estimated) ==> ChosenTime(d) == d.estimated
    ensures !Truthy(d.estimated) ==> ChosenTime(d) == d.scheduled
  {
    var est := ChosenTime(d);
    if Truthy(est) then
      if parse(est.value).Some? then Success(parse(est.value)) else Failure(BadTime(est.value))
    else Success(None)
  }

  /**
   * The status and current departure of a flight, read in the order the
   * source reads them, so the first fault met is the one raised.
   */
  function Observe(f: Flight, parse: string -> Option<int>): (r: Result<(string, Option<int>), Fault>)
    ensures f.status.Null? ==> r == Failure(NullStatus)
    ensures !f.status.Null? && f.departure.Null? ==> r == Failure(NullDeparture)
    ensures r.Success? <==>
      && !f.status.Null? && !f.departure.Null?
      && CurrentDeparture(DepartureOf(f).value, parse).Success?
    ensures r.Success? ==> r.value.0 == StatusOf(f).value && r.value.1 == CurrentDeparture(DepartureOf(f).value, parse).value
  {
    match StatusOf(f)
    case Failure(e) => Failure(e)
    case Success(status) =>
      match DepartureOf(f)
      case Failure(e) => Failure(e)
      case Success(d) =>
        match CurrentDeparture(d, parse)
        case Failure(e) => Failure(e)
        case Success(curr) => Success((status, curr))
  }

  function KeyOf(item: Lookup): AlertKey {
    AlertKey(item.ticket.userId, item.ticket.ticketNumber)
  }

  /** `prior.get(key, {})`. */
  function PriorOf(prior: map<AlertKey, AlertRecord>, key: AlertKey): Option<AlertRecord> {
    if key in prior then Some(prior[key]) else None
  }

  function LastStatus(prev: Option<AlertRecord>): Option<string> {
    if prev.Some? then prev.value.lastStatus else None
  }

  function LastDeparture(prev: Option<AlertRecord>): Option<int> {
    if prev.Some? then prev.value.departTime else None
  }

  function Abs(x: int): nat {
    if x < 0 then -x else x
  }

  /**
   * The alert rule: an abnormal status alerts when it differs from the last
   * one alerted, or when both departures are known and moved by more than an hour.
   */
  predicate ShouldAlert(status: string, prev: Option<AlertRecord>, curr: Option<int>)
    ensures ShouldAlert(status, prev, curr) ==> status in AbnormalStatuses
    ensures status in AbnormalStatuses && LastStatus(prev) != Some(status) ==> ShouldAlert(status, prev, curr)
    ensures LastStatus(prev) == Some(status) && (LastDeparture(prev).None? || curr.None?) ==> !ShouldAlert(status, prev, curr)
    ensures LastStatus(prev) == Some(status) && status in AbnormalStatuses ==>
      (ShouldAlert(status, prev, curr) <==> LastDeparture(prev).Some? && curr.Some? && Abs(curr.value - LastDeparture(prev).value) > 3600)
  {
    && status in AbnormalStatuses
    && (|| LastStatus(prev) != Some(status)
        || (LastDeparture(prev).Some? && curr.Some? && Abs(curr.value - LastDeparture(prev).value) > 3600))
  }

  /** The `send` flag, set step by step as `handler` does. */
  method Decide(status: string, prev: Option<AlertRecord>, curr: Option<int>) returns (send: bool)
    ensures send == ShouldAlert(status, prev, curr)
    ensures send ==> status in AbnormalStatuses
    ensures status in AbnormalStatuses && LastStatus(prev) != Some(status) ==> send
    ensures status in AbnormalStatuses && LastStatus(prev) == Some(status) ==>
      (send <==> LastDeparture(prev).Some? && curr.Some? && Abs(curr.value - LastDeparture(prev).value) > 3600)
  {
    send := false;
    var prevStatus := LastStatus(prev);
    var prevDepart := LastDeparture(prev);
    if status == "delayed" || status == "cancelled" || status == "diverted" {
      if prevStatus != Some(status) {
        send := true;
      } else if prevDepart.Some? && curr.Some? {
        var delta := Abs(curr.value - prevDepart.value);
        if delta > 3600 {
          send := true;
        }
      }
    }
  }

  /** What a run has done so far: the table, the messages enqueued, and the fault that raised, if any. */
  datatype RunState = RunState(table: map<AlertKey, AlertRecord>, messages: seq<Message>, raised: Option<Fault>)

  /** `cur.fetchone() or {}`: a user that is not found has no email and no name. */
  function UserOf(users: map<int, User>, id: int): (user: User)
    ensures id in users ==> user == users[id]
    ensures id !in users ==> user.email.None? && user.name.None?
  {
    if id in users then users[id] else User(None, None)
  }

  /**
   * One ticket: skipped without data; otherwise the flight is read (which may
   * raise) and, if the rule says so against the snapshot `prior`, the key is
   * upserted and a message enqueued.
   */
  function Step(prior: map<AlertKey, AlertRecord>, st: RunState, item: Lookup, users: map<int, User>, parse: string -> Option<int>, now: int): (r: RunState)
    requires st.raised.None?
    ensures item.flight.Missing? ==> r == st
    ensures item.flight.Null? ==> r == st.(raised := Some(NullFlight))
    ensures item.flight.Present? && Observe(item.flight.value, parse).Failure? ==>
      r == st.(raised := Some(Observe(item.flight.value, parse).error))
    ensures r.messages == st.messages || (|r.messages| == |st.messages| + 1 && r.messages[..|st.messages|] == st.messages)
    ensures item.flight.Present? && Observe(item.flight.value, parse).Success? ==>
      var (status, curr) := Observe(item.flight.value, parse).value;
      var user := UserOf(users, item.ticket.userId);
      && r.raised.None?
      && (|r.messages| == |st.messages| + 1 <==> ShouldAlert(status, PriorOf(prior, KeyOf(item)), curr))
      && (ShouldAlert(status, PriorOf(prior, KeyOf(item)), curr) ==>
            && r.messages[|st.messages|] == Message(user.email, user.name, item.ticket.ticketNumber, status, curr)
            && r.table == st.table[KeyOf(item) := AlertRecord(Some(status), curr, now)])
      && (!ShouldAlert(status, PriorOf(prior, KeyOf(item)), curr) ==> r == st)
  {
    match item.flight
    case Missing => st
    case Null => st.(raised := Some(NullFlight))
    case Present(f) =>
      match Observe(f, parse)
      case Failure(fault) => st.(raised := Some(fault))
      case Success((status, curr)) =>
        var key := KeyOf(item);
        if ShouldAlert(status, PriorOf(prior, key), curr) then
          var user := UserOf(users, item.ticket.userId);
          RunState(
            st.table[key := AlertRecord(Some(status), curr, now)],
            st.messages + [Message(user.email, user.name, item.ticket.ticketNumber, status, curr)],
            None)
        else st
  }

  /**
   * A step that sends a message upserts its key with exactly the status and
   * departure the message carries, stamped `now`; a step that sends nothing
   * leaves the table as it was.
   */
  lemma StepRecordsAlert(prior: map<AlertKey, AlertRecord>, st: RunState, item: Lookup, users: map<int, User>, parse: string -> Option<int>, now: int)
    requires st.raised.None?
    ensures var r := Step(prior, st, item, users, parse, now);
      && (|r.messages| == |st.messages| + 1 ==>
            var m := r.messages[|st.messages|];
            && m.ticket == item.ticket.ticketNumber
            && r.table == st.table[KeyOf(item) := AlertRecord(Some(m.status), m.departTime, now)])
      && (|r.messages| == |st.messages| ==> r.table == st.table)
  {
  }

  /** A step writes at most the row of its own ticket's key. */
  lemma StepTouchesOnlyItsKey(prior: map<AlertKey, AlertRecord>, st: RunState, item: Lookup, users: map<int, User>, parse: string -> Option<int>, now: int, key: AlertKey)
    requires st.raised.None? && key != KeyOf(item)
    ensures key in Step(prior, st, item, users, parse, now).table <==> key in st.table
    ensures key in st.table ==> Step(prior, st, item, users, parse, now).table[key] == st.table[key]
  {
  }

  /** A step's decision reads the snapshot only at its own key, and never the table it writes. */
  lemma StepFollowsSnapshot(
    prior1: map<AlertKey, AlertRecord>, prior2: map<AlertKey, AlertRecord>, st1: RunState, st2: RunState,
    item: Lookup, users: map<int, User>, parse: string -> Option<int>, now: int)
    requires st1.raised.None? && st2.raised.None? && st1.messages == st2.messages
    requires PriorOf(prior1, KeyOf(item)) == PriorOf(prior2, KeyOf(item))
    ensures Step(prior1, st1, item, users, parse, now).messages == Step(prior2, st2, item, users, parse, now).messages
    ensures Step(prior1, st1, item, users, parse, now).raised == Step(prior2, st2, item, users, parse, now).raised
  {
  }

  /** The run over `items`, starting from `table`, comparing against the snapshot `prior`; it stops at the first raise. */
  function Replay(prior: map<AlertKey, AlertRecord>, table: map<AlertKey, AlertRecord>, items: seq<Lookup>, users: map<int, User>, parse: string -> Option<int>, now: int): (r: RunState)
    ensures |r.messages| <= |items|
    ensures table.Keys <= r.table.Keys
    decreases |items|
  {
    if |items| == 0 then RunState(table, [], None)
    else
      var st := Replay(prior, table, items[..|items| - 1], users, parse, now);
      if st.raised.Some? then st else Step(prior, st, items[|items| - 1], users, parse, now)
  }

  /** A key that no ticket of the run refers to keeps its row, or its absence. */
  lemma {:induction false} ReplayKeepsOtherKeys(
    prior: map<AlertKey, AlertRecord>, table: map<AlertKey, AlertRecord>, items: seq<Lookup>,
    users: map<int, User>, parse: string -> Option<int>, now: int, key: AlertKey)
    requires forall i :: 0 <= i < |items| ==> KeyOf(items[i]) != key
    ensures key in Replay(prior, table, items, users, parse, now).table <==> key in table
    ensures key in table ==> Replay(prior, table, items, users, parse, now).table[key] == table[key]
    decreases |items|
  {
    if |items| > 0 {
      var st := Replay(prior, table, items[..|items| - 1], users, parse, now);
      ReplayKeepsOtherKeys(prior, table, items[..|items| - 1], users, parse, now, key);
      if st.raised.None? {
        StepTouchesOnlyItsKey(prior, st, items[|items| - 1], users, parse, now, key);
      }
    }
  }

  /**
   * The decisions depend only on the snapshot, and only on its rows for the
   * run's own keys: two runs whose snapshots agree there send the same
   * messages and raise alike, whatever table they write into. So an upsert
   * earlier in the run never changes a later decision, and the same flight is
   * tracked separately for each user.
   */
  lemma {:induction false} DecisionsFollowSnapshot(
    prior1: map<AlertKey, AlertRecord>, prior2: map<AlertKey, AlertRecord>,
    table1: map<AlertKey, AlertRecord>, table2: map<AlertKey, AlertRecord>,
    items: seq<Lookup>, users: map<int, User>, parse: string -> Option<int>, now: int)
    requires forall i :: 0 <= i < |items| ==> PriorOf(prior1, KeyOf(items[i])) == PriorOf(prior2, KeyOf(items[i]))
    ensures Replay(prior1, table1, items, users, parse, now).messages == Replay(prior2, table2, items, users, parse, now).messages
    ensures Replay(prior1, table1, items, users, parse, now).raised == Replay(prior2, table2, items, users, parse, now).raised
    decreases |items|
  {
    if |items| > 0 {
      var init := items[..|items| - 1];
      DecisionsFollowSnapshot(prior1, prior2, table1, table2, init, users, parse, now);
      var st1 := Replay(prior1, table1, init, users, parse, now);
      var st2 := Replay(prior2, table2, init, users, parse, now);
      if st1.raised.None? {
        StepFollowsSnapshot(prior1, prior2, st1, st2, items[|items| - 1], users, parse, now);
      }
    }
  }

  /** Every message of a run carries an abnormal status. */
  lemma {:induction false} MessagesAreAbnormal(
    prior: map<AlertKey, AlertRecord>, table: map<AlertKey, AlertRecord>, items: seq<Lookup>,
    users: map<int, User>, parse: string -> Option<int>, now: int)
    ensures forall m :: m in Replay(prior, table, items, users, parse, now).messages ==> m.status in AbnormalStatuses
    decreases |items|
  {
    if |items| > 0 {
      MessagesAreAbnormal(prior, table, items[..|items| - 1], users, parse, now);
    }
  }

  /**
   * Because decisions read the snapshot, a ticket listed twice alerts twice:
   * the first upsert does not silence the second.
   */
  lemma SnapshotRepeatsAlert(prior: map<AlertKey, AlertRecord>, x: Lookup, users: map<int, User>, parse: string -> Option<int>, now: int)
    requires x.flight.Present? && Observe(x.flight.value, parse).Success?
    requires ShouldAlert(Observe(x.flight.value, parse).value.0, PriorOf(prior, KeyOf(x)), Observe(x.flight.value, parse).value.1)
    ensures |Replay(prior, prior, [x, x], users, parse, now).messages| == 2
  {
    assert [x, x][..1] == [x];
    assert [x][..0] == [];
    var st0 := Replay(prior, prior, [], users, parse, now);
    var st1 := Replay(prior, prior, [x], users, parse, now);
    assert st1 == Step(prior, st0, x, users, parse, now);
    assert |st1.messages| == 1 && st1.raised.None?;
    assert Replay(prior, prior, [x, x], users, parse, now) == Step(prior, st1, x, users, parse, now);
  }

  /** The `flight_alerts` table. */
  class AlertTable {
    var records: map<AlertKey, AlertRecord>

    constructor(rows: map<AlertKey, AlertRecord>)
      ensures records == rows
    {
      records := rows;
    }

    /** `INSERT ... ON DUPLICATE KEY UPDATE`: the key's row becomes the new status, departure and time; no other row changes. */
    method Upsert(key: AlertKey, status: string, departTime: Option<int>, now: int)
      modifies this
      ensures records == old(records)[key := AlertRecord(Some(status), departTime, now)]
    {
      records := records[key := AlertRecord(Some(status), departTime, now)];
    }
  }

  /**
   * `handler`'s loop: `prior` is read from the table once, then each ticket is
   * processed in order; a raise ends the run, keeping the rows already written.
   */
  method Handle(alerts: AlertTable, items: seq<Lookup>, users: map<int, User>, parse: string -> Option<int>, now: int)
    returns (messages: seq<Message>, raised: Option<Fault>)
    modifies alerts
    ensures RunState(alerts.records, messages, raised) == Replay(old(alerts.records), old(alerts.records), items, users, parse, now)
  {
    var prior := alerts.records;
    messages := [];
    raised := None;
    var i := 0;
    while i < |items|
      invariant 0 <= i <= |items|
      invariant RunState(alerts.records, messages, raised) == Replay(prior, prior, items[..i], users, parse, now)
      invariant raised.None?
    {
      var item := items[i];
      assert items[..i + 1][..i] == items[..i];
      if item.flight.Null? {
        raised := Some(NullFlight);
        ReplayStopsAtRaise(prior, items, i + 1, users, parse, now);
        return;
      }
      if item.flight.Present? {
        var f := item.flight.value;
        var status := StatusOf(f);
        if status.Failure? {
          raised := Some(status.error);
          ReplayStopsAtRaise(prior, items, i + 1, users, parse, now);
          return;
        }
        var dep := DepartureOf(f);
        if dep.Failure? {
          raised := Some(dep.error);
          ReplayStopsAtRaise(prior, items, i + 1, users, parse, now);
          return;
        }
        var curr := CurrentDeparture(dep.value, parse);
        if curr.Failure? {
          raised := Some(curr.error);
          ReplayStopsAtRaise(prior, items, i + 1, users, parse, now);
          return;
        }
        var key := KeyOf(item);
        var prev := PriorOf(prior, key);
        var send := Decide(status.value, prev, curr.value);
        if send {
          alerts.Upsert(key, status.value, curr.value, now);
          var user := UserOf(users, item.ticket.userId);
          messages := messages + [Message(user.email, user.name, item.ticket.ticketNumber, status.value, curr.value)];
        }
      }
      i := i + 1;
    }
    assert items[..i] == items;
  }

  /** Once a prefix of the run has raised, the whole run ends in that state. */
  lemma {:induction false} ReplayStopsAtRaise(
    prior: map<AlertKey, AlertRecord>, items: seq<Lookup>, i: nat,
    users: map<int, User>, parse: string -> Option<int>, now: int)
    requires i <= |items| && Replay(prior, prior, items[..i], users, parse, now).raised.Some?
    ensures Replay(prior, prior, items, users, parse, now) == Replay(prior, prior, items[..i], users, parse, now)
    decreases |items| - i
  {
    if i < |items| {
      assert items[..i + 1][..i] == items[..i];
      ReplayStopsAtRaise(prior, items, i + 1, users, parse, now);
    } else {
      assert items[..i] == items;
    }
  }
}

/**
 * The ticket listing of ticket-document-parsing/get-tickets.py: the user's
 * tickets are split at the current instant into past and future ones, past
 * ones are listed newest first and future ones oldest first (a stable sort),
 * and date-times are rendered as ISO text. Instants are whole numbers on one
 * time line; the clock (`now`), ISO parsing (`parse`) and ISO rendering
 * (`iso`) are parameters, and the two database queries are the map `users`
 * and the function `ticketsOf`.
 */
module Tickets {
  import opened Wrappers

  /** A date-time column: a date-time value, or text the database stored as is. */
  datatype Stamp = At(instant: int) | Text(text: string)

  datatype Ticket = Ticket(
    id: int,
    kind: string,
    number: string,
    departure: Stamp,
    arrival: Stamp,
    departureCity: string,
    arrivalCity: string,
    departureCode: string,
    arrivalCode: string,
    seats: string)

  /** A ticket paired with its departure instant, as in the `(dep, t)` tuples. */
  datatype Dated = Dated(dep: int, ticket: Ticket)

  /** The departure as an instant; text goes through `fromisoformat`, which may reject it. */
  function DepartureOf(t: Ticket, parse: string -> Option<int>): (r: Result<int, string>)
    ensures r.Failure? <==> t.departure.Text? && parse(t.departure.text).None?
    ensures r.Failure? ==> r.error == t.departure.text
    ensures t.departure.At? ==> r == Success(t.departure.instant)
  {
    match t.departure
    case At(x) => Success(x)
    case Text(s) => if parse(s).Some? then Success(parse(s).value) else Failure(s)
  }

  /** Every ticket with its departure, in order; the first text `fromisoformat` rejects is raised. */
  function Departures(tickets: seq<Ticket>, parse: string -> Option<int>): (r: Result<seq<Dated>, string>)
    ensures r.Success? ==> |r.value| == |tickets|
    decreases |tickets|
  {
    if |tickets| == 0 then Success([])
    else
      match Departures(tickets[..|tickets| - 1], parse)
      case Failure(bad) => Failure(bad)
      case Success(ds) =>
        match DepartureOf(tickets[|tickets| - 1], parse)
        case Failure(bad) => Failure(bad)
        case Success(x) => Success(ds + [Dated(x, tickets[|tickets| - 1])])
  }

  /** The listing succeeds exactly when every departure is a date-time or text that parses, and it keeps every ticket in place. */
  lemma {:induction false} DeparturesKeepTickets(tickets: seq<Ticket>, parse: string -> Option<int>)
    ensures Departures(tickets, parse).Success? <==> forall i :: 0 <= i < |tickets| ==> DepartureOf(tickets[i], parse).Success?
    ensures Departures(tickets, parse).Success? ==>
      forall i :: 0 <= i < |tickets| ==> Departures(tickets, parse).value[i] == Dated(DepartureOf(tickets[i], parse).value, tickets[i])
    decreases |tickets|
  {
    if |tickets| > 0 {
      var init := tickets[..|tickets| - 1];
      DeparturesKeepTickets(init, parse);
      assert forall i :: 0 <= i < |init| ==> tickets[i] == init[i];
    }
  }

  /** The tickets that departed strictly before `now`, in order. */
  function Past(ds: seq<Dated>, now: int): (r: seq<Dated>)
    ensures |r| <= |ds|
    ensures forall i :: 0 <= i < |r| ==> r[i].dep < now
    decreases |ds|
  {
    if |ds| == 0 then []
    else Past(ds[..|ds| - 1], now) + (if ds[|ds| - 1].dep < now then [ds[|ds| - 1]] else [])
  }

  /** The tickets departing at or after `now`, in order. */
  function Future(ds: seq<Dated>, now: int): (r: seq<Dated>)
    ensures |r| <= |ds|
    ensures forall i :: 0 <= i < |r| ==> r[i].dep >= now
    decreases |ds|
  {
    if |ds| == 0 then []
    else Future(ds[..|ds| - 1], now) + (if ds[|ds| - 1].dep < now then [] else [ds[|ds| - 1]])
  }

  /** Past and future split the tickets: together they are the whole input. */
  lemma {:induction false} SplitIsPartition(ds: seq<Dated>, now: int)
    ensures multiset(Past(ds, now)) + multiset(Future(ds, now)) == multiset(ds)
    decreases |ds|
  {
    if |ds| > 0 {
      var init := ds[..|ds| - 1];
      SplitIsPartition(init, now);
      assert ds == init + [ds[|ds| - 1]];
    }
  }

  /** A ticket is past exactly when it is listed and departed strictly before `now`. */
  lemma {:induction false} PastMembers(ds: seq<Dated>, now: int, d: Dated)
    ensures d in Past(ds, now) <==> d in ds && d.dep < now
    decreases |ds|
  {
    if |ds| > 0 {
      var init := ds[..|ds| - 1];
      PastMembers(init, now, d);
      assert ds == init + [ds[|ds| - 1]];
    }
  }

  /** A ticket is future exactly when it is listed and departs at or after `now`. */
  lemma {:induction false} FutureMembers(ds: seq<Dated>, now: int, d: Dated)
    ensures d in Future(ds, now) <==> d in ds && d.dep >= now
    decreases |ds|
  {
    if |ds| > 0 {
      var init := ds[..|ds| - 1];
      FutureMembers(init, now, d);
      assert ds == init + [ds[|ds| - 1]];
    }
  }

  /** `a` may stand before `b`: newest first puts later departures first, oldest first earlier ones. */
  predicate Precedes(a: int, b: int, newestFirst: bool) {
    if newestFirst then a >= b else a <= b
  }

  predicate SortedBy(ds: seq<Dated>, newestFirst: bool) {
    forall i, j :: 0 <= i < j < |ds| ==> Precedes(ds[i].dep, ds[j].dep, newestFirst)
  }

  /** Places `x` after every element it may not stand before, and after every tie. */
  function Insert(ds: seq<Dated>, x: Dated, newestFirst: bool): (r: seq<Dated>)
    ensures |r| == |ds| + 1 && x in r
    decreases |ds|
  {
    if |ds| == 0 then [x]
    else if Precedes(ds[|ds| - 1].dep, x.dep, newestFirst) then ds + [x]
    else Insert(ds[..|ds| - 1], x, newestFirst) + [ds[|ds| - 1]]
  }

  /** Inserting adds `x` and loses nothing. */
  lemma {:induction false} InsertPermutes(ds: seq<Dated>, x: Dated, newestFirst: bool)
    ensures multiset(Insert(ds, x, newestFirst)) == multiset(ds) + multiset{x}
    decreases |ds|
  {
    if |ds| > 0 && !Precedes(ds[|ds| - 1].dep, x.dep, newestFirst) {
      var init := ds[..|ds| - 1];
      InsertPermutes(init, x, newestFirst);
      assert ds == init + [ds[|ds| - 1]];
    }
  }

  /** Inserting into a sorted list keeps it sorted. */
  lemma {:induction false} InsertSorted(ds: seq<Dated>, x: Dated, newestFirst: bool)
    requires SortedBy(ds, newestFirst)
    ensures SortedBy(Insert(ds, x, newestFirst), newestFirst)
    decreases |ds|
  {
    if |ds| > 0 && !Precedes(ds[|ds| - 1].dep, x.dep, newestFirst) {
      var init := ds[..|ds| - 1];
      var last := ds[|ds| - 1];
      InsertSorted(init, x, newestFirst);
      InsertPermutes(init, x, newestFirst);
      var r := Insert(init, x, newestFirst);
      forall d | d in r
        ensures Precedes(d.dep, last.dep, newestFirst)
      {
        assert d in multiset(init) + multiset{x};
      }
    }
  }

  /** Python's stable `sorted` by departure, as insertion sort. */
  function Sort(ds: seq<Dated>, newestFirst: bool): (r: seq<Dated>)
    ensures |r| == |ds|
    decreases |ds|
  {
    if |ds| == 0 then []
    else Insert(Sort(ds[..|ds| - 1], newestFirst), ds[|ds| - 1], newestFirst)
  }

  /** Sorting is a permutation. */
  lemma {:induction false} SortPermutes(ds: seq<Dated>, newestFirst: bool)
    ensures multiset(Sort(ds, newestFirst)) == multiset(ds)
    decreases |ds|
  {
    if |ds| > 0 {
      var init := ds[..|ds| - 1];
      SortPermutes(init, newestFirst);
      InsertPermutes(Sort(init, newestFirst), ds[|ds| - 1], newestFirst);
      assert ds == init + [ds[|ds| - 1]];
    }
  }

  /** Sorting orders by departure in the chosen direction. */
  lemma {:induction false} SortSorted(ds: seq<Dated>, newestFirst: bool)
    ensures SortedBy(Sort(ds, newestFirst), newestFirst)
    decreases |ds|
  {
    if |ds| > 0 {
      SortSorted(ds[..|ds| - 1], newestFirst);
      InsertSorted(Sort(ds[..|ds| - 1], newestFirst), ds[|ds| - 1], newestFirst);
    }
  }

  /** The tickets departing at instant `k`, in order. */
  function DepartingAt(ds: seq<Dated>, k: int): seq<Dated>
    decreases |ds|
  {
    if |ds| == 0 then []
    else DepartingAt(ds[..|ds| - 1], k) + (if ds[|ds| - 1].dep == k then [ds[|ds| - 1]] else [])
  }

  lemma {:induction false} DepartingAtAppend(a: seq<Dated>, b: seq<Dated>, k: int)
    ensures DepartingAt(a + b, k) == DepartingAt(a, k) + DepartingAt(b, k)
    decreases |b|
  {
    if |b| > 0 {
      var init := b[..|b| - 1];
      assert (a + b)[..|a + b| - 1] == a + init;
      DepartingAtAppend(a, init, k);
    } else {
      assert a + b == a;
    }
  }

  /** Inserting keeps every departure instant's tickets in order, with `x` last among its ties. */
  lemma {:induction false} InsertIsStable(ds: seq<Dated>, x: Dated, newestFirst: bool, k: int)
    ensures DepartingAt(Insert(ds, x, newestFirst), k) == DepartingAt(ds, k) + DepartingAt([x], k)
    decreases |ds|
  {
    if |ds| > 0 {
      var last := ds[|ds| - 1];
      var init := ds[..|ds| - 1];
      assert ds == init + [last];
      if Precedes(last.dep, x.dep, newestFirst) {
        DepartingAtAppend(ds, [x], k);
      } else {
        InsertIsStable(init, x, newestFirst, k);
        DepartingAtAppend(Insert(init, x, newestFirst), [last], k);
        DepartingAtAppend(init, [last], k);
      }
    }
  }

  /** The sort is stable: for every instant, the tickets departing then keep their input order. */
  lemma {:induction false} SortIsStable(ds: seq<Dated>, newestFirst: bool, k: int)
    ensures DepartingAt(Sort(ds, newestFirst), k) == DepartingAt(ds, k)
    decreases |ds|
  {
    if |ds| > 0 {
      var init := ds[..|ds| - 1];
      var last := ds[|ds| - 1];
      SortIsStable(init, newestFirst, k);
      InsertIsStable(Sort(init, newestFirst), last, newestFirst, k);
      assert ds == init + [last];
      DepartingAtAppend(init, [last], k);
    }
  }

  /** A date-time as `serialize` leaves it: date-times become ISO text, text stays as it is. */
  function Rendered(s: Stamp, iso: int -> string): (r: Stamp)
    ensures r.Text?
    ensures s.Text? ==> r == s
  {
    match s
    case At(x) => Text(iso(x))
    case Text(_) => s
  }

  /** `serialize`: a copy of the ticket with its two date-times rendered and every other field unchanged. */
  function Serialize(t: Ticket, iso: int -> string): (r: Ticket)
    ensures r.departure == Rendered(t.departure, iso) && r.arrival == Rendered(t.arrival, iso)
    ensures r.(departure := t.departure, arrival := t.arrival) == t
  {
    t.(departure := Rendered(t.departure, iso), arrival := Rendered(t.arrival, iso))
  }

  /** `[serialize(t) for _, t in ds]`. */
  function SerializeAll(ds: seq<Dated>, iso: int -> string): (r: seq<Ticket>)
    ensures |r| == |ds|
    ensures forall i :: 0 <= i < |ds| ==> r[i] == Serialize(ds[i].ticket, iso)
  {
    seq(|ds|, i requires 0 <= i < |ds| => Serialize(ds[i].ticket, iso))
  }

  datatype Body = ErrorBody(error: string) | Listing(fields: map<string, seq<Ticket>>)

  datatype Response = Response(statusCode: int, body: Body)

  const MissingEmail: string := "Missing required query parameter: user_email"

  /** The response body of a successful listing: the keys `past` and `future` and nothing else. */
  function ListingBody(ds: seq<Dated>, now: int, iso: int -> string): (b: Body)
    ensures b.Listing? && b.fields.Keys == {"past", "future"}
    ensures b.fields["past"] == SerializeAll(Sort(Past(ds, now), true), iso)
    ensures b.fields["future"] == SerializeAll(Sort(Future(ds, now), false), iso)
  {
    Listing(map["past" := SerializeAll(Sort(Past(ds, now), true), iso), "future" := SerializeAll(Sort(Future(ds, now), false), iso)])
  }

  /**
   * What `lambda_handler` answers: 400 without a (non-empty) email, 404 for
   * an unknown email, else the listing; a departure text that does not parse
   * raises, which the result's `Failure` carries.
   */
  function TicketsResponse(
    email: Option<string>,
    users: map<string, int>,
    ticketsOf: int -> seq<Ticket>,
    now: int,
    parse: string -> Option<int>,
    iso: int -> string): (r: Result<Response, string>)
    ensures r.Success? ==> r.value.statusCode == 200 || r.value.statusCode == 400 || r.value.statusCode == 404
    ensures r.Success? ==> (r.value.statusCode == 200 <==> r.value.body.Listing?)
    ensures r.Success? && r.value.statusCode == 200 ==>
      && email.Some? && email.value in users
      && Departures(ticketsOf(users[email.value]), parse).Success?
      && r.value.body == ListingBody(Departures(ticketsOf(users[email.value]), parse).value, now, iso)
  {
    if email.None? || |email.value| == 0 then Success(Response(400, ErrorBody(MissingEmail)))
    else if email.value !in users then Success(Response(404, ErrorBody("No user with email " + email.value)))
    else
      match Departures(ticketsOf(users[email.value]), parse)
      case Failure(bad) => Failure(bad)
      case Success(ds) => Success(Response(200, ListingBody(ds, now, iso)))
  }

  /** The status code says which check failed: 400 for the missing email, 404 for an unknown user, 200 otherwise. */
  lemma ResponseStatus(
    email: Option<string>, users: map<string, int>, ticketsOf: int -> seq<Ticket>,
    now: int, parse: string -> Option<int>, iso: int -> string)
    ensures var r := TicketsResponse(email, users, ticketsOf, now, parse, iso);
      && (r.Success? && r.value.statusCode == 400 <==> email.None? || email.value == "")
      && (r.Success? && r.value.statusCode == 404 <==> email.Some? && email.value != "" && email.value !in users)
      && (r.Failure? <==> email.Some? && email.value != "" && email.value in users &&
                          exists i :: 0 <= i < |ticketsOf(users[email.value])| &&
                                      DepartureOf(ticketsOf(users[email.value])[i], parse).Failure?)
  {
    if email.Some? && email.value != "" && email.value in users {
      DeparturesKeepTickets(ticketsOf(users[email.value]), parse);
    }
  }

  /**
   * A successful listing holds every ticket once: the past list is the
   * tickets that departed before `now`, newest first; the future list the
   * others, oldest first.
   */
  lemma ListingHoldsEveryTicket(ds: seq<Dated>, now: int)
    ensures multiset(Sort(Past(ds, now), true)) + multiset(Sort(Future(ds, now), false)) == multiset(ds)
    ensures SortedBy(Sort(Past(ds, now), true), true) && SortedBy(Sort(Future(ds, now), false), false)
  {
    SplitIsPartition(ds, now);
    SortPermutes(Past(ds, now), true);
    SortPermutes(Future(ds, now), false);
    SortSorted(Past(ds, now), true);
    SortSorted(Future(ds, now), false);
  }

  /** A ticket is listed as past exactly when it departed before `now`, and as future exactly when it did not. */
  lemma ListingSides(ds: seq<Dated>, now: int, d: Dated)
    ensures d in Sort(Past(ds, now), true) <==> d in ds && d.dep < now
    ensures d in Sort(Future(ds, now), false) <==> d in ds && d.dep >= now
  {
    SortPermutes(Past(ds, now), true);
    SortPermutes(Future(ds, now), false);
    assert d in Sort(Past(ds, now), true) <==> d in multiset(Sort(Past(ds, now), true));
    assert d in Sort(Future(ds, now), false) <==> d in multiset(Sort(Future(ds, now), false));
    PastMembers(ds, now, d);
    FutureMembers(ds, now, d);
  }

  /** Tickets with the same departure keep their stored order on either side. */
  lemma ListingKeepsTies(ds: seq<Dated>, now: int, k: int)
    ensures DepartingAt(Sort(Past(ds, now), true), k) == DepartingAt(Past(ds, now), k)
    ensures DepartingAt(Sort(Future(ds, now), false), k) == DepartingAt(Future(ds, now), k)
  {
    SortIsStable(Past(ds, now), true, k);
    SortIsStable(Future(ds, now), false, k);
  }

  /** One more dated ticket lands on exactly one side of the split. */
  lemma SplitNext(ds: seq<Dated>, d: Dated, now: int)
    ensures Past(ds + [d], now) == Past(ds, now) + (if d.dep < now then [d] else [])
    ensures Future(ds + [d], now) == Future(ds, now) + (if d.dep < now then [] else [d])
  {
    assert (ds + [d])[..|ds|] == ds;
  }

  /** One more ticket: its departure either extends the parsed prefix or is the first failure. */
  lemma DeparturesNext(tickets: seq<Ticket>, i: nat, parse: string -> Option<int>)
    requires i < |tickets| && Departures(tickets[..i], parse).Success?
    ensures var next := DepartureOf(tickets[i], parse);
      Departures(tickets[..i + 1], parse)
        == if next.Failure? then Failure(next.error)
           else Success(Departures(tickets[..i], parse).value + [Dated(next.value, tickets[i])])
  {
    assert tickets[..i + 1][..i] == tickets[..i];
  }

  /** The split loop: each ticket goes to `past` or `future` with its departure; a text that does not parse raises. */
  method SplitTickets(tickets: seq<Ticket>, now: int, parse: string -> Option<int>)
    returns (result: Result<(seq<Dated>, seq<Dated>), string>)
    ensures Departures(tickets, parse).Failure? <==> result.Failure?
    ensures result.Failure? ==> result.error == Departures(tickets, parse).error
    ensures result.Success? ==>
      result.value == (Past(Departures(tickets, parse).value, now), Future(Departures(tickets, parse).value, now))
  {
    var past: seq<Dated> := [];
    var future: seq<Dated> := [];
    ghost var ds: seq<Dated> := [];
    var i := 0;
    while i < |tickets|
      invariant 0 <= i <= |tickets|
      invariant Departures(tickets[..i], parse) == Success(ds)
      invariant past == Past(ds, now) && future == Future(ds, now)
    {
      var t := tickets[i];
      DeparturesNext(tickets, i, parse);
      var dep: int;
      match t.departure {
        case At(x) =>
          dep := x;
        case Text(s) =>
          var parsed := parse(s);
          if parsed.None? {
            DeparturesFailureKept(tickets, i + 1, parse);
            return Failure(s);
          }
          dep := parsed.value;
      }
      SplitNext(ds, Dated(dep, t), now);
      if dep < now {
        past := past + [Dated(dep, t)];
      } else {
        future := future + [Dated(dep, t)];
      }
      ds := ds + [Dated(dep, t)];
      i := i + 1;
    }
    assert tickets[..i] == tickets;
    result := Success((past, future));
  }

  /** Once a prefix fails, the whole listing fails with the same text. */
  lemma {:induction false} DeparturesFailureKept(tickets: seq<Ticket>, i: nat, parse: string -> Option<int>)
    requires i <= |tickets| && Departures(tickets[..i], parse).Failure?
    ensures Departures(tickets, parse) == Departures(tickets[..i], parse)
    decreases |tickets| - i
  {
    if i < |tickets| {
      assert tickets[..i + 1][..i] == tickets[..i];
      DeparturesFailureKept(tickets, i + 1, parse);
    } else {
      assert tickets[..i] == tickets;
    }
  }

  /** `lambda_handler`: the checks, the split loop, the two sorts and `serialize`. */
  method ListTickets(
    email: Option<string>,
    users: map<string, int>,
    ticketsOf: int -> seq<Ticket>,
    now: int,
    parse: string -> Option<int>,
    iso: int -> string) returns (response: Result<Response, string>)
    ensures response == TicketsResponse(email, users, ticketsOf, now, parse, iso)
  {
    if email.None? || |email.value| == 0 {
      return Success(Response(400, ErrorBody(MissingEmail)));
    }
    if email.value !in users {
      return Success(Response(404, ErrorBody("No user with email " + email.value)));
    }
    var tickets := ticketsOf(users[email.value]);
    var split := SplitTickets(tickets, now, parse);
    if split.Failure? {
      return Failure(split.error);
    }
    var (past, future) := split.value;
    var pastSorted := Sort(past, true);
    var futureSorted := Sort(future, false);
    response := Success(Response(200, Listing(map["past" := SerializeAll(pastSorted, iso), "future" := SerializeAll(futureSorted, iso)])));
  }
}

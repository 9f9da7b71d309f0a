/**
 * The persistence store: one keyed collection per entity, demo seeding on
 * first start, keyed inserts, lookup of an attendee by e-mail, ticket
 * upgrades and the daily sales report. Writing the collections to disk is
 * not modelled; every operation's effect is on the in-memory collections.
 */
module Storage {
  import opened Wrappers
  import opened Dicts
  import opened Models
  import opened Seqs

  /* ---------- every record is stored under its own id ---------- */

  ghost predicate AttendeesKeyed(d: Dict<Id, Attendee>)
  {
    d.Valid() && forall k :: k in d.entries ==> d.entries[k].userId == k
  }

  ghost predicate WorkshopsKeyed(m: map<Id, Workshop>)
  {
    forall k :: k in m ==> m[k].wsId == k
  }

  ghost predicate TicketsKeyed(m: map<Id, Ticket>)
  {
    forall k :: k in m ==> m[k].ticketId == k
  }

  ghost predicate PaymentsKeyed(d: Dict<Id, Payment>)
  {
    d.Valid() && forall k :: k in d.entries ==> d.entries[k].payId == k
  }

  ghost predicate ReservationsKeyed(m: map<Id, Reservation>)
  {
    forall k :: k in m ==> m[k].resId == k
  }

  ghost predicate ExhibitionsKeyed(m: map<Id, Exhibition>)
  {
    forall k :: k in m ==> m[k].exId == k
  }

  /** The six collections of a store, as one value. */
  datatype Collections = Collections(
    attendees: Dict<Id, Attendee>,
    workshops: map<Id, Workshop>,
    tickets: map<Id, Ticket>,
    payments: Dict<Id, Payment>,
    reservations: map<Id, Reservation>,
    exhibitions: map<Id, Exhibition>)

  /* ---------- demo data ---------- */

  function Digit(n: nat): char
    requires n <= 9
  {
    ('0' as int + n) as char
  }

  /** "EX1", "EX2", "EX3" */
  function ExId(i: nat): Id
    requires 1 <= i <= 3
  {
    "EX" + [Digit(i)]
  }

  /** "WS11" ... "WS33" */
  function WsId(i: nat, j: nat): Id
    requires 1 <= i <= 3 && 1 <= j <= 3
  {
    "WS" + [Digit(i), Digit(j)]
  }

  function ExTitle(i: nat): string
    requires 1 <= i <= 3
  {
    if i == 1 then "ClimateTech" else if i == 2 then "Policy" else "Community"
  }

  /** Workshop `j` of exhibition `i`, with capacity 10 + 5j. */
  function SeedWorkshop(i: nat, j: nat): Workshop
    requires 1 <= i <= 3 && 1 <= j <= 3
  {
    NewWorkshop(WsId(i, j), ExTitle(i) + " Workshop " + [Digit(j)], ExId(i), 10 + 5 * j)
  }

  /** Exhibition `i`, listing its three workshops in order. */
  function SeedExhibition(i: nat): Exhibition
    requires 1 <= i <= 3
  {
    Exhibition(ExId(i), ExTitle(i), [WsId(i, 1), WsId(i, 2), WsId(i, 3)])
  }

  ghost predicate IsSeedWsId(k: Id)
  {
    exists i: nat, j: nat :: 1 <= i <= 3 && 1 <= j <= 3 && k == WsId(i, j)
  }

  ghost predicate IsSeedExId(k: Id)
  {
    exists i: nat :: 1 <= i <= 3 && k == ExId(i)
  }

  lemma DigitInjective(a: nat, b: nat)
    requires a <= 9 && b <= 9 && Digit(a) == Digit(b)
    ensures a == b
  {
    assert Digit(a) as int == '0' as int + a;
    assert Digit(b) as int == '0' as int + b;
  }

  /** Distinct positions give distinct workshop ids. */
  lemma WsIdInjective(i: nat, j: nat, i': nat, j': nat)
    requires 1 <= i <= 3 && 1 <= j <= 3 && 1 <= i' <= 3 && 1 <= j' <= 3
    requires WsId(i, j) == WsId(i', j')
    ensures i == i' && j == j'
  {
    assert WsId(i, j)[2] == Digit(i) && WsId(i', j')[2] == Digit(i');
    assert WsId(i, j)[3] == Digit(j) && WsId(i', j')[3] == Digit(j');
    DigitInjective(i, i');
    DigitInjective(j, j');
  }

  lemma ExIdInjective(i: nat, i': nat)
    requires 1 <= i <= 3 && 1 <= i' <= 3
    requires ExId(i) == ExId(i')
    ensures i == i'
  {
    assert ExId(i)[2] == Digit(i) && ExId(i')[2] == Digit(i');
    DigitInjective(i, i');
  }

  /* ---------- daily sales ---------- */

  /** Sum of the amounts of the payments listed in `ks` that fall on date `d`. */
  ghost function SalesOn(ks: seq<Id>, ps: map<Id, Payment>, d: Date): int
    requires forall k :: k in ks ==> k in ps
  {
    if ks == [] then 0
    else
      var last := ps[ks[|ks| - 1]];
      SalesOn(ks[..|ks| - 1], ps, d) + (if last.timestamp.date == d then last.amount else 0)
  }

  /** The dates of the payments listed in `ks`. */
  ghost function DatesOf(ks: seq<Id>, ps: map<Id, Payment>): set<Date>
    requires forall k :: k in ks ==> k in ps
  {
    if ks == [] then {} else DatesOf(ks[..|ks| - 1], ps) + {ps[ks[|ks| - 1]].timestamp.date}
  }

  lemma {:induction false} DatesOfMember(ks: seq<Id>, ps: map<Id, Payment>, x: Date)
    requires forall k :: k in ks ==> k in ps
    ensures x in DatesOf(ks, ps) <==> exists k :: k in ks && ps[k].timestamp.date == x
  {
    if ks != [] {
      var init := ks[..|ks| - 1];
      DatesOfMember(init, ps, x);
      assert ks == init + [ks[|ks| - 1]];
    }
  }

  /** Sum of the amounts of all payments listed in `ks`. */
  ghost function TotalAmount(ks: seq<Id>, ps: map<Id, Payment>): int
    requires forall k :: k in ks ==> k in ps
  {
    if ks == [] then 0 else TotalAmount(ks[..|ks| - 1], ps) + ps[ks[|ks| - 1]].amount
  }

  /** Sum, over the dates `ds`, of each date's sales. */
  ghost function SumSales(ds: seq<Date>, ks: seq<Id>, ps: map<Id, Payment>): int
    requires forall k :: k in ks ==> k in ps
  {
    if ds == [] then 0 else SalesOn(ks, ps, ds[0]) + SumSales(ds[1..], ks, ps)
  }

  /** Sum of the values a map gives the dates `ds`. */
  ghost function SumValues(ds: seq<Date>, m: map<Date, int>): int
    requires forall d :: d in ds ==> d in m
  {
    if ds == [] then 0 else m[ds[0]] + SumValues(ds[1..], m)
  }

  /** Appending one payment adds its amount to exactly one date, if that date is listed once. */
  lemma {:induction false} SumSalesSnoc(ds: seq<Date>, ks: seq<Id>, ps: map<Id, Payment>)
    requires forall k :: k in ks ==> k in ps
    requires |ks| > 0 && NoDuplicates(ds)
    ensures var last := ps[ks[|ks| - 1]];
            SumSales(ds, ks, ps)
            == SumSales(ds, ks[..|ks| - 1], ps) + (if last.timestamp.date in ds then last.amount else 0)
  {
    if ds != [] {
      var last := ps[ks[|ks| - 1]];
      assert NoDuplicates(ds[1..]) by {
        forall i, j | 0 <= i < j < |ds[1..]| ensures ds[1..][i] != ds[1..][j] {
          assert ds[1..][i] == ds[i + 1] && ds[1..][j] == ds[j + 1];
        }
      }
      SumSalesSnoc(ds[1..], ks, ps);
      assert last.timestamp.date in ds <==> last.timestamp.date == ds[0] || last.timestamp.date in ds[1..] by {
        assert ds == [ds[0]] + ds[1..];
      }
      if last.timestamp.date == ds[0] {
        assert last.timestamp.date !in ds[1..] by {
          forall i | 0 <= i < |ds[1..]| ensures ds[1..][i] != ds[0] {
            assert ds[1..][i] == ds[i + 1];
          }
        }
      }
    }
  }

  /**
   * Per-date sales add up to the total of all payments, when the dates are
   * listed once each and every payment's date is among them.
   */
  lemma {:induction false} SalesAddUpToTotal(ds: seq<Date>, ks: seq<Id>, ps: map<Id, Payment>)
    requires forall k :: k in ks ==> k in ps
    requires NoDuplicates(ds)
    requires forall k :: k in ks ==> ps[k].timestamp.date in ds
    ensures SumSales(ds, ks, ps) == TotalAmount(ks, ps)
  {
    if ks == [] {
      SumSalesOfNone(ds, ps);
    } else {
      SalesAddUpToTotal(ds, ks[..|ks| - 1], ps);
      SumSalesSnoc(ds, ks, ps);
    }
  }

  lemma {:induction false} SumSalesOfNone(ds: seq<Date>, ps: map<Id, Payment>)
    ensures SumSales(ds, [], ps) == 0
  {
    if ds != [] {
      SumSalesOfNone(ds[1..], ps);
    }
  }

  /** A map whose value at each date is that date's sales sums, over its dates, to that of SumSales. */
  lemma {:induction false} SumValuesIsSumSales(ds: seq<Date>, m: map<Date, int>, ks: seq<Id>, ps: map<Id, Payment>)
    requires forall k :: k in ks ==> k in ps
    requires forall d :: d in ds ==> d in m && m[d] == SalesOn(ks, ps, d)
    ensures SumValues(ds, m) == SumSales(ds, ks, ps)
  {
    if ds != [] {
      SumValuesIsSumSales(ds[1..], m, ks, ps);
    }
  }

  /** No workshop holds more seats than its capacity. */
  ghost predicate SeatsWithinCapacity(w: map<Id, Workshop>)
  {
    forall k :: k in w ==> |w[k].attendeeIds| <= w[k].capacity
  }

  /** The demo workshops start empty, so they are within capacity. */
  lemma DemoDataWithinCapacity(w: map<Id, Workshop>, e: map<Id, Exhibition>)
    requires IsDemoData(w, e)
    ensures SeatsWithinCapacity(w)
  {
    forall k | k in w ensures |w[k].attendeeIds| <= w[k].capacity {
      var i: nat, j: nat :| 1 <= i <= 3 && 1 <= j <= 3 && k == WsId(i, j);
    }
  }

  /** The workshops of every position before (i, j), row by row, are seeded; nothing else is stored. */
  ghost predicate WorkshopsSeededBefore(w: map<Id, Workshop>, i: nat, j: nat)
  {
    && WorkshopsKeyed(w)
    && (forall k :: k in w ==> exists i': nat, j': nat ::
          1 <= i' <= 3 && 1 <= j' <= 3 && (i' < i || (i' == i && j' < j)) && k == WsId(i', j'))
    && (forall i': nat, j': nat :: 1 <= i' <= 3 && 1 <= j' <= 3 && (i' < i || (i' == i && j' < j)) ==>
          WsId(i', j') in w && w[WsId(i', j')] == SeedWorkshop(i', j'))
  }

  /** The exhibitions before `i` are seeded with all their workshops; nothing else is stored. */
  ghost predicate ExhibitionsSeededBefore(e: map<Id, Exhibition>, i: nat)
  {
    && ExhibitionsKeyed(e)
    && (forall k :: k in e ==> exists i': nat :: 1 <= i' < i && i' <= 3 && k == ExId(i'))
    && (forall i': nat :: 1 <= i' < i && i' <= 3 ==> ExId(i') in e && e[ExId(i')] == SeedExhibition(i'))
  }

  /** The exhibitions before `i` are seeded, and exhibition `i` is stored and lists its workshops before `j`; nothing else is stored. */
  ghost predicate ExhibitionRowSeeded(e: map<Id, Exhibition>, i: nat, j: nat)
    requires 1 <= i <= 3 && 1 <= j <= 4
  {
    && ExhibitionsSeededBefore(e - {ExId(i)}, i)
    && ExId(i) in e
    && e[ExId(i)].exId == ExId(i)
    && e[ExId(i)] == SeedExhibition(i).(workshops := SeedExhibition(i).workshops[..j - 1])
  }

  lemma SeedWorkshopStep(w: map<Id, Workshop>, i: nat, j: nat)
    requires 1 <= i <= 3 && 1 <= j <= 3 && WorkshopsSeededBefore(w, i, j)
    ensures WorkshopsSeededBefore(w[WsId(i, j) := SeedWorkshop(i, j)], i, j + 1)
  {
    var w' := w[WsId(i, j) := SeedWorkshop(i, j)];
    forall i': nat, j': nat | 1 <= i' <= 3 && 1 <= j' <= 3 && (i' < i || (i' == i && j' <= j))
      ensures WsId(i', j') in w' && w'[WsId(i', j')] == SeedWorkshop(i', j')
    {
      if WsId(i', j') == WsId(i, j) {
        WsIdInjective(i', j', i, j);
      }
    }
    assert IsSeedWsId(WsId(i, j));
  }

  lemma SeedExhibitionStart(e: map<Id, Exhibition>, i: nat)
    requires 1 <= i <= 3 && ExhibitionsSeededBefore(e, i)
    ensures ExhibitionRowSeeded(e[ExId(i) := NewExhibition(ExId(i), ExTitle(i))], i, 1)
  {
    var e' := e[ExId(i) := NewExhibition(ExId(i), ExTitle(i))];
    forall i': nat | 1 <= i' < i ensures ExId(i') in e' && e'[ExId(i')] == SeedExhibition(i') {
      if ExId(i') == ExId(i) { ExIdInjective(i', i); }
    }
    assert IsSeedExId(ExId(i));
  }

  lemma SeedExhibitionStep(e: map<Id, Exhibition>, i: nat, j: nat)
    requires 1 <= i <= 3 && 1 <= j <= 3 && ExhibitionRowSeeded(e, i, j)
    ensures var ex := e[ExId(i)];
            ExhibitionRowSeeded(e[ExId(i) := ex.(workshops := ex.workshops + [WsId(i, j)])], i, j + 1)
  {
    var ex := e[ExId(i)];
    var e' := e[ExId(i) := ex.(workshops := ex.workshops + [WsId(i, j)])];
    assert SeedExhibition(i).workshops[..j] == SeedExhibition(i).workshops[..j - 1] + [WsId(i, j)];
    forall i': nat | 1 <= i' < i ensures ExId(i') in e' && e'[ExId(i')] == SeedExhibition(i') {
      if ExId(i') == ExId(i) { ExIdInjective(i', i); }
    }
    assert e' - {ExId(i)} == e - {ExId(i)};
  }

  lemma SeedExhibitionEnd(e: map<Id, Exhibition>, i: nat)
    requires 1 <= i <= 3 && ExhibitionRowSeeded(e, i, 4)
    ensures ExhibitionsSeededBefore(e, i + 1)
  {
    assert SeedExhibition(i).workshops[..3] == SeedExhibition(i).workshops;
    forall k | k in e ensures e[k].exId == k && exists i': nat :: 1 <= i' < i + 1 && i' <= 3 && k == ExId(i') {
      if k != ExId(i) { assert k in e - {ExId(i)}; }
    }
  }

  lemma SeedRowEnd(w: map<Id, Workshop>, i: nat)
    requires 1 <= i <= 3 && WorkshopsSeededBefore(w, i, 4)
    ensures WorkshopsSeededBefore(w, i + 1, 1)
  {
  }

  /** The workshops and exhibitions are exactly the three-by-three demo data. */
  ghost predicate IsDemoData(w: map<Id, Workshop>, e: map<Id, Exhibition>)
  {
    && WorkshopsKeyed(w) && ExhibitionsKeyed(e)
    && (forall k :: k in w <==> IsSeedWsId(k))
    && (forall i: nat, j: nat :: 1 <= i <= 3 && 1 <= j <= 3 ==> WsId(i, j) in w && w[WsId(i, j)] == SeedWorkshop(i, j))
    && (forall k :: k in e <==> IsSeedExId(k))
    && (forall i: nat :: 1 <= i <= 3 ==> ExId(i) in e && e[ExId(i)] == SeedExhibition(i))
  }

  lemma SeedingComplete(w: map<Id, Workshop>, e: map<Id, Exhibition>)
    requires WorkshopsSeededBefore(w, 4, 1) && ExhibitionsSeededBefore(e, 4)
    ensures IsDemoData(w, e)
  {
    forall k | IsSeedWsId(k) ensures k in w {
      var i: nat, j: nat :| 1 <= i <= 3 && 1 <= j <= 3 && k == WsId(i, j);
    }
    forall k | IsSeedExId(k) ensures k in e {
      var i: nat :| 1 <= i <= 3 && k == ExId(i);
    }
  }

  class Store {
    /** The password hash attendees are created with. */
    const hash: Hasher

    var attendees: Dict<Id, Attendee>
    var workshops: map<Id, Workshop>
    var tickets: map<Id, Ticket>
    var payments: Dict<Id, Payment>
    var reservations: map<Id, Reservation>
    var exhibitions: map<Id, Exhibition>

    ghost function State(): Collections
      reads this
    {
      Collections(attendees, workshops, tickets, payments, reservations, exhibitions)
    }

    ghost predicate Valid()
      reads this
    {
      && attendees.Valid() && AttendeesKeyed(attendees)
      && WorkshopsKeyed(workshops)
      && TicketsKeyed(tickets)
      && payments.Valid() && PaymentsKeyed(payments)
      && ReservationsKeyed(reservations)
      && ExhibitionsKeyed(exhibitions)
    }

    /** The workshops and exhibitions are exactly the demo data. */
    ghost predicate Seeded()
      reads this
    {
      IsDemoData(workshops, exhibitions)
    }

    /**
     * Start from the collections read back from disk (empty ones where
     * nothing was saved); seed the demo data when there are no workshops.
     */
    constructor (hash: Hasher, attendees: Dict<Id, Attendee>, workshops: map<Id, Workshop>,
                 tickets: map<Id, Ticket>, payments: Dict<Id, Payment>, reservations: map<Id, Reservation>)
      requires attendees.Valid() && AttendeesKeyed(attendees) && WorkshopsKeyed(workshops)
      requires TicketsKeyed(tickets) && payments.Valid() && PaymentsKeyed(payments) && ReservationsKeyed(reservations)
      ensures Valid() && this.hash == hash
      ensures this.attendees == attendees && this.tickets == tickets
      ensures this.payments == payments && this.reservations == reservations
      ensures workshops != map[] ==> this.workshops == workshops && exhibitions == map[]
      ensures workshops == map[] ==> Seeded()
      ensures SeatsWithinCapacity(workshops) ==> SeatsWithinCapacity(this.workshops)
    {
      this.hash := hash;
      this.attendees := attendees;
      this.workshops := workshops;
      this.tickets := tickets;
      this.payments := payments;
      this.reservations := reservations;
      this.exhibitions := map[];
      new;
      if this.workshops == map[] {
        SeedDemoData();
        DemoDataWithinCapacity(this.workshops, exhibitions);
      }
    }

    /** Replace the (empty) workshops and exhibitions by the demo data. */
    method SeedDemoData()
      requires Valid() && workshops == map[] && exhibitions == map[]
      modifies this
      ensures Valid() && Seeded()
      ensures State() == old(State()).(workshops := workshops, exhibitions := exhibitions)
    {
      var w, e := DemoData();
      workshops, exhibitions := w, e;
    }

    /** Three exhibitions with three workshops each, built by two nested loops. */
    static method DemoData() returns (w: map<Id, Workshop>, e: map<Id, Exhibition>)
      ensures IsDemoData(w, e)
    {
      w, e := map[], map[];
      var i: nat := 1;
      while i <= 3
        invariant 1 <= i <= 4
        invariant WorkshopsSeededBefore(w, i, 1) && ExhibitionsSeededBefore(e, i)
      {
        w, e := SeedRow(w, e, i);
        i := i + 1;
      }
      SeedingComplete(w, e);
    }

    /** One pass of the outer seeding loop: exhibition `i` and its three workshops. */
    static method SeedRow(w0: map<Id, Workshop>, e0: map<Id, Exhibition>, i: nat)
      returns (w: map<Id, Workshop>, e: map<Id, Exhibition>)
      requires 1 <= i <= 3 && WorkshopsSeededBefore(w0, i, 1) && ExhibitionsSeededBefore(e0, i)
      ensures WorkshopsSeededBefore(w, i + 1, 1) && ExhibitionsSeededBefore(e, i + 1)
    {
      var exId := ExId(i);
      SeedExhibitionStart(e0, i);
      w, e := w0, e0[exId := NewExhibition(exId, ExTitle(i))];
      var j: nat := 1;
      while j <= 3
        invariant 1 <= j <= 4
        invariant WorkshopsSeededBefore(w, i, j) && ExhibitionRowSeeded(e, i, j)
      {
        var ws := SeedWorkshop(i, j);
        SeedWorkshopStep(w, i, j);
        w := w[ws.wsId := ws];
        SeedExhibitionStep(e, i, j);
        e := e[exId := e[exId].(workshops := e[exId].workshops + [ws.wsId])];
        j := j + 1;
      }
      SeedExhibitionEnd(e, i);
      SeedRowEnd(w, i);
    }

    /** `attendees[a.user_id] = a` */
    method AddAttendee(a: Attendee)
      requires Valid()
      modifies this
      ensures Valid()
      ensures State() == old(State()).(attendees := old(attendees).Put(a.userId, a))
    {
      attendees := attendees.Put(a.userId, a);
    }

    /** `tickets[t.ticket_id] = t` */
    method AddTicket(t: Ticket)
      requires Valid()
      modifies this
      ensures Valid()
      ensures State() == old(State()).(tickets := old(tickets)[t.ticketId := t])
    {
      tickets := tickets[t.ticketId := t];
    }

    /** `payments[p.pay_id] = p` */
    method AddPayment(p: Payment)
      requires Valid()
      modifies this
      ensures Valid()
      ensures State() == old(State()).(payments := old(payments).Put(p.payId, p))
    {
      payments := payments.Put(p.payId, p);
    }

    /** `reservations[r.res_id] = r` */
    method AddReservation(r: Reservation)
      requires Valid()
      modifies this
      ensures Valid()
      ensures State() == old(State()).(reservations := old(reservations)[r.resId := r])
    {
      reservations := reservations[r.resId := r];
    }

    /** `workshops[ws.ws_id] = ws` */
    method UpdateWorkshop(ws: Workshop)
      requires Valid()
      modifies this
      ensures Valid()
      ensures State() == old(State()).(workshops := old(workshops)[ws.wsId := ws])
    {
      workshops := workshops[ws.wsId := ws];
    }

    /** The first attendee, in insertion order, whose e-mail matches ignoring case. */
    method FindAttendeeByEmail(email: string) returns (r: Option<Attendee>)
      requires Valid()
      ensures r.None? <==> !EmailTaken(attendees, email)
      ensures r.Some? ==> exists n :: FirstMatchAt(attendees, email, n) && r.value == attendees.entries[attendees.keys[n]]
    {
      var i := 0;
      while i < |attendees.keys|
        invariant 0 <= i <= |attendees.keys|
        invariant forall m :: 0 <= m < i ==> !EmailMatches(attendees.entries[attendees.keys[m]], email)
      {
        var a := attendees.entries[attendees.keys[i]];
        if EmailMatches(a, email) {
          assert FirstMatchAt(attendees, email, i);
          return Some(a);
        }
        i := i + 1;
      }
      return None;
    }

    /**
     * Upgrade a stored ticket through its upgrade guard. An unknown ticket id
     * yields false and changes nothing.
     */
    method UpgradeTicket(ticketId: Id, exId: Id, extraPrice: int := 20) returns (success: bool)
      requires Valid()
      modifies this
      ensures Valid()
      ensures ticketId !in old(tickets) ==> !success
      ensures ticketId in old(tickets) ==>
                var u := UpgradeAddExhibition(old(tickets)[ticketId], exId, extraPrice);
                && success == u.granted
                && State() == old(State()).(tickets := old(tickets)[ticketId := u.ticket])
      ensures !success ==> State() == old(State())
    {
      if ticketId in tickets {
        var t := tickets[ticketId];
        var u := UpgradeAddExhibition(t, exId, extraPrice);
        success := u.granted;
        if success {
          tickets := tickets[ticketId := u.ticket];
        }
        return;
      }
      return false;
    }

    /** Total payment amount per calendar date. Reads the store and changes nothing. */
    method DailySales() returns (sales: map<Date, int>)
      requires Valid()
      ensures sales.Keys == PaymentDates(payments)
      ensures forall d :: d in sales ==> sales[d] == SalesOn(payments.keys, payments.entries, d)
    {
      sales := map[];
      var ks := payments.keys;
      var i := 0;
      while i < |ks|
        invariant 0 <= i <= |ks|
        invariant sales.Keys == DatesOf(ks[..i], payments.entries)
        invariant forall d :: SalesOn(ks[..i], payments.entries, d) == if d in sales then sales[d] else 0
      {
        var p := payments.entries[ks[i]];
        var dateKey := p.timestamp.date;
        var sofar := if dateKey in sales then sales[dateKey] else 0;
        sales := sales[dateKey := sofar + p.amount];
        assert ks[..i + 1][..i] == ks[..i];
        i := i + 1;
      }
      assert ks[..i] == ks;
      DatesOfAll(payments);
    }
  }

  /** Some stored attendee's e-mail matches `email` ignoring case. */
  ghost predicate EmailTaken(d: Dict<Id, Attendee>, email: string)
  {
    exists k :: k in d.entries && EmailMatches(d.entries[k], email)
  }

  /** Position `n` holds the first attendee whose e-mail matches. */
  ghost predicate FirstMatchAt(d: Dict<Id, Attendee>, email: string, n: int)
  {
    && 0 <= n < |d.keys|
    && (forall m :: 0 <= m <= n ==> d.keys[m] in d.entries)
    && EmailMatches(d.entries[d.keys[n]], email)
    && (forall m :: 0 <= m < n ==> !EmailMatches(d.entries[d.keys[m]], email))
  }

  /** The dates on which some stored payment was made. */
  ghost function PaymentDates(d: Dict<Id, Payment>): set<Date>
  {
    set k | k in d.entries :: d.entries[k].timestamp.date
  }

  lemma DatesOfAll(d: Dict<Id, Payment>)
    requires d.Valid()
    ensures DatesOf(d.keys, d.entries) == PaymentDates(d)
  {
    forall x ensures x in DatesOf(d.keys, d.entries) <==> x in PaymentDates(d) {
      DatesOfMember(d.keys, d.entries, x);
    }
  }

  /**
   * The daily sales report adds up to the total of all payments: listing
   * its dates once each, the sum of its values is the sum of all amounts.
   */
  lemma DailySalesAddUp(sales: map<Date, int>, d: Dict<Id, Payment>, ds: seq<Date>)
    requires d.Valid()
    requires sales.Keys == PaymentDates(d)
    requires forall x :: x in sales ==> sales[x] == SalesOn(d.keys, d.entries, x)
    requires NoDuplicates(ds) && (forall x :: x in ds <==> x in sales)
    ensures SumValues(ds, sales) == TotalAmount(d.keys, d.entries)
  {
    SumValuesIsSumSales(ds, sales, d.keys, d.entries);
    forall k | k in d.keys ensures d.entries[k].timestamp.date in ds {
      assert d.entries[k].timestamp.date in PaymentDates(d);
    }
    SalesAddUpToTotal(ds, d.keys, d.entries);
  }
}

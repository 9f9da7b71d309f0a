/**
 * The business operations of the ticketing system: opening an account,
 * buying a ticket (and paying for it), reserving a workshop seat and
 * cancelling a reservation. Each one checks its inputs first and changes the
 * store only once every check has passed.
 */
module Logic {
  import opened Wrappers
  import opened Dicts
  import opened Models
  import opened Seqs
  import opened Storage

  /** The errors the operations raise, one per message of the source. */
  datatype Error =
    | EmailAlreadyRegistered
    | AttendeeNotFound
    | NoExhibitionSelected
    | UnknownTicketType
    | TicketNotFound
    | WorkshopNotFound
    | NoSeatsAvailable
    | AccessDenied
    | ReservationNotFound

  /** Price of each selected exhibition, and of each exhibition added to a pass while buying it. */
  const EXHIBITION_PRICE: int := 50

  const ALL_ACCESS_PRICE: int := 150

  /** The ids of `s` in order of first occurrence. */
  function Dedup(s: seq<Id>): seq<Id>
  {
    if s == [] then []
    else
      var d := Dedup(s[..|s| - 1]);
      if s[|s| - 1] in d then d else d + [s[|s| - 1]]
  }

  lemma {:induction false} DedupElements(s: seq<Id>)
    ensures forall x :: x in Dedup(s) <==> x in s
  {
    if s != [] {
      DedupElements(s[..|s| - 1]);
      assert s == s[..|s| - 1] + [s[|s| - 1]];
    }
  }

  lemma {:induction false} DedupNoDuplicates(s: seq<Id>)
    ensures NoDuplicates(Dedup(s))
  {
    if s != [] {
      DedupNoDuplicates(s[..|s| - 1]);
      var d := Dedup(s[..|s| - 1]);
      if s[|s| - 1] !in d {
        var r := d + [s[|s| - 1]];
        forall i, j | 0 <= i < j < |r| ensures r[i] != r[j] {
          if j == |r| - 1 {
            assert r[i] == d[i];
          }
        }
      }
    }
  }

  lemma {:induction false} DedupFirst(s: seq<Id>)
    requires s != []
    ensures Dedup(s) != [] && Dedup(s)[0] == s[0]
  {
    if |s| > 1 {
      DedupFirst(s[..|s| - 1]);
    }
  }

  /**
   * The exhibition pass bought for the selection `selected`: every selected
   * exhibition is charged once, and each further distinct one is charged again
   * by the upgrade that adds it to the access list.
   */
  function ExhibitionPassFor(tid: Id, owner: Id, selected: seq<Id>): Ticket
    requires selected != []
  {
    var access := Dedup(selected);
    Ticket(tid, owner, EXHIBITION_PRICE * |selected| + EXHIBITION_PRICE * (|access| - 1), access,
           ExhibitionPass(selected[0]))
  }

  /** The pass lists each selected exhibition exactly once, the first selection first. */
  lemma ExhibitionPassAccess(tid: Id, owner: Id, selected: seq<Id>)
    requires selected != []
    ensures var t := ExhibitionPassFor(tid, owner, selected);
            && NoDuplicates(t.accessExhibitions)
            && (forall x :: x in t.accessExhibitions <==> x in selected)
            && t.accessExhibitions[0] == selected[0]
            && t.price >= EXHIBITION_PRICE * |selected|
            && t.kind == ExhibitionPass(selected[0]) && t.ownerId == owner && t.ticketId == tid
  {
    DedupElements(selected);
    DedupNoDuplicates(selected);
    DedupFirst(selected);
  }

  /** Unless "ALL" is selected, the pass admits to exactly the selected exhibitions. */
  lemma ExhibitionPassGrants(tid: Id, owner: Id, selected: seq<Id>, exId: Id)
    requires selected != [] && ALL !in selected
    ensures GrantsAccess(ExhibitionPassFor(tid, owner, selected), exId) <==> exId in selected
  {
    DedupElements(selected);
  }

  /** Two distinct exhibitions cost 150, not 100: the second one is charged twice. */
  lemma TwoExhibitionPassPrice(tid: Id, owner: Id, ex1: Id, ex2: Id)
    requires ex1 != ex2
    ensures ExhibitionPassFor(tid, owner, [ex1, ex2]).price == 3 * EXHIBITION_PRICE
  {
    assert [ex1][..0] == [];
    assert Dedup([ex1]) == [ex1];
    assert [ex1, ex2][..1] == [ex1];
  }

  /** Build a pass for the first selection, then upgrade it with each further one. */
  method BuildExhibitionPass(tid: Id, owner: Id, selected: seq<Id>) returns (t: Ticket)
    requires selected != []
    ensures t == ExhibitionPassFor(tid, owner, selected)
  {
    t := NewExhibitionPass(tid, owner, EXHIBITION_PRICE * |selected|, selected[0]);
    assert selected[..1][..0] == [];
    var i := 1;
    while i < |selected|
      invariant 1 <= i <= |selected|
      invariant t.ticketId == tid && t.ownerId == owner && t.kind == ExhibitionPass(selected[0])
      invariant t.accessExhibitions == Dedup(selected[..i])
      invariant t.price == EXHIBITION_PRICE * |selected| + EXHIBITION_PRICE * (|Dedup(selected[..i])| - 1)
    {
      var u := UpgradeAddExhibition(t, selected[i], EXHIBITION_PRICE);
      t := u.ticket;
      assert selected[..i + 1][..i] == selected[..i];
      i := i + 1;
    }
    assert selected[..i] == selected;
  }

  /** Open an account, refusing an e-mail already registered in any letter case. */
  method CreateAccount(s: Store, uid: Id, name: string, email: string, password: string)
    returns (r: Result<Attendee, Error>)
    requires s.Valid()
    modifies s
    ensures s.Valid()
    ensures r.Err? <==> EmailTaken(old(s.attendees), email)
    ensures r.Err? ==> r.error == EmailAlreadyRegistered && s.State() == old(s.State())
    ensures r.Ok? ==> && r.value == NewAttendee(uid, name, email, password, s.hash)
                      && s.State() == old(s.State()).(attendees := old(s.attendees).Put(uid, r.value))
                      && EmailTaken(s.attendees, email)
  {
    var existing := s.FindAttendeeByEmail(email);
    if existing.Some? {
      return Err(EmailAlreadyRegistered);
    }
    var att := NewAttendee(uid, name, email, password, s.hash);
    s.AddAttendee(att);
    assert EmailMatches(s.attendees.entries[uid], email);
    return Ok(att);
  }

  /** Record a payment of the ticket's price and add it to the owner's purchase history. */
  method SimulatePayment(s: Store, t: Ticket, payId: Id, now: Timestamp, payMethod: string := "Card")
    returns (p: Payment)
    requires s.Valid()
    modifies s
    ensures s.Valid()
    ensures p == Payment(payId, t.ticketId, t.price, payMethod, now)
    ensures t.ownerId !in old(s.attendees.entries) ==>
              s.State() == old(s.State()).(payments := old(s.payments).Put(payId, p))
    ensures t.ownerId in old(s.attendees.entries) ==>
              var owner := old(s.attendees.entries)[t.ownerId];
              s.State() == old(s.State()).(
                payments := old(s.payments).Put(payId, p),
                attendees := old(s.attendees).Put(t.ownerId, owner.(purchaseHistory := owner.purchaseHistory + [payId])))
  {
    p := Payment(payId, t.ticketId, t.price, payMethod, now);
    s.AddPayment(p);
    var owner := s.attendees.Get(t.ownerId);
    if owner.Some? {
      s.AddAttendee(owner.value.(purchaseHistory := owner.value.purchaseHistory + [p.payId]));
    }
  }

  /**
   * Buy an exhibition pass for the selected exhibitions or an all-access
   * pass, and pay for it by card.
   */
  method PurchaseTicket(s: Store, attendeeId: Id, ticketType: string, selected: seq<Id>,
                        tid: Id, payId: Id, now: Timestamp)
    returns (r: Result<(Ticket, Payment), Error>)
    requires s.Valid()
    modifies s
    ensures s.Valid()
    ensures r.Err? ==> s.State() == old(s.State())
    ensures attendeeId !in old(s.attendees.entries) ==> r == Err(AttendeeNotFound)
    ensures attendeeId in old(s.attendees.entries) && ticketType == "Exhibition" && selected == [] ==>
              r == Err(NoExhibitionSelected)
    ensures attendeeId in old(s.attendees.entries) && ticketType != "Exhibition" && ticketType != "AllAccess" ==>
              r == Err(UnknownTicketType)
    ensures r.Ok? <==> && attendeeId in old(s.attendees.entries)
                       && (ticketType == "AllAccess" || (ticketType == "Exhibition" && selected != []))
    ensures r.Ok? ==> (attendeeId in old(s.attendees.entries) && (
              var t := r.value.0;
              var p := r.value.1;
              var a := old(s.attendees.entries)[attendeeId];
              && t == (if ticketType == "Exhibition" then ExhibitionPassFor(tid, attendeeId, selected)
                       else NewAllAccessPass(tid, attendeeId, ALL_ACCESS_PRICE))
              && p == Payment(payId, tid, t.price, "Card", now)
              && s.State() == old(s.State()).(
                   tickets := old(s.tickets)[tid := t],
                   payments := old(s.payments).Put(payId, p),
                   attendees := old(s.attendees).Put(attendeeId,
                     a.(tickets := a.tickets + [tid], purchaseHistory := a.purchaseHistory + [payId])))))
  {
    var found := s.attendees.Get(attendeeId);
    if found.None? {
      return Err(AttendeeNotFound);
    }
    var att := found.value;
    var t: Ticket;
    if ticketType == "Exhibition" {
      if selected == [] {
        return Err(NoExhibitionSelected);
      }
      t := BuildExhibitionPass(tid, attendeeId, selected);
    } else if ticketType == "AllAccess" {
      t := NewAllAccessPass(tid, attendeeId, ALL_ACCESS_PRICE);
    } else {
      return Err(UnknownTicketType);
    }
    s.AddTicket(t);
    s.AddAttendee(att.(tickets := att.tickets + [t.ticketId]));
    var p := SimulatePayment(s, t, payId, now, "Card");
    PutPut(old(s.attendees), attendeeId, att.(tickets := att.tickets + [tid]),
           att.(tickets := att.tickets + [tid], purchaseHistory := att.purchaseHistory + [payId]));
    return Ok((t, p));
  }

  /**
   * Reserve a seat in a workshop with a ticket. The checks run in this order:
   * attendee, ticket and workshop exist, a seat is free, the ticket admits to
   * the workshop's exhibition. The ticket's owner is not checked.
   */
  method ReserveWorkshop(s: Store, attendeeId: Id, ticketId: Id, wsId: Id, rid: Id)
    returns (r: Result<Reservation, Error>)
    requires s.Valid()
    modifies s
    ensures s.Valid()
    ensures r.Err? ==> s.State() == old(s.State())
    ensures attendeeId !in old(s.attendees.entries) ==> r == Err(AttendeeNotFound)
    ensures attendeeId in old(s.attendees.entries) && ticketId !in old(s.tickets) ==> r == Err(TicketNotFound)
    ensures attendeeId in old(s.attendees.entries) && ticketId in old(s.tickets) && wsId !in old(s.workshops) ==>
              r == Err(WorkshopNotFound)
    ensures attendeeId in old(s.attendees.entries) && ticketId in old(s.tickets) && wsId in old(s.workshops) ==>
              var ws := old(s.workshops)[wsId];
              && (AvailableSpots(ws) <= 0 ==> r == Err(NoSeatsAvailable))
              && (AvailableSpots(ws) > 0 && !GrantsAccess(old(s.tickets)[ticketId], ws.exId) ==> r == Err(AccessDenied))
              && (AvailableSpots(ws) > 0 && GrantsAccess(old(s.tickets)[ticketId], ws.exId) ==> r.Ok?)
    ensures r.Ok? ==> && attendeeId in old(s.attendees.entries) && wsId in old(s.workshops)
                      && r.value == NewReservation(rid, ticketId, wsId, attendeeId)
                      && s.State() == ReserveEffect(old(s.State()), attendeeId, ticketId, wsId, rid)
                      && AvailableSpots(s.workshops[wsId]) == AvailableSpots(old(s.workshops)[wsId]) - 1
                      && |s.workshops[wsId].attendeeIds| <= s.workshops[wsId].capacity
    ensures SeatsWithinCapacity(old(s.workshops)) ==> SeatsWithinCapacity(s.workshops)
  {
    var found := s.attendees.Get(attendeeId);
    if found.None? {
      return Err(AttendeeNotFound);
    }
    var att := found.value;
    if ticketId !in s.tickets {
      return Err(TicketNotFound);
    }
    var ticket := s.tickets[ticketId];
    if wsId !in s.workshops {
      return Err(WorkshopNotFound);
    }
    var ws := s.workshops[wsId];
    if AvailableSpots(ws) <= 0 {
      return Err(NoSeatsAvailable);
    }
    if ALL !in ticket.accessExhibitions && ws.exId !in ticket.accessExhibitions {
      return Err(AccessDenied);
    }
    var res := NewReservation(rid, ticket.ticketId, wsId, attendeeId);
    s.AddReservation(res);
    s.UpdateWorkshop(ws.(attendeeIds := ws.attendeeIds + [rid]));
    s.AddAttendee(att.(reservations := att.reservations + [rid]));
    if SeatsWithinCapacity(old(s.workshops)) {
      ReserveKeepsSeatsWithinCapacity(old(s.State()), attendeeId, ticketId, wsId, rid);
    }
    return Ok(res);
  }

  /**
   * Cancel a reservation: free its seat and drop it from its attendee's list
   * where they still hold it, and mark it cancelled. The record is kept, so
   * cancelling it again succeeds.
   */
  method CancelReservation(s: Store, resId: Id) returns (r: Result<Reservation, Error>)
    requires s.Valid()
    modifies s
    ensures s.Valid()
    ensures r.Ok? <==> resId in old(s.reservations)
    ensures r.Err? ==> r.error == ReservationNotFound && s.State() == old(s.State())
    ensures r.Ok? ==> && resId in old(s.reservations)
                      && r.value == old(s.reservations)[resId].(status := Cancelled)
                      && s.State() == CancelEffect(old(s.State()), resId)
                      && resId in s.reservations
    ensures SeatsWithinCapacity(old(s.workshops)) ==> SeatsWithinCapacity(s.workshops)
  {
    if resId !in s.reservations {
      return Err(ReservationNotFound);
    }
    var res := s.reservations[resId];
    if res.wsId in s.workshops && resId in s.workshops[res.wsId].attendeeIds {
      var ws := s.workshops[res.wsId];
      s.UpdateWorkshop(ws.(attendeeIds := RemoveFirst(ws.attendeeIds, resId)));
    }
    var att := s.attendees.Get(res.attendeeId);
    if att.Some? && resId in att.value.reservations {
      s.AddAttendee(att.value.(reservations := RemoveFirst(att.value.reservations, resId)));
    }
    var cancelled := res.(status := Cancelled);
    s.AddReservation(cancelled);
    if SeatsWithinCapacity(old(s.workshops)) {
      CancelKeepsSeatsWithinCapacity(old(s.State()), resId);
    }
    return Ok(cancelled);
  }

  /** The reservation `rid` holds a seat of `wsId` and is listed by its attendee. */
  ghost function ReserveEffect(c: Collections, attendeeId: Id, ticketId: Id, wsId: Id, rid: Id): Collections
    requires c.attendees.Valid() && attendeeId in c.attendees.entries && wsId in c.workshops
  {
    var ws := c.workshops[wsId];
    var a := c.attendees.entries[attendeeId];
    c.(reservations := c.reservations[rid := NewReservation(rid, ticketId, wsId, attendeeId)],
       workshops := c.workshops[wsId := ws.(attendeeIds := ws.attendeeIds + [rid])],
       attendees := c.attendees.Put(attendeeId, a.(reservations := a.reservations + [rid])))
  }

  /**
   * The reservation is marked cancelled, and its first occurrence leaves its
   * workshop's seats and its attendee's list where it is still there.
   */
  ghost function CancelEffect(c: Collections, resId: Id): Collections
    requires c.attendees.Valid() && resId in c.reservations
  {
    var res := c.reservations[resId];
    var w := c.workshops;
    var d := c.attendees;
    c.(reservations := c.reservations[resId := res.(status := Cancelled)],
       workshops := if res.wsId in w && resId in w[res.wsId].attendeeIds
                    then w[res.wsId := w[res.wsId].(attendeeIds := RemoveFirst(w[res.wsId].attendeeIds, resId))]
                    else w,
       attendees := if res.attendeeId in d.entries && resId in d.entries[res.attendeeId].reservations
                    then d.Put(res.attendeeId, d.entries[res.attendeeId].(reservations :=
                           RemoveFirst(d.entries[res.attendeeId].reservations, resId)))
                    else d)
  }

  /**
   * Reserving a seat with a new reservation id and cancelling that reservation
   * gives back the workshop's seats and the attendee's reservations; only the
   * cancelled record remains.
   */
  lemma ReserveThenCancelRestores(c: Collections, attendeeId: Id, ticketId: Id, wsId: Id, rid: Id)
    requires c.attendees.Valid() && attendeeId in c.attendees.entries && wsId in c.workshops
    requires rid !in c.workshops[wsId].attendeeIds && rid !in c.attendees.entries[attendeeId].reservations
    ensures CancelEffect(ReserveEffect(c, attendeeId, ticketId, wsId, rid), rid)
            == c.(reservations := c.reservations[rid := NewReservation(rid, ticketId, wsId, attendeeId).(status := Cancelled)])
  {
    CancelRestoresSeats(c, attendeeId, ticketId, wsId, rid);
    CancelRestoresAttendee(c, attendeeId, ticketId, wsId, rid);
    CancelKeepsRecord(c, attendeeId, ticketId, wsId, rid);
  }

  lemma CancelKeepsRecord(c: Collections, attendeeId: Id, ticketId: Id, wsId: Id, rid: Id)
    requires c.attendees.Valid() && attendeeId in c.attendees.entries && wsId in c.workshops
    ensures var after := CancelEffect(ReserveEffect(c, attendeeId, ticketId, wsId, rid), rid);
            && after.reservations == c.reservations[rid := NewReservation(rid, ticketId, wsId, attendeeId).(status := Cancelled)]
            && after.tickets == c.tickets && after.payments == c.payments && after.exhibitions == c.exhibitions
  {
  }

  lemma CancelRestoresSeats(c: Collections, attendeeId: Id, ticketId: Id, wsId: Id, rid: Id)
    requires c.attendees.Valid() && attendeeId in c.attendees.entries && wsId in c.workshops
    requires rid !in c.workshops[wsId].attendeeIds
    ensures CancelEffect(ReserveEffect(c, attendeeId, ticketId, wsId, rid), rid).workshops == c.workshops
  {
    RemoveFirstOfAppended(c.workshops[wsId].attendeeIds, rid);
  }

  lemma CancelRestoresAttendee(c: Collections, attendeeId: Id, ticketId: Id, wsId: Id, rid: Id)
    requires c.attendees.Valid() && attendeeId in c.attendees.entries && wsId in c.workshops
    requires rid !in c.attendees.entries[attendeeId].reservations
    ensures CancelEffect(ReserveEffect(c, attendeeId, ticketId, wsId, rid), rid).attendees == c.attendees
  {
    var a := c.attendees.entries[attendeeId];
    var held := a.(reservations := a.reservations + [rid]);
    RemoveFirstOfAppended(a.reservations, rid);
    assert held.(reservations := RemoveFirst(held.reservations, rid)) == a;
    PutPut(c.attendees, attendeeId, held, a);
    PutSame(c.attendees, attendeeId);
  }

  /** A reservation keeps every workshop within capacity. */
  lemma ReserveKeepsSeatsWithinCapacity(c: Collections, attendeeId: Id, ticketId: Id, wsId: Id, rid: Id)
    requires c.attendees.Valid() && attendeeId in c.attendees.entries && wsId in c.workshops
    requires AvailableSpots(c.workshops[wsId]) > 0 && SeatsWithinCapacity(c.workshops)
    ensures SeatsWithinCapacity(ReserveEffect(c, attendeeId, ticketId, wsId, rid).workshops)
  {
  }

  /** A cancellation keeps every workshop within capacity. */
  lemma CancelKeepsSeatsWithinCapacity(c: Collections, resId: Id)
    requires c.attendees.Valid() && resId in c.reservations && SeatsWithinCapacity(c.workshops)
    ensures SeatsWithinCapacity(CancelEffect(c, resId).workshops)
  {
  }
}

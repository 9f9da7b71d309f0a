/**
 * Domain records of the ticketing system: attendees, exhibitions, workshops,
 * tickets, reservations and payments, with seat arithmetic, the ticket
 * upgrade guard and the password check.
 */
module Models {
  import opened Seqs

  /** Identifiers are opaque strings ("U1a2b3c4d", "EX1", "WS11", ...). */
  type Id = string

  /** The one-way password hash (sha256 hex digest in the source), kept abstract. */
  type Hasher = string -> string

  /** ISO calendar date of a timestamp, the key daily sales are grouped by. */
  type Date = string

  datatype Timestamp = Timestamp(date: Date, secondOfDay: nat)

  /** An attendee account: a user with the ids of its tickets, reservations and payments. */
  datatype Attendee = Attendee(
    userId: Id,
    name: string,
    email: string,
    passwordHash: string,
    tickets: seq<Id>,
    reservations: seq<Id>,
    purchaseHistory: seq<Id>)

  function NewAttendee(userId: Id, name: string, email: string, password: string, hash: Hasher): Attendee
  {
    Attendee(userId, name, email, hash(password), [], [], [])
  }

  /** Hash the candidate and compare it with the stored digest. */
  predicate CheckPassword(a: Attendee, candidate: string, hash: Hasher)
  {
    hash(candidate) == a.passwordHash
  }

  /**
   * A new account holds no tickets, reservations or payments, and the
   * password given when it was made passes the check.
   */
  lemma CheckPasswordOfNew(userId: Id, name: string, email: string, password: string, hash: Hasher)
    ensures var a := NewAttendee(userId, name, email, password, hash);
            && CheckPassword(a, password, hash)
            && a.tickets == [] && a.reservations == [] && a.purchaseHistory == []
  {
  }

  /** A candidate whose digest differs from the password's is refused. */
  lemma CheckPasswordRefuses(userId: Id, name: string, email: string, password: string, candidate: string, hash: Hasher)
    requires hash(candidate) != hash(password)
    ensures !CheckPassword(NewAttendee(userId, name, email, password, hash), candidate, hash)
  {
  }

  datatype Exhibition = Exhibition(exId: Id, title: string, workshops: seq<Id>)

  function NewExhibition(exId: Id, title: string): Exhibition
  {
    Exhibition(exId, title, [])
  }

  /**
   * A workshop; `attendeeIds` holds the ids of the reservations occupying a
   * seat, one seat each. The start time is not modelled.
   */
  datatype Workshop = Workshop(wsId: Id, title: string, exId: Id, capacity: int, attendeeIds: seq<Id>)

  function NewWorkshop(wsId: Id, title: string, exId: Id, capacity: int): Workshop
  {
    Workshop(wsId, title, exId, capacity, [])
  }

  /** A new workshop has every seat free. */
  lemma NewWorkshopHasAllSeatsFree(wsId: Id, title: string, exId: Id, capacity: int)
    requires capacity >= 0
    ensures AvailableSpots(NewWorkshop(wsId, title, exId, capacity)) == capacity
  {
  }

  /** Free seats: capacity minus held seats, floored at zero. */
  function AvailableSpots(w: Workshop): (r: int)
    ensures r >= 0
    ensures |w.attendeeIds| <= w.capacity ==> r + |w.attendeeIds| == w.capacity
    ensures |w.attendeeIds| >= w.capacity ==> r == 0
  {
    if w.capacity - |w.attendeeIds| > 0 then w.capacity - |w.attendeeIds| else 0
  }

  /** The access-list sentinel an all-access pass carries. */
  const ALL: Id := "ALL"

  datatype TicketKind = ExhibitionPass(selectedExId: Id) | AllAccess

  /** A ticket: its price and the list of exhibition ids it gives access to. */
  datatype Ticket = Ticket(ticketId: Id, ownerId: Id, price: int, accessExhibitions: seq<Id>, kind: TicketKind)

  function NewExhibitionPass(ticketId: Id, ownerId: Id, price: int, selectedExId: Id): Ticket
  {
    Ticket(ticketId, ownerId, price, [selectedExId], ExhibitionPass(selectedExId))
  }

  function NewAllAccessPass(ticketId: Id, ownerId: Id, price: int): Ticket
  {
    Ticket(ticketId, ownerId, price, [ALL], AllAccess)
  }

  /** A ticket after an upgrade attempt, and whether the upgrade happened. */
  datatype Upgraded = Upgraded(ticket: Ticket, granted: bool)

  /**
   * Add an exhibition to the ticket's access list and charge `extraPrice`,
   * unless the id is already in the list. The check is on the literal id, so
   * an all-access pass (whose list is ["ALL"]) is upgraded like any other.
   */
  function UpgradeAddExhibition(t: Ticket, exId: Id, extraPrice: int): (r: Upgraded)
    ensures r.granted <==> exId !in t.accessExhibitions
    ensures exId in r.ticket.accessExhibitions
    ensures r.ticket.accessExhibitions == if r.granted then t.accessExhibitions + [exId] else t.accessExhibitions
    ensures r.ticket.price == if r.granted then t.price + extraPrice else t.price
    ensures r.ticket.ticketId == t.ticketId && r.ticket.ownerId == t.ownerId && r.ticket.kind == t.kind
  {
    if exId !in t.accessExhibitions then
      Upgraded(t.(accessExhibitions := t.accessExhibitions + [exId], price := t.price + extraPrice), true)
    else
      Upgraded(t, false)
  }

  /** Upgrading twice with the same id: the second attempt is refused and charges nothing. */
  lemma UpgradeTwice(t: Ticket, exId: Id, extraPrice: int, otherPrice: int)
    requires exId !in t.accessExhibitions
    ensures var first := UpgradeAddExhibition(t, exId, extraPrice);
            var second := UpgradeAddExhibition(first.ticket, exId, otherPrice);
            && first.granted && !second.granted
            && first.ticket.price == t.price + extraPrice
            && second.ticket == first.ticket
  {
  }

  /** An upgrade never introduces a duplicate into the access list. */
  lemma UpgradeKeepsNoDuplicates(t: Ticket, exId: Id, extraPrice: int)
    requires NoDuplicates(t.accessExhibitions)
    ensures NoDuplicates(UpgradeAddExhibition(t, exId, extraPrice).ticket.accessExhibitions)
  {
    var r := UpgradeAddExhibition(t, exId, extraPrice);
    if r.granted {
      var s := r.ticket.accessExhibitions;
      forall i, j | 0 <= i < j < |s| ensures s[i] != s[j] {
        if j == |s| - 1 {
          assert s[i] == t.accessExhibitions[i];
        }
      }
    }
  }

  /** True when the ticket admits to the workshops of exhibition `exId`. */
  predicate GrantsAccess(t: Ticket, exId: Id)
  {
    ALL in t.accessExhibitions || exId in t.accessExhibitions
  }

  /**
   * A new exhibition pass admits to the selected exhibition only, and an
   * upgrade with that same exhibition is refused.
   */
  lemma ExhibitionPassGrantsOnlySelected(ticketId: Id, ownerId: Id, price: int, selectedExId: Id, exId: Id, extraPrice: int)
    requires selectedExId != ALL
    ensures var t := NewExhibitionPass(ticketId, ownerId, price, selectedExId);
            && (GrantsAccess(t, exId) <==> exId == selectedExId)
            && !UpgradeAddExhibition(t, selectedExId, extraPrice).granted
  {
  }

  /** An all-access pass admits to every exhibition. */
  lemma AllAccessGrantsEverything(ticketId: Id, ownerId: Id, price: int, exId: Id)
    ensures GrantsAccess(NewAllAccessPass(ticketId, ownerId, price), exId)
  {
  }

  /**
   * Upgrading an all-access pass with any exhibition id other than "ALL"
   * still appends the id and charges the extra price.
   */
  lemma AllAccessUpgradeCharges(ticketId: Id, ownerId: Id, price: int, exId: Id, extraPrice: int)
    requires exId != ALL
    ensures var u := UpgradeAddExhibition(NewAllAccessPass(ticketId, ownerId, price), exId, extraPrice);
            && u.granted
            && u.ticket.accessExhibitions == [ALL, exId]
            && u.ticket.price == price + extraPrice
  {
  }

  /** Position of the first occurrence of `x` in `s`. */
  function FirstIndex(s: seq<Id>, x: Id): (i: nat)
    requires x in s
    ensures i < |s| && s[i] == x && x !in s[..i]
  {
    if s[0] == x then 0
    else
      assert s == [s[0]] + s[1..];
      var i := FirstIndex(s[1..], x);
      assert s[..i + 1] == [s[0]] + s[1..][..i];
      i + 1
  }

  /**
   * `s.remove(x)` on a list known to contain `x`, and the list itself when it
   * does not: the first occurrence of `x` is dropped, the rest keep their order.
   */
  function RemoveFirst(s: seq<Id>, x: Id): (r: seq<Id>)
    ensures x !in s ==> r == s
    ensures x in s ==> |r| == |s| - 1
    ensures x in s ==> exists i :: 0 <= i < |s| && s[i] == x && x !in s[..i] && r == s[..i] + s[i + 1..]
    ensures multiset(r) == multiset(s) - multiset{x}
  {
    if x in s then
      var i := FirstIndex(s, x);
      assert s == s[..i] + [s[i]] + s[i + 1..];
      s[..i] + s[i + 1..]
    else
      s
  }

  /** Removing an id that was appended to a list not holding it gives the list back. */
  lemma RemoveFirstOfAppended(s: seq<Id>, x: Id)
    requires x !in s
    ensures RemoveFirst(s + [x], x) == s
  {
    assert (s + [x])[..|s|] == s;
  }

  datatype Status = Confirmed | Cancelled

  datatype Reservation = Reservation(resId: Id, ticketId: Id, wsId: Id, attendeeId: Id, status: Status)

  function NewReservation(resId: Id, ticketId: Id, wsId: Id, attendeeId: Id): Reservation
  {
    Reservation(resId, ticketId, wsId, attendeeId, Confirmed)
  }

  datatype Payment = Payment(payId: Id, ticketId: Id, amount: int, payMethod: string, timestamp: Timestamp)

  /** Python's `str.lower()`, restricted to ASCII letters. */
  function LowerChar(c: char): char
  {
    if 'A' <= c <= 'Z' then (c as int + 32) as char else c
  }

  function Lower(s: string): (r: string)
    ensures |r| == |s|
    ensures forall i :: 0 <= i < |s| ==> r[i] == LowerChar(s[i])
  {
    if s == [] then [] else [LowerChar(s[0])] + Lower(s[1..])
  }

  /** `a.email.lower() == email.lower()` */
  predicate EmailMatches(a: Attendee, email: string)
  {
    Lower(a.email) == Lower(email)
  }

  /** Matching ignores ASCII case: it is the same test for both spellings. */
  lemma EmailMatchIgnoresCase(a: Attendee, email: string)
    ensures EmailMatches(a, email) <==> EmailMatches(a, Lower(email))
  {
    LowerIdempotent(email);
  }

  lemma LowerIdempotent(s: string)
    ensures Lower(Lower(s)) == Lower(s)
  {
    var l := Lower(s);
    assert forall i :: 0 <= i < |l| ==> LowerChar(l[i]) == l[i];
  }
}

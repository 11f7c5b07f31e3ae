/**
  Support tickets and the ticket controller: listing scoped by role,
  lookup by id, creation on behalf of the caller, deletion, and the partial
  update that may change the status and prepends a dated entry to the admin
  note history.
*/
module Tickets {
  import opened Common
  import opened Sorting
  import opened Text

  /** The `status` enumeration of a ticket. */
  datatype Status = Open | InProgress | Resolved | Closed

  /** Mongoose's enum cast of a `status` string. */
  function ParseStatus(s: string): (r: Option<Status>)
    ensures r.Some? <==> s == "open" || s == "in_progress" || s == "resolved" || s == "closed"
  {
    if s == "open" then Some(Open)
    else if s == "in_progress" then Some(InProgress)
    else if s == "resolved" then Some(Resolved)
    else if s == "closed" then Some(Closed)
    else None
  }

  /** One Ticket document; `createdAt` and `updatedAt` come from the schema's timestamps. */
  datatype Ticket = Ticket(
    id: string,
    clientId: string,
    clientName: string,
    clientPhone: Option<string>,
    clientEmail: Option<string>,
    title: string,
    description: string,
    status: Status,
    adminNotes: string,
    createdAt: int,
    updatedAt: int)

  function CreatedAt(t: Ticket): int { t.createdAt }

  /** The fields `updateTicket` reads from the request body. */
  datatype UpdateBody = UpdateBody(status: Option<string>, adminNotes: Option<string>)

  /** The request body of `createTicket`, including the owner fields it overrides. */
  datatype TicketBody = TicketBody(
    clientId: Option<string>,
    clientName: Option<string>,
    clientPhone: Option<string>,
    clientEmail: Option<string>,
    title: Option<string>,
    description: Option<string>,
    status: Option<string>,
    adminNotes: Option<string>)

  /** A ticket's `_id`. */
  function TicketId(x: Ticket): string { x.id }

  ghost predicate UniqueIds(tickets: seq<Ticket>)
  {
    forall i, j :: 0 <= i < j < |tickets| ==> tickets[i].id != tickets[j].id
  }

  // ------------------------------------------------------------------
  // Reads
  // ------------------------------------------------------------------

  /** getTicketById: the ticket, or 404 exactly when no ticket has that id. */
  function GetTicketById(tickets: seq<Ticket>, id: string): (r: Result<Ticket>)
    ensures r.Err? <==> forall t :: t in tickets ==> t.id != id
    ensures r.Err? ==> r.error == NotFound
    ensures r.Ok? ==> r.value in tickets && r.value.id == id
  {
    var k := IndexOf(tickets, TicketId, id);
    if k.None? then Err(NotFound) else Ok(tickets[k.value])
  }

  /** `Ticket.find({ clientId })` in store order. */
  function OwnedBy(tickets: seq<Ticket>, clientId: string): (r: seq<Ticket>)
    ensures forall t :: multiset(r)[t] == if t.clientId == clientId then multiset(tickets)[t] else 0
  {
    if tickets == [] then []
    else
      assert tickets == [tickets[0]] + tickets[1..];
      if tickets[0].clientId == clientId then [tickets[0]] + OwnedBy(tickets[1..], clientId)
      else OwnedBy(tickets[1..], clientId)
  }

  /** getTickets: every ticket for an admin, the caller's own otherwise, newest first. */
  function GetTickets(tickets: seq<Ticket>, caller: Caller): seq<Ticket>
  {
    SortDesc(if caller.role == Admin then tickets else OwnedBy(tickets, caller.id), CreatedAt)
  }

  lemma GetTicketsScope(tickets: seq<Ticket>, caller: Caller)
    ensures var r := GetTickets(tickets, caller);
      && SortedDesc(r, CreatedAt)
      && (caller.role == Admin ==> multiset(r) == multiset(tickets))
      && (caller.role == Client ==> forall t :: multiset(r)[t] == if t.clientId == caller.id then multiset(tickets)[t] else 0)
      && (forall t :: t in r <==> t in tickets && (caller.role == Admin || t.clientId == caller.id))
  {
    var scoped := if caller.role == Admin then tickets else OwnedBy(tickets, caller.id);
    SortDescSorted(scoped, CreatedAt);
    var r := GetTickets(tickets, caller);
    forall t
      ensures t in r <==> t in tickets && (caller.role == Admin || t.clientId == caller.id)
    {
      assert t in r <==> t in multiset(r);
      assert t in tickets <==> t in multiset(tickets);
    }
  }

  // ------------------------------------------------------------------
  // Update
  // ------------------------------------------------------------------

  /** `adminNotes && adminNotes.trim() !== ""` */
  predicate NoteGiven(adminNotes: Option<string>)
  {
    adminNotes.Some? && Trim(adminNotes.value) != ""
  }

  /** The dated entry: `[<date>]: <trimmed note>`. */
  function NoteEntry(date: string, note: string): (e: string)
    ensures |e| == |date| + 4 + |Trim(note)| && e[0] == '['
    ensures e[1..|date| + 1] == date && e[|date| + 1..|date| + 4] == "]: "
    ensures e[|e| - |Trim(note)|..] == Trim(note)
  {
    var head := "[" + date + "]: ";
    var e := head + Trim(note);
    assert e[..|head|] == head;
    assert head[1..|date| + 1] == date;
    assert head[|date| + 1..] == "]: ";
    assert e[|head|..] == Trim(note);
    e
  }

  /**
    The ticket `findByIdAndUpdate` returns after `$set: updateData`: the
    status when a truthy one is given, the note history with a new dated
    entry on top when a non-blank note is given, and `updatedAt` refreshed
    by the schema's timestamps. A status outside the enumeration fails the
    update validators (answered 500).
  */
  function UpdatedTicket(t: Ticket, body: UpdateBody, date: string, now: int): (r: Result<Ticket>)
    ensures r.Err? <==> Truthy(body.status) && ParseStatus(body.status.value).None?
    ensures r.Err? ==> r.error == ServerError
    ensures r.Ok? ==> r.value.(status := t.status, adminNotes := t.adminNotes, updatedAt := t.updatedAt) == t
    ensures r.Ok? ==> r.value.updatedAt == now
    ensures r.Ok? && !Truthy(body.status) ==> r.value.status == t.status
    ensures r.Ok? && Truthy(body.status) ==> Some(r.value.status) == ParseStatus(body.status.value)
    ensures r.Ok? && !NoteGiven(body.adminNotes) ==> r.value.adminNotes == t.adminNotes
    ensures r.Ok? && NoteGiven(body.adminNotes) ==>
      r.value.adminNotes == Prepend(NoteEntry(date, body.adminNotes.value), t.adminNotes)
  {
    var status := if Truthy(body.status) then ParseStatus(body.status.value) else Some(t.status);
    if status.None? then Err(ServerError)
    else
      var notes := if NoteGiven(body.adminNotes) then Prepend(NoteEntry(date, body.adminNotes.value), t.adminNotes)
                   else t.adminNotes;
      Ok(t.(status := status.value, adminNotes := notes, updatedAt := now))
  }

  /**
    A single note update never loses history: the old notes survive as the
    tail of the new ones, after a blank line, and the new entry heads them.
    (Two updates racing on the same ticket can; see README.)
  */
  lemma NoteHistoryPreserved(t: Ticket, body: UpdateBody, date: string, now: int)
    requires UpdatedTicket(t, body, date, now).Ok?
    ensures var notes := UpdatedTicket(t, body, date, now).value.adminNotes;
      && |notes| >= |t.adminNotes|
      && notes[|notes| - |t.adminNotes|..] == t.adminNotes
      && (NoteGiven(body.adminNotes) ==>
            var e := NoteEntry(date, body.adminNotes.value);
            notes[..|e|] == e && (t.adminNotes != "" ==> notes[|e|..|e| + 2] == Separator))
  {
    var given := NoteGiven(body.adminNotes);
    var e := if given then NoteEntry(date, body.adminNotes.value) else "";
    NotesKeepHistory(UpdatedTicket(t, body, date, now).value.adminNotes, t.adminNotes, given, e);
  }

  /** The notes after an update, whether or not an entry `e` was prepended. */
  lemma NotesKeepHistory(notes: string, history: string, given: bool, e: string)
    requires given ==> notes == Prepend(e, history)
    requires !given ==> notes == history
    ensures && |notes| >= |history|
      && notes[|notes| - |history|..] == history
      && (given ==> notes[..|e|] == e && (history != "" ==> notes[|e|..|e| + 2] == Separator))
  {
    if given {
      PrependKeepsHistory(e, history);
    } else {
      assert notes[|notes| - |history|..] == notes[0..];
    }
  }

  /**
    Read as a list of entries, newest first, the note history grows by
    exactly one entry on top with each non-blank note.
  */
  lemma UpdateExtendsHistory(t: Ticket, body: UpdateBody, date: string, now: int, entries: seq<string>)
    requires t.adminNotes == JoinNotes(entries) && forall e :: e in entries ==> e != ""
    ensures UpdatedTicket(t, body, date, now).Ok? && NoteGiven(body.adminNotes) ==>
      UpdatedTicket(t, body, date, now).value.adminNotes
        == JoinNotes([NoteEntry(date, body.adminNotes.value)] + entries)
  {
    if NoteGiven(body.adminNotes) {
      PrependIsJoin(NoteEntry(date, body.adminNotes.value), entries);
    }
  }

  // ------------------------------------------------------------------
  // Create
  // ------------------------------------------------------------------

  /** Mongoose's `required` on a string: present and not "". */
  predicate Required(s: Option<string>)
  {
    Truthy(s)
  }

  /**
    The document `Ticket.create({ ...req.body, clientId, clientName })`
    stores: owner fields always from the caller, the rest from the body,
    status defaulting to 'open' and notes to "". A missing required field or
    a status outside the enumeration fails validation (answered 500).
  */
  function NewTicket(caller: Caller, body: TicketBody, id: string, now: int): (r: Result<Ticket>)
    ensures r.Ok? <==>
      && caller.name != "" && Required(body.title) && Required(body.description)
      && (body.status.None? || ParseStatus(body.status.value).Some?)
    ensures r.Err? ==> r.error == ServerError
    ensures r.Ok? ==>
      && r.value.id == id
      && r.value.clientId == caller.id && r.value.clientName == caller.name
      && r.value.clientPhone == body.clientPhone && r.value.clientEmail == body.clientEmail
      && r.value.title == body.title.value && r.value.description == body.description.value
      && (body.status.None? ==> r.value.status == Open)
      && (body.status.Some? ==> Some(r.value.status) == ParseStatus(body.status.value))
      && r.value.adminNotes == body.adminNotes.GetOr("")
      && r.value.createdAt == now && r.value.updatedAt == now
  {
    var status := if body.status.Some? then ParseStatus(body.status.value) else Some(Open);
    if caller.name == "" || !Required(body.title) || !Required(body.description) || status.None? then
      Err(ServerError)
    else
      Ok(Ticket(id, caller.id, caller.name, body.clientPhone, body.clientEmail, body.title.value,
                body.description.value, status.value, body.adminNotes.GetOr(""), now, now))
  }

  /** Whatever owner the body names, the ticket is the caller's. */
  lemma OwnerComesFromCaller(caller: Caller, body: TicketBody, id: string, now: int, otherId: Option<string>, otherName: Option<string>)
    ensures NewTicket(caller, body.(clientId := otherId, clientName := otherName), id, now) == NewTicket(caller, body, id, now)
  {
  }

  // ------------------------------------------------------------------
  // Delete
  // ------------------------------------------------------------------

  /** The collection after `findByIdAndDelete(id)`. */
  function Without(tickets: seq<Ticket>, id: string): (r: seq<Ticket>)
    ensures forall t :: t in r <==> t in tickets && t.id != id
    ensures |r| <= |tickets|
    ensures (forall t :: t in tickets ==> t.id != id) ==> r == tickets
  {
    if tickets == [] then []
    else
      assert tickets == [tickets[0]] + tickets[1..];
      if tickets[0].id == id then Without(tickets[1..], id)
      else [tickets[0]] + Without(tickets[1..], id)
  }

  lemma {:induction false} WithoutKeepsUnique(tickets: seq<Ticket>, id: string)
    requires UniqueIds(tickets)
    ensures UniqueIds(Without(tickets, id))
  {
    if tickets != [] {
      WithoutKeepsUnique(tickets[1..], id);
      var rest := Without(tickets[1..], id);
      if tickets[0].id != id {
        assert forall t :: t in rest ==> t.id != tickets[0].id;
      }
    }
  }

  /** The notes `updateTicket` writes: the dated entry on top of the old ones when a note is given. */
  function UpdatedNotes(t: Ticket, body: UpdateBody, date: string): string
  {
    if NoteGiven(body.adminNotes) then Prepend(NoteEntry(date, body.adminNotes.value), t.adminNotes)
    else t.adminNotes
  }

  /** Appending a ticket whose id no stored ticket has keeps ids unique. */
  lemma AppendKeepsUnique(tickets: seq<Ticket>, t: Ticket)
    requires UniqueIds(tickets) && forall x :: x in tickets ==> TicketId(x) != t.id
    ensures UniqueIds(tickets + [t])
  {
    var s := tickets + [t];
    forall i, j | 0 <= i < j < |s|
      ensures s[i].id != s[j].id
    {
      assert s[i] == tickets[i];
      if j == |tickets| {
        assert TicketId(tickets[i]) != t.id;
      }
    }
  }

  /** Replacing a ticket by one with the same id keeps ids unique. */
  lemma ReplaceKeepsUnique(tickets: seq<Ticket>, k: nat, t: Ticket)
    requires k < |tickets| && t.id == tickets[k].id && UniqueIds(tickets)
    ensures UniqueIds(tickets[k := t])
  {
    var s := tickets[k := t];
    assert forall i :: 0 <= i < |s| ==> s[i].id == tickets[i].id;
  }

  // ------------------------------------------------------------------
  // The collection
  // ------------------------------------------------------------------

  /** The Ticket collection, in insertion order. */
  class TicketStore {
    var tickets: seq<Ticket>

    ghost predicate Valid()
      reads this
    {
      UniqueIds(tickets)
    }

    constructor ()
      ensures Valid() && tickets == []
    {
      tickets := [];
    }

    /**
      updateTicket: 404 and nothing changes when the id is unknown;
      otherwise the stored ticket is replaced by its updated version, or left
      alone when validation fails.
    */
    method UpdateTicket(id: string, body: UpdateBody, date: string, now: int) returns (r: Result<Ticket>)
      requires Valid()
      modifies this
      ensures Valid()
      ensures IndexOf(old(tickets), TicketId, id).None? ==> r == Err(NotFound) && tickets == old(tickets)
      ensures IndexOf(old(tickets), TicketId, id).Some? ==>
        var k := IndexOf(old(tickets), TicketId, id).value;
        && r == UpdatedTicket(old(tickets)[k], body, date, now)
        && (r.Ok? ==> tickets == old(tickets)[k := r.value])
        && (r.Err? ==> tickets == old(tickets))
    {
      var k := IndexOf(tickets, TicketId, id);
      if k.None? {
        return Err(NotFound);
      }
      var ticket := tickets[k.value];
      var newStatus := Some(ticket.status);
      if Truthy(body.status) {
        newStatus := ParseStatus(body.status.value);
      }
      var newNotes := ticket.adminNotes;
      if NoteGiven(body.adminNotes) {
        var entry := NoteEntry(date, body.adminNotes.value);
        newNotes := if ticket.adminNotes != "" then entry + Separator + ticket.adminNotes else entry;
      }
      assert newNotes == UpdatedNotes(ticket, body, date);
      if newStatus.None? {
        return Err(ServerError);
      }
      var updated := ticket.(status := newStatus.value, adminNotes := newNotes, updatedAt := now);
      assert UpdatedTicket(ticket, body, date, now) == Ok(updated);
      ReplaceKeepsUnique(tickets, k.value, updated);
      tickets := tickets[k.value := updated];
      r := Ok(updated);
    }

    /**
      createTicket: stores the new ticket under a fresh id; an id already
      taken is a duplicate key (answered 500) and stores nothing.
    */
    method CreateTicket(caller: Caller, body: TicketBody, newId: string, now: int) returns (r: Result<Ticket>)
      requires Valid()
      modifies this
      ensures Valid()
      ensures IndexOf(old(tickets), TicketId, newId).Some? ==> r == Err(ServerError) && tickets == old(tickets)
      ensures IndexOf(old(tickets), TicketId, newId).None? ==> r == NewTicket(caller, body, newId, now)
      ensures r.Ok? ==> tickets == old(tickets) + [r.value]
      ensures r.Err? ==> tickets == old(tickets)
    {
      if IndexOf(tickets, TicketId, newId).Some? {
        return Err(ServerError);
      }
      r := NewTicket(caller, body, newId, now);
      if r.Ok? {
        AppendKeepsUnique(tickets, r.value);
        tickets := tickets + [r.value];
      }
    }

    /** deleteTicket: removes the ticket with that id, if there is one, and always succeeds. */
    method DeleteTicket(id: string)
      requires Valid()
      modifies this
      ensures Valid()
      ensures tickets == Without(old(tickets), id)
    {
      WithoutKeepsUnique(tickets, id);
      tickets := Without(tickets, id);
    }
  }
}

/**
 * Booked tickets: one ticket's rendering, the list's rendering, and the copy-on-write
 * `add`, `update` and `delete` operations. Every operation returns a new `Tickets`
 * value; the receiver is a value too, so it cannot change.
 */
module Booking {
  import Strings

  datatype OperationType = Create | Update | Delete | Read {
    function Value(): string {
      match this
      case Create => "create"
      case Update => "update"
      case Delete => "delete"
      case Read => "read"
    }
  }

  datatype TicketInformation = TicketInformation(
    transport: string,
    departureTime: string,
    destination: string,
    bookingReference: string)
  {
    /** `content`: the four fields, labelled and separated by `", "`. */
    function Content(): (r: string)
      ensures Strings.StartsWith(r, "Transport: " + transport + ", Departure Time: ")
      ensures Strings.EndsWith(r, ", Booking Reference: " + bookingReference)
    {
      "Transport: " + transport + ", Departure Time: " + departureTime
      + ", Destination: " + destination + ", Booking Reference: " + bookingReference
    }
  }

  /** The list without any ticket equal to `t`, the rest in order. */
  function Without(s: seq<TicketInformation>, t: TicketInformation): (r: seq<TicketInformation>)
    ensures forall x :: x in r <==> x in s && x != t
    ensures multiset(r) == multiset(s)[t := 0]
  {
    if s == [] then []
    else
      assert s == [s[0]] + s[1..];
      (if s[0] == t then [] else [s[0]]) + Without(s[1..], t)
  }

  /** Filtering keeps the relative order: it distributes over concatenation. */
  lemma {:induction false} WithoutConcat(a: seq<TicketInformation>, b: seq<TicketInformation>, t: TicketInformation)
    ensures Without(a + b, t) == Without(a, t) + Without(b, t)
  {
    if a == [] {
      assert a + b == b;
    } else {
      assert (a + b)[1..] == a[1..] + b;
      WithoutConcat(a[1..], b, t);
    }
  }

  /** Filtering out a ticket that is not there changes nothing. */
  lemma {:induction false} WithoutAbsent(s: seq<TicketInformation>, t: TicketInformation)
    requires t !in s
    ensures Without(s, t) == s
  {
    if s != [] {
      WithoutAbsent(s[1..], t);
    }
  }

  function Contents(root: seq<TicketInformation>): (r: seq<string>)
    ensures |r| == |root| && forall i :: 0 <= i < |root| ==> r[i] == root[i].Content()
  {
    seq(|root|, i requires 0 <= i < |root| => root[i].Content())
  }

  datatype Tickets = Tickets(root: seq<TicketInformation>) {
    /** `content`: one ticket per line, in list order. */
    function Content(): string {
      Strings.Join(Contents(root), "\n")
    }

    /** `add`: a copy with `ticket` appended at the end. */
    function Add(ticket: TicketInformation): (r: Tickets)
      ensures |r.root| == |root| + 1 && r.root[..|root|] == root && r.root[|root|] == ticket
    {
      Tickets(root + [ticket])
    }

    /** `update`: a copy without any ticket equal to `original`, with `updated` appended at the end. */
    function Update(original: TicketInformation, updated: TicketInformation): (r: Tickets)
      ensures |r.root| > 0 && r.root[|r.root| - 1] == updated
      ensures multiset(r.root) == multiset(root)[original := 0] + multiset{updated}
    {
      Tickets(Without(root, original) + [updated])
    }

    /** `delete`: a copy without any ticket equal to `original`, the others in order. */
    function Delete(original: TicketInformation): (r: Tickets)
      ensures original !in r.root
      ensures forall x :: x in r.root <==> x in root && x != original
      ensures multiset(r.root) == multiset(root)[original := 0]
    {
      Tickets(Without(root, original))
    }
  }

  /** Rendering after `add` appends one line, or is that ticket's line alone for an empty list. */
  lemma AddContent(ts: Tickets, t: TicketInformation)
    ensures ts.Add(t).Content() ==
      if ts.root == [] then t.Content() else ts.Content() + "\n" + t.Content()
  {
    assert Contents(ts.root + [t]) == Contents(ts.root) + [t.Content()];
    if ts.root != [] {
      Strings.JoinSnoc(Contents(ts.root), t.Content(), "\n");
    }
  }

  /** `update` is `delete` of the original followed by `add` of the updated ticket. */
  lemma UpdateIsDeleteThenAdd(ts: Tickets, original: TicketInformation, updated: TicketInformation)
    ensures ts.Update(original, updated) == ts.Delete(original).Add(updated)
  {
  }

  /** `update` of a ticket that is not booked still appends the updated one; `delete` of it is a no-op. */
  lemma AbsentOriginal(ts: Tickets, original: TicketInformation, updated: TicketInformation)
    requires original !in ts.root
    ensures ts.Update(original, updated) == ts.Add(updated)
    ensures ts.Delete(original) == ts
  {
    WithoutAbsent(ts.root, original);
  }

  /** Deleting twice is deleting once, and deleting after adding the same ticket undoes the add. */
  lemma DeleteProperties(ts: Tickets, t: TicketInformation)
    ensures ts.Delete(t).Delete(t) == ts.Delete(t)
    ensures ts.Add(t).Delete(t) == ts.Delete(t)
  {
    WithoutAbsent(Without(ts.root, t), t);
    WithoutConcat(ts.root, [t], t);
    assert Without([t], t) == [];
  }
}

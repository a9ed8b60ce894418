/**
 * The ticket service over the in-memory repository: a map from id to the
 * ticket objects, which the operations read, extend and update in place.
 */
module Service {
  import opened Lines
  import opened Tickets
  import opened LineOrder
  import opened Workflow

  /**
   * A non-empty set of ids has a member to pick. This only supplies the
   * witness for the choice of the next id in GetAllTickets.
   */
  lemma NonEmptyHasMember(s: set<int>)
    requires s != {}
    ensures exists k :: k in s
  {
    if forall k :: k !in s {
      assert false;
    }
  }

  class TicketService {
    /** The repository's map from ticket id to ticket. */
    var tickets: map<int, Ticket>

    /** The value of every stored ticket, by id. */
    ghost function View(): Store
      reads this, tickets.Values
    {
      map k | k in tickets :: tickets[k].View()
    }

    /** Every ticket object is stored under its own id. */
    ghost predicate KeyedById()
      reads this, tickets.Values
    {
      forall k | k in tickets :: tickets[k].id == k
    }

    /** Keyed by id, every id in range, every line well formed. */
    ghost predicate Valid()
      reads this, tickets.Values
    {
      KeyedById() && StoreValid(View())
    }

    /** The repository starts empty. */
    constructor ()
      ensures Valid() && tickets == map[] && View() == map[]
    {
      tickets := map[];
    }

    /**
     * One line per draw for the first count draws, in draw order; the draws
     * stand for the three random numbers in [0,2] taken for each line.
     */
    method GenerateLines(count: int, draws: seq<Draw>) returns (lines: seq<Line>)
      requires count <= |draws| && DrawsInRange(draws)
      ensures lines == Generated(count, draws)
    {
      lines := [];
      var i := 0;
      while i < count
        invariant 0 <= i <= Max0(count)
        invariant |lines| == i
        invariant forall j :: 0 <= j < i ==> lines[j] == DrawLine(draws[j])
      {
        lines := lines + [DrawLine(draws[i])];
        i := i + 1;
      }
      assert DrawsInRange(draws[..i]);
    }

    /** The stored ticket object under id, or TicketNotFound. */
    method GetTicketOrThrow(id: int) returns (r: Result<Ticket>)
      ensures r.Success? <==> id in tickets
      ensures r.Success? ==> r.value == tickets[id]
      ensures r.Failure? ==> r.error == TicketNotFound
    {
      if id in tickets {
        r := Success(tickets[id]);
      } else {
        r := Failure(TicketNotFound);
      }
    }

    /** The lookup step on the stored values, answered with the stored object itself. */
    method GetTicketById(id: int) returns (r: Result<Ticket>)
      ensures r.Success? <==> id in tickets
      ensures r.Success? ==> r.value == tickets[id]
      ensures r.Failure? ==> r.error == TicketNotFound
      ensures var st := GetStep(View(), id);
        && (r.Success? <==> st.reply.Success?)
        && (r.Success? ==> st.reply.value == r.value.View())
        && (r.Failure? ==> st.reply == Failure(r.error))
    {
      r := GetTicketOrThrow(id);
    }

    /**
     * Every stored ticket exactly once, in no particular order: as many as
     * there are entries, each the ticket stored under its own id.
     */
    method GetAllTickets() returns (all: seq<Ticket>)
      requires KeyedById()
      ensures |all| == |tickets|
      ensures forall k :: k in tickets ==> tickets[k] in all
      ensures forall t :: t in all ==> t.id in tickets && tickets[t.id] == t
    {
      all := [];
      var left := tickets.Keys;
      ghost var done: set<int> := {};
      while left != {}
        invariant left !! done && left + done == tickets.Keys
        invariant |all| == |done|
        invariant forall i :: 0 <= i < |all| ==> all[i].id in done && tickets[all[i].id] == all[i]
        invariant forall k :: k in done ==> tickets[k] in all
        decreases |left|
      {
        NonEmptyHasMember(left);
        var k :| k in left;
        all := all + [tickets[k]];
        left := left - {k};
        done := done + {k};
      }
    }

    /**
     * A new ticket under the drawn id, holding the lines generated from the
     * draws, stored under that id (replacing whatever was there).
     */
    method CreateTicket(lineCount: int, id: int, draws: seq<Draw>) returns (t: Ticket)
      requires Valid()
      requires MinId <= id <= MaxId && lineCount <= |draws| && DrawsInRange(draws)
      modifies this
      ensures Valid() && fresh(t)
      ensures tickets == old(tickets)[id := t]
      ensures var st := CreateStep(old(View()), id, Generated(lineCount, draws));
        View() == st.store && st.reply == Success(t.View())
    {
      t := new Ticket(id);
      var lines := GenerateLines(lineCount, draws);
      t.AddLines(lines);
      assert [] + lines == lines;
      tickets := tickets[id := t];
      assert View() == Apply(old(View()), CreateOp(id, lines)).store;
      ApplyPreservesValid(old(View()), CreateOp(id, lines));
    }

    /**
     * Appends the generated lines to the ticket under id and returns it; fails
     * with TicketNotFound or, for a checked ticket, NotModifiable.
     */
    method AddLines(id: int, lineCount: int, draws: seq<Draw>) returns (r: Result<Ticket>)
      requires Valid()
      requires lineCount <= |draws| && DrawsInRange(draws)
      modifies tickets.Values
      ensures Valid() && tickets == old(tickets)
      ensures var st := AddLinesStep(old(View()), id, Generated(lineCount, draws));
        && View() == st.store
        && (r.Success? <==> st.reply.Success?)
        && (r.Success? ==> r.value == tickets[id] && st.reply.value == r.value.View())
        && (r.Failure? ==> st.reply == Failure(r.error))
    {
      r := GetTicketOrThrow(id);
      if r.Failure? {
        return;
      }
      var t := r.value;
      if t.checked {
        r := Failure(NotModifiable);
        return;
      }
      var lines := GenerateLines(lineCount, draws);
      assert forall k | k in tickets && k != id :: tickets[k] != t by {
        assert forall k | k in tickets :: View()[k].id == k;
      }
      ghost var before := View();
      t.AddLines(lines);
      assert View() == before[id := t.View()] by {
        forall k | k in tickets && k != id ensures View()[k] == before[k] {
          assert tickets[k] != t;
        }
      }
      ApplyPreservesValid(before, AddLinesOp(id, lines));
    }

    /**
     * Marks the ticket under id as checked and re-orders its lines, highest
     * result first; fails with TicketNotFound.
     */
    method CheckTicketStatus(id: int) returns (r: Result<Ticket>)
      requires Valid()
      modifies tickets.Values
      ensures Valid() && tickets == old(tickets)
      ensures var st := CheckStep(old(View()), id);
        && View() == st.store
        && (r.Success? <==> st.reply.Success?)
        && (r.Success? ==> r.value == tickets[id] && st.reply.value == r.value.View())
        && (r.Failure? ==> st.reply == Failure(r.error))
    {
      r := GetTicketOrThrow(id);
      if r.Failure? {
        return;
      }
      var t := r.value;
      assert forall k | k in tickets && k != id :: tickets[k] != t by {
        assert forall k | k in tickets :: View()[k].id == k;
      }
      ghost var before := View();
      t.checked := true;
      t.lines := SortByResultDesc(t.lines);
      assert View() == before[id := t.View()] by {
        forall k | k in tickets && k != id ensures View()[k] == before[k] {
          assert tickets[k] != t;
        }
      }
      ApplyPreservesValid(before, CheckOp(id));
    }
  }

  /**
   * The end-to-end run on a fresh service: create a ticket with 3 lines, add 2,
   * check it, try to add 1 more, and check an id that was never created.
   */
  method EndToEnd(id: int, other: int, first: seq<Draw>, second: seq<Draw>, third: seq<Draw>)
    returns (created: nat, updated: nat, sorted: bool, refused: Result<Ticket>, lookup: Result<Ticket>)
    requires MinId <= id <= MaxId && other != id
    requires |first| == 3 && |second| == 2 && |third| == 1
    requires DrawsInRange(first) && DrawsInRange(second) && DrawsInRange(third)
    ensures created == 3 && updated == 5 && sorted
    ensures refused == Failure(NotModifiable) && lookup == Failure(TicketNotFound)
  {
    var service := new TicketService();
    var t := service.CreateTicket(3, id, first);
    assert service.tickets.Values == {t};
    created := |t.lines|;
    var added := service.AddLines(id, 2, second);
    updated := |t.lines|;
    var checked := service.CheckTicketStatus(id);
    sorted := t.checked && SortedDesc(t.lines);
    refused := service.AddLines(id, 1, third);
    lookup := service.CheckTicketStatus(other);
  }
}

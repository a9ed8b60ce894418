/** The ticket entity: an id, its lines in order, and whether it has been checked. */
module Tickets {
  import opened Lines

  /** The range random ticket ids are drawn from. */
  const MinId := 1000
  const MaxId := 9999

  /** The value of a ticket's fields at one moment. */
  datatype TicketView = TicketView(id: int, lines: seq<Line>, checked: bool)

  class Ticket {
    var id: int
    var lines: seq<Line>
    var checked: bool

    /** The ticket's fields as a value. */
    function View(): TicketView
      reads this
    {
      TicketView(id, lines, checked)
    }

    /** A new ticket, under an id drawn from [MinId, MaxId], with no lines and unchecked. */
    constructor (id: int)
      requires MinId <= id <= MaxId
      ensures View() == TicketView(id, [], false)
    {
      this.id := id;
      lines := [];
      checked := false;
    }

    /**
     * Appends newLines after the existing lines. The checked flag is not
     * consulted here: freezing a checked ticket is the service's job.
     */
    method AddLines(newLines: seq<Line>)
      modifies this
      ensures lines == old(lines) + newLines
      ensures id == old(id) && checked == old(checked)
    {
      lines := lines + newLines;
    }
  }

  /** What an append does to a ticket's value, as the method above performs it. */
  function Appended(t: TicketView, newLines: seq<Line>): (u: TicketView)
    ensures u.id == t.id && u.checked == t.checked
    ensures |u.lines| == |t.lines| + |newLines|
    ensures u.lines[..|t.lines|] == t.lines && u.lines[|t.lines|..] == newLines
  {
    t.(lines := t.lines + newLines)
  }

  /** Appending nothing leaves the ticket as it was. */
  lemma AppendNothing(t: TicketView)
    ensures Appended(t, []) == t
  {
    assert t.lines + [] == t.lines;
  }

  /** Two appends in a row are one append of both batches, in order. */
  lemma AppendTwice(t: TicketView, xs: seq<Line>, ys: seq<Line>)
    ensures Appended(Appended(t, xs), ys) == Appended(t, xs + ys)
  {
    assert t.lines + xs + ys == t.lines + (xs + ys);
  }
}

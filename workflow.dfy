/**
 * The ticket workflow on values: what each service operation does to the
 * store (id to ticket) and what it answers, and what holds across runs of them.
 */
module Workflow {
  import opened Lines
  import opened Tickets
  import opened LineOrder

  /** The service's error codes. */
  datatype ErrorCode =
    | TicketNotFound
    | InvalidInput
    | NotModifiable
    | TicketNotCreated
    | InternalServerError

  /** A value, or the error code the operation throws instead. */
  datatype Result<T> = Success(value: T) | Failure(error: ErrorCode)

  /** The ticket repository: tickets by id. */
  type Store = map<int, TicketView>

  /** What one operation answers, and the store it leaves. */
  datatype Step = Step(reply: Result<TicketView>, store: Store)

  function Max0(n: int): nat {
    if n < 0 then 0 else n
  }

  /**
   * The lines generateLines(count) builds: one per draw, for the first count
   * draws; none when count is not positive.
   */
  function Generated(count: int, draws: seq<Draw>): (ls: seq<Line>)
    requires count <= |draws| && DrawsInRange(draws)
    ensures |ls| == Max0(count) && LinesWellFormed(ls)
    ensures forall i :: 0 <= i < |ls| ==> ls[i].numbers == [draws[i].n1, draws[i].n2, draws[i].n3]
  {
    assert DrawsInRange(draws[..Max0(count)]);
    LinesFrom(draws[..Max0(count)])
  }

  /**
   * An id in range and well-formed lines; a checked ticket's lines are in
   * descending order, since checking is the only way to set the flag and it
   * sorts the lines at the same time.
   */
  predicate TicketValid(t: TicketView) {
    && MinId <= t.id <= MaxId
    && LinesWellFormed(t.lines)
    && (t.checked ==> SortedDesc(t.lines))
  }

  /** Every ticket is stored under its own id and is valid. */
  predicate StoreValid(s: Store) {
    forall k | k in s :: s[k].id == k && TicketValid(s[k])
  }

  /**
   * createTicket: a new unchecked ticket holding the given lines, stored under
   * its id. An entry already under that id is replaced; nothing else changes.
   */
  function CreateStep(s: Store, id: int, lines: seq<Line>): (st: Step)
    ensures id in st.store && st.reply == Success(st.store[id])
    ensures st.store[id] == TicketView(id, lines, false)
    ensures st.store.Keys == s.Keys + {id}
    ensures forall k | k in s && k != id :: st.store[k] == s[k]
  {
    var t := TicketView(id, lines, false);
    Step(Success(t), s[id := t])
  }

  /** getTicketById (and getTicketOrThrow): the stored ticket, or TicketNotFound. */
  function GetStep(s: Store, id: int): (st: Step)
    ensures st.store == s
    ensures st.reply.Success? <==> id in s
    ensures st.reply.Success? ==> st.reply.value == s[id]
    ensures st.reply.Failure? ==> st.reply.error == TicketNotFound
  {
    if id in s then Step(Success(s[id]), s) else Step(Failure(TicketNotFound), s)
  }

  /**
   * addLines: TicketNotFound for an unknown id, NotModifiable for a checked
   * ticket (both leave the store alone); otherwise the new lines go after the
   * old ones and nothing else changes.
   */
  function AddLinesStep(s: Store, id: int, newLines: seq<Line>): (st: Step)
    ensures id !in s ==> st == Step(Failure(TicketNotFound), s)
    ensures id in s && s[id].checked ==> st == Step(Failure(NotModifiable), s)
    ensures id in s && !s[id].checked ==>
      && st.store.Keys == s.Keys
      && (forall k | k in s && k != id :: st.store[k] == s[k])
      && st.store[id].id == s[id].id
      && !st.store[id].checked
      && |st.store[id].lines| == |s[id].lines| + |newLines|
      && st.store[id].lines[..|s[id].lines|] == s[id].lines
      && st.store[id].lines[|s[id].lines|..] == newLines
      && st.reply == Success(st.store[id])
  {
    if id !in s then Step(Failure(TicketNotFound), s)
    else if s[id].checked then Step(Failure(NotModifiable), s)
    else
      var t := Appended(s[id], newLines);
      Step(Success(t), s[id := t])
  }

  /**
   * checkTicketStatus: TicketNotFound for an unknown id; otherwise the ticket
   * becomes checked and its lines are stably re-ordered by result, highest first.
   */
  function CheckStep(s: Store, id: int): (st: Step)
    ensures id !in s ==> st == Step(Failure(TicketNotFound), s)
    ensures id in s ==>
      && st.store.Keys == s.Keys
      && (forall k | k in s && k != id :: st.store[k] == s[k])
      && st.store[id].id == s[id].id
      && st.store[id].checked
      && StablyRanked(s[id].lines, st.store[id].lines)
      && st.reply == Success(st.store[id])
  {
    if id !in s then Step(Failure(TicketNotFound), s)
    else
      SortRanks(s[id].lines);
      var t := s[id].(checked := true, lines := SortByResultDesc(s[id].lines));
      Step(Success(t), s[id := t])
  }

  /** One request to the service, with its random inputs already drawn. */
  datatype Op =
    | CreateOp(id: int, lines: seq<Line>)
    | GetOp(id: int)
    | AddLinesOp(id: int, lines: seq<Line>)
    | CheckOp(id: int)
  {
    /** The inputs the random sources can produce. */
    predicate Valid() {
      match this
      case CreateOp(id, ls) => MinId <= id <= MaxId && LinesWellFormed(ls)
      case AddLinesOp(_, ls) => LinesWellFormed(ls)
      case _ => true
    }
  }

  function Apply(s: Store, op: Op): Step {
    match op
    case CreateOp(id, ls) => CreateStep(s, id, ls)
    case GetOp(id) => GetStep(s, id)
    case AddLinesOp(id, ls) => AddLinesStep(s, id, ls)
    case CheckOp(id) => CheckStep(s, id)
  }

  /** The store after a run of requests, in order. */
  function Run(s: Store, ops: seq<Op>): Store
    decreases |ops|
  {
    if ops == [] then s else Run(Apply(s, ops[0]).store, ops[1..])
  }

  predicate OpsValid(ops: seq<Op>) {
    forall i :: 0 <= i < |ops| ==> ops[i].Valid()
  }

  /** No request in ops creates a ticket under id. */
  predicate NoCreateAt(ops: seq<Op>, id: int) {
    forall i :: 0 <= i < |ops| ==> !(ops[i].CreateOp? && ops[i].id == id)
  }

  /** Re-ordering lines keeps them well formed. */
  lemma PermutedWellFormed(s: seq<Line>, r: seq<Line>)
    requires LinesWellFormed(s) && multiset(r) == multiset(s)
    ensures LinesWellFormed(r)
  {
    forall i | 0 <= i < |r| ensures r[i].WellFormed() {
      assert r[i] in multiset(s);
      var j :| 0 <= j < |s| && s[j] == r[i];
    }
  }

  /** Every operation keeps the store valid, given inputs the random sources can produce. */
  lemma ApplyPreservesValid(s: Store, op: Op)
    requires StoreValid(s) && op.Valid()
    ensures StoreValid(Apply(s, op).store)
  {
    match op
    case CreateOp(id, ls) =>
    case GetOp(id) =>
    case AddLinesOp(id, ls) =>
      if id in s && !s[id].checked {
        var u := Apply(s, op).store[id];
        forall i | 0 <= i < |u.lines| ensures u.lines[i].WellFormed() {
          if i < |s[id].lines| {
            assert u.lines[i] == u.lines[..|s[id].lines|][i];
          } else {
            assert u.lines[i] == u.lines[|s[id].lines|..][i - |s[id].lines|];
          }
        }
      }
    case CheckOp(id) =>
      if id in s {
        PermutedWellFormed(s[id].lines, Apply(s, op).store[id].lines);
      }
  }

  lemma {:induction false} RunPreservesValid(s: Store, ops: seq<Op>)
    requires StoreValid(s) && OpsValid(ops)
    ensures StoreValid(Run(s, ops))
    decreases |ops|
  {
    if ops != [] {
      ApplyPreservesValid(s, ops[0]);
      RunPreservesValid(Apply(s, ops[0]).store, ops[1..]);
    }
  }

  /** Tickets are never removed: every id stays in the store. */
  lemma {:induction false} RunKeepsIds(s: Store, ops: seq<Op>)
    ensures s.Keys <= Run(s, ops).Keys
    decreases |ops|
  {
    if ops != [] {
      RunKeepsIds(Apply(s, ops[0]).store, ops[1..]);
    }
  }

  /**
   * A checked ticket whose lines are in order is left exactly as it is by
   * every operation except a createTicket under its id.
   */
  lemma {:induction false} FrozenTicketUnchanged(s: Store, ops: seq<Op>, id: int)
    requires id in s && s[id].checked && SortedDesc(s[id].lines) && NoCreateAt(ops, id)
    ensures id in Run(s, ops) && Run(s, ops)[id] == s[id]
    decreases |ops|
  {
    if ops != [] {
      var next := Apply(s, ops[0]).store;
      assert id in next && next[id] == s[id] by {
        if ops[0].CheckOp? && ops[0].id == id {
          SortKeepsSorted(s[id].lines);
        }
      }
      assert NoCreateAt(ops[1..], id) by {
        forall i | 0 <= i < |ops| - 1 ensures !(ops[1..][i].CreateOp? && ops[1..][i].id == id) {
          assert ops[1..][i] == ops[i + 1];
        }
      }
      FrozenTicketUnchanged(next, ops[1..], id);
    }
  }

  /**
   * Once checked, a ticket stays checked, keeps exactly its lines in their
   * order, and refuses every further addLines with NotModifiable, unless a
   * later createTicket draws the same id.
   */
  lemma CheckedStaysFrozen(s: Store, ops: seq<Op>, id: int, more: seq<Line>)
    requires StoreValid(s) && id in s && s[id].checked && NoCreateAt(ops, id)
    ensures id in Run(s, ops) && Run(s, ops)[id].checked
    ensures Run(s, ops)[id].lines == s[id].lines
    ensures AddLinesStep(Run(s, ops), id, more).reply == Failure(NotModifiable)
  {
    FrozenTicketUnchanged(s, ops, id);
  }

  /** No operation but a colliding createTicket ever loses one of a ticket's lines. */
  lemma {:induction false} LinesNeverLost(s: Store, ops: seq<Op>, id: int)
    requires id in s && NoCreateAt(ops, id)
    ensures id in Run(s, ops)
    ensures multiset(s[id].lines) <= multiset(Run(s, ops)[id].lines)
    decreases |ops|
  {
    if ops != [] {
      var next := Apply(s, ops[0]).store;
      assert id in next && multiset(s[id].lines) <= multiset(next[id].lines) by {
        if ops[0].AddLinesOp? && ops[0].id == id && !s[id].checked {
          var u := next[id].lines;
          assert u == s[id].lines + ops[0].lines by {
            assert u == u[..|s[id].lines|] + u[|s[id].lines|..];
          }
        }
      }
      assert NoCreateAt(ops[1..], id) by {
        forall i | 0 <= i < |ops| - 1 ensures !(ops[1..][i].CreateOp? && ops[1..][i].id == id) {
          assert ops[1..][i] == ops[i + 1];
        }
      }
      LinesNeverLost(next, ops[1..], id);
    }
  }

  /**
   * createTicket does not look for an existing ticket under the id it draws: a
   * checked ticket under that id is replaced by an unchecked one, which then
   * accepts new lines again.
   */
  lemma CollidingCreateUnfreezes(s: Store, id: int, lines: seq<Line>, more: seq<Line>)
    requires id in s && s[id].checked
    ensures !CreateStep(s, id, lines).store[id].checked
    ensures CreateStep(s, id, lines).store[id].lines == lines
    ensures AddLinesStep(CreateStep(s, id, lines).store, id, more).reply.Success?
  {
  }

  /**
   * Checking an already checked ticket answers with it as it is and leaves
   * the store identical, lines included.
   */
  lemma CheckCheckedIsIdentity(s: Store, id: int)
    requires StoreValid(s) && id in s && s[id].checked
    ensures CheckStep(s, id) == Step(Success(s[id]), s)
  {
    SortKeepsSorted(s[id].lines);
    assert s[id].(checked := true, lines := SortByResultDesc(s[id].lines)) == s[id];
  }

  /** Checking a ticket a second time in a row changes nothing more. */
  lemma CheckTwice(s: Store, id: int)
    requires id in s
    ensures CheckStep(CheckStep(s, id).store, id).store == CheckStep(s, id).store
  {
    var once := CheckStep(s, id).store;
    SortIsUnique(s[id].lines, once[id].lines);
    SortKeepsSorted(once[id].lines);
    assert once[id].(checked := true, lines := SortByResultDesc(once[id].lines)) == once[id];
  }

  /** The lines of the checking test, appended in the order 10, 5, 1, 0. */
  function ExampleLines(): (ls: seq<Line>)
    ensures LinesWellFormed(ls)
  {
    [NewLine(0, 1, 1), NewLine(1, 1, 1), NewLine(0, 1, 2), NewLine(0, 1, 0)]
  }

  /** Checking the test's ticket shows its lines with results 10, 5, 1, 0. */
  lemma CheckExample(s: Store, id: int)
    requires id in s && s[id].lines == ExampleLines()
    ensures var ls := CheckStep(s, id).store[id].lines;
      |ls| == 4 && ls[0].result == 10 && ls[1].result == 5 && ls[2].result == 1 && ls[3].result == 0
  {
    var ls := ExampleLines();
    ExampleScores();
    assert ls[0].result == 10 && ls[1].result == 5 && ls[2].result == 1 && ls[3].result == 0;
    assert SortedDesc(ls);
    SortKeepsSorted(ls);
    assert CheckStep(s, id).store[id].lines == ls;
  }

  /**
   * The end-to-end scenario: create with 3 lines, add 2 (5 lines, first 3
   * unchanged), check (sorted, checked), after which adding lines is refused.
   */
  lemma Scenario(s: Store, id: int, first: seq<Line>, second: seq<Line>, third: seq<Line>)
    requires |first| == 3 && |second| == 2
    ensures var s1 := CreateStep(s, id, first).store;
      var s2 := AddLinesStep(s1, id, second).store;
      var s3 := CheckStep(s2, id).store;
      && |s2[id].lines| == 5 && s2[id].lines[..3] == first
      && s3[id].checked && SortedDesc(s3[id].lines)
      && multiset(s3[id].lines) == multiset(first + second)
      && AddLinesStep(s3, id, third).reply == Failure(NotModifiable)
  {
    var s2 := AddLinesStep(CreateStep(s, id, first).store, id, second).store;
    assert s2[id].lines == first + second by {
      assert s2[id].lines == s2[id].lines[..3] + s2[id].lines[3..];
    }
  }
}

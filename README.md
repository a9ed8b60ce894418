# Lottery ticket lifecycle, modelled in Dafny

This project models the core of a small lottery service. A ticket is created
with randomly drawn lines. Each line holds three numbers in [0,2] and a
result, which fixed rules compute. Lines can be added to a ticket until it is
checked. Checking freezes the ticket and re-orders its lines by result,
highest first, and the order is stable. The tickets live in an in-memory map
from id to ticket.

Modules, one per part of the core:

- `Lines` (`line.dfy`): the `Line` value and the scoring rules
  (`Line.java`).
- `Tickets` (`ticket.dfy`): the `Ticket` class, with fields `id`, `lines` and
  `checked` and an in-place `AddLines` (`Ticket.java`).
- `LineOrder` (`line_order.dfy`): the stable descending sort by result that
  checking applies, as a pure function. It comes with sortedness, permutation,
  stability and uniqueness lemmas (`TicketService.java:90-93`).
- `Workflow` (`workflow.dfy`): the service operations on values. Each
  operation is a function from a store (`map<int, TicketView>`) to a reply and
  a new store. Lemmas cover runs of several operations.
- `Service` (`ticket_service.dfy`): the `TicketService` class. It holds the
  repository map `tickets: map<int, Ticket>`, and its methods update the
  ticket objects in place. The postconditions of the state-changing methods
  (`CreateTicket`, `AddLines`, `CheckTicketStatus`) tie the new value of the
  map (`View()`) to the matching `Workflow` step on the old value; the lookup
  `GetTicketById` is tied to the lookup step the same way.

The random sources become parameters:
- the ticket id, which the source draws from [1000, 9999];
- the three numbers of each generated line, given as `Draw` values.

Preconditions state the ranges of both. The generated lines are the first
`lineCount` draws. A `lineCount` of zero or less yields no lines, because the
generating loop simply does not run.

The service does not check for id collisions: `createTicket` stores the new
ticket under its id and replaces any ticket already there. The model does the
same. `Workflow.CollidingCreateUnfreezes` shows what follows: a checked ticket
can be replaced by an unchecked one, which then accepts lines again. The
rule that a checked ticket stays frozen (`Workflow.CheckedStaysFrozen`)
therefore holds for every run in which no later create draws the same id.
A design that demands unique ids would rule collisions out. The code does
not, and the model follows the code.

## Model

| member | source | states |
|---|---|---|
| `Lines.NewLine` | src/main/java/com/rahul/lotteryassignment/dto/Line.java:30-33 | a line holds exactly its three arguments in argument order; its result is the scoring rules applied to them; the result is one of 0, 1, 5, 10 |
| `Lines.ScoreRules` | src/main/java/com/rahul/lotteryassignment/dto/Line.java:44-51 | the four rules in precedence order: sum 2 gives 10; otherwise all equal gives 5; otherwise a first number that differs from both others gives 1; otherwise 0 |
| `Lines.AllEqualScoresFive` | src/main/java/com/rahul/lotteryassignment/dto/Line.java:46-47 | every all-equal triple in [0,2] scores 5, because none of them sums to 2 |
| `Lines.ScoreByMultiplicity` | src/main/java/com/rahul/lotteryassignment/dto/Line.java:44-51 | an independent description of the score, as iff statements: 10 exactly for the multisets {0,1,1} and {0,0,2}; otherwise 5, 1 or 0 when the first number occurs 3, 1 or 2 times |
| `Lines.ExampleScores` | src/test/java/com/rahul/lotteryassignment/LotteryApiTest.java:104-107 | (0,1,1) scores 10, (1,1,1) scores 5, (0,1,2) scores 1, (0,1,0) scores 0 |
| `Lines.LinesFrom` | src/main/java/com/rahul/lotteryassignment/service/TicketService.java:106-108 | one well-formed line per draw, in draw order, built from that draw's numbers |
| `Tickets.Ticket.constructor` | src/main/java/com/rahul/lotteryassignment/dto/Ticket.java:28-32 | a new ticket has an id in [1000, 9999], no lines, and is unchecked |
| `Tickets.Ticket.AddLines` | src/main/java/com/rahul/lotteryassignment/dto/Ticket.java:39-41 | the lines become the old lines followed by the new ones; id and checked are unchanged; checked is not consulted |
| `Tickets.Appended` | src/main/java/com/rahul/lotteryassignment/dto/Ticket.java:39-41 | after an append, the old lines are an unchanged prefix and the new lines the suffix; the count grows by the number appended; id and checked are kept |
| `Tickets.AppendNothing` | src/main/java/com/rahul/lotteryassignment/dto/Ticket.java:40 | appending an empty list changes nothing |
| `Tickets.AppendTwice` | src/main/java/com/rahul/lotteryassignment/dto/Ticket.java:40 | two appends in a row equal one append of both batches in order |
| `LineOrder.SortRanks` | src/main/java/com/rahul/lotteryassignment/service/TicketService.java:90-93 | the sort's output is non-increasing by result, is a permutation of the input, and keeps the input order among lines of equal result |
| `LineOrder.RankedUnique` | src/main/java/com/rahul/lotteryassignment/service/TicketService.java:90-93 | two sequences sorted by result that list the same lines of each result in the same order are equal |
| `LineOrder.SortIsUnique` | src/main/java/com/rahul/lotteryassignment/service/TicketService.java:90-93 | every stable descending re-ordering of the lines is exactly the sort's output |
| `LineOrder.SortKeepsSorted` | src/main/java/com/rahul/lotteryassignment/service/TicketService.java:90-93 | lines already in descending order are left exactly as they are |
| `LineOrder.SortIdempotent` | src/main/java/com/rahul/lotteryassignment/service/TicketService.java:90-93 | sorting twice gives the same lines as sorting once |
| `Workflow.Generated` | src/main/java/com/rahul/lotteryassignment/service/TicketService.java:103-110 | generating for a count gives max(count, 0) well-formed lines, the i-th holding the i-th draw's numbers |
| `Workflow.CreateStep` | src/main/java/com/rahul/lotteryassignment/service/TicketService.java:29-34 | the reply is a new unchecked ticket with the given lines, stored under its id; an entry already under that id is replaced; every other entry is kept |
| `Workflow.GetStep` | src/main/java/com/rahul/lotteryassignment/service/TicketService.java:119-128 | the stored ticket if the id is present, otherwise TicketNotFound; the store is unchanged either way |
| `Workflow.AddLinesStep` | src/main/java/com/rahul/lotteryassignment/service/TicketService.java:64-77 | an unknown id gives TicketNotFound and a checked ticket gives NotModifiable, both with the store unchanged; otherwise the old lines stay as a prefix, the new lines follow, id and checked are kept, and no other ticket changes |
| `Workflow.CheckStep` | src/main/java/com/rahul/lotteryassignment/service/TicketService.java:86-95 | an unknown id gives TicketNotFound with the store unchanged; otherwise the ticket is checked, keeps its id, and its lines are stably re-ordered by result, highest first, with no other ticket changed |
| `Workflow.ApplyPreservesValid` | src/main/java/com/rahul/lotteryassignment/service/TicketService.java:29-95 | every operation keeps each ticket under its own id, with an id in range, only well-formed lines, and, once checked, lines in descending order of result |
| `Workflow.RunPreservesValid` | src/main/java/com/rahul/lotteryassignment/service/TicketService.java:29-95 | any run of operations keeps the store valid |
| `Workflow.RunKeepsIds` | src/main/java/com/rahul/lotteryassignment/service/TicketService.java:29-95 | no operation removes a ticket: every id present before a run is present after it |
| `Workflow.FrozenTicketUnchanged` | src/main/java/com/rahul/lotteryassignment/service/TicketService.java:64-95 | a checked ticket whose lines are in descending order is left exactly as it is by any run with no create under its id |
| `Workflow.CheckedStaysFrozen` | src/main/java/com/rahul/lotteryassignment/service/TicketService.java:67-73 | in a valid store, after a ticket is checked, and with no later create under its id, it stays checked, keeps exactly the same lines in the same order, and every addLines on it fails with NotModifiable |
| `Workflow.LinesNeverLost` | src/main/java/com/rahul/lotteryassignment/service/TicketService.java:64-95 | with no later create under its id, a ticket's lines only grow, counted as a multiset |
| `Workflow.CollidingCreateUnfreezes` | src/main/java/com/rahul/lotteryassignment/service/TicketService.java:29-34 | a create that draws the id of a checked ticket replaces it with an unchecked ticket that accepts lines again |
| `Workflow.CheckCheckedIsIdentity` | src/main/java/com/rahul/lotteryassignment/service/TicketService.java:86-95 | in a valid store, checking an already checked ticket answers with the ticket as stored and leaves the store identical, lines included |
| `Workflow.CheckTwice` | src/main/java/com/rahul/lotteryassignment/service/TicketService.java:86-95 | checking the same ticket twice in a row leaves the store as the first check left it, in any store |
| `Workflow.CheckExample` | src/test/java/com/rahul/lotteryassignment/LotteryApiTest.java:101-122 | checking a ticket whose lines were added as 10, 5, 1, 0 shows them with results 10, 5, 1, 0 |
| `Workflow.Scenario` | src/test/java/com/rahul/lotteryassignment/LotteryApiTest.java:33-158 | create with 3 lines, then add 2: the ticket has 5 lines and the first 3 are unchanged; after a check it is checked, sorted and holds the same lines; a further add fails with NotModifiable |
| `Service.TicketService.constructor` | src/main/java/com/rahul/lotteryassignment/repository/TicketRepository.java:19 | the repository starts as an empty map |
| `Service.TicketService.GenerateLines` | src/main/java/com/rahul/lotteryassignment/service/TicketService.java:103-110 | the loop yields exactly the generated lines for the count and draws |
| `Service.TicketService.GetTicketOrThrow` | src/main/java/com/rahul/lotteryassignment/service/TicketService.java:119-129 | succeeds exactly when the id is a key, with the stored ticket object itself; otherwise TicketNotFound |
| `Service.TicketService.GetTicketById` | src/main/java/com/rahul/lotteryassignment/service/TicketService.java:52-54 | succeeds exactly when the id is a key, with the stored ticket object itself; otherwise TicketNotFound; the answer agrees with the lookup step on the stored values |
| `Service.TicketService.GetAllTickets` | src/main/java/com/rahul/lotteryassignment/service/TicketService.java:41-43 | a list as long as the map, holding every stored ticket and nothing else |
| `Service.TicketService.CreateTicket` | src/main/java/com/rahul/lotteryassignment/service/TicketService.java:29-34 | stores a fresh ticket under the drawn id; the new map value is the create step applied to the old one; the ticket returned is the one stored |
| `Service.TicketService.AddLines` | src/main/java/com/rahul/lotteryassignment/service/TicketService.java:64-77 | the ticket objects are updated as the add-lines step says, and the map itself is unchanged; on success, returns the stored ticket object |
| `Service.TicketService.CheckTicketStatus` | src/main/java/com/rahul/lotteryassignment/service/TicketService.java:86-95 | the ticket objects are updated as the check step says, and the map itself is unchanged; on success, returns the stored ticket object |
| `Service.EndToEnd` | src/test/java/com/rahul/lotteryassignment/LotteryApiTest.java:33-194 | on a fresh service, create with 3 lines, then add 2, gives 5 lines; check sorts them; a later add fails with NotModifiable; checking an unknown id fails with TicketNotFound |

## Left out

- The HTTP layer is left out: the controller, the exception handler, the response envelope and its timestamp. The controller maps an empty ticket list, or a checked ticket with no lines, to a not-found response; that is the controller's behaviour, not the service's.
- The `@Min(1)` check on the number of lines is enforced by the HTTP layer. The service itself accepts any count, and a count of zero or less generates no lines. The model follows the service. The `InvalidInput`, `TicketNotCreated` and `InternalServerError` codes exist in the `ErrorCode` datatype, but the service never produces them.
- Randomness is left out. `ThreadLocalRandom` for ids and `java.util.Random` for the numbers become parameters with range preconditions.
- Concurrency is left out. The repository is an unsynchronised `HashMap`, and the model runs one operation at a time. Atomicity, lost updates and concurrent id allocation are not modelled.
- The order of `getAllTickets` is not modelled. `HashMap` iteration order is unspecified, so the model promises only which tickets the list holds and that each appears once.
- Error codes carry no code strings and no messages; only their names are modelled.
- A `null` id is not modelled. Ids are plain integers, so `HashMap.get(null)` cannot arise.
- The Lombok setters that the core does not call are not modelled: `setId`, and `setNumbers`/`setResult` on `Line`. Calling them could break a line's result invariant.
- Lists are modelled as values. Whether a list is mutable is not modelled: after a check, the source stores an unmodifiable list. Once a ticket is checked, the service refuses every append to it, so no append ever reaches that list.
- Java's 32-bit `int` is not modelled. The counts and ids involved stay far from its limits.

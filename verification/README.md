# A packet scheduler, a firewall and a topology builder, verified

This project models three parts of an SDN test bed in Dafny and proves what they are meant to guarantee.

**The HTB packet scheduler** (`HtbLinks`, `HtbReach`, `HtbSweep`, `HtbTraffic`, `HtbTokens`, `HtbBilling`, `HtbQueues`, `HtbFair`,
`HtbChoice`, `HtbScheduler`, `HtbRun`, `HtbReset`).
A tree of classes shares a link by hierarchical token buckets. Class `Scheduler` holds the kernel structures and updates them
in place; its predicate `Valid` is the invariant of the whole scheduler: active classes are linked exactly where their mode
calls for, saved round-robin pointers stay inside their trees, classes that cannot send wait in queues whose cached next event
is never late, every class's ledger is exactly what the packets served make it owe and balances with its buckets, and the
counted queue length covers all packets held. Every operation keeps it. Around it stand the statements about what it means:
nothing is starved by mislinking, the leaf search ends and agrees with a recursive definition of round robin, leaves of one tree
share the bytes dequeued in proportion to their quanta over whole runs, traffic of every class is bounded in every window under an
exact condition, and dequeue returns nothing only when nothing can be sent.

**The firewall** (`FwTable`, `FwRate`, `FwDpi`, `FwModel`, `FwInv`, `FwRuns`, `FwCounts`, `FwPolicy`, `FwApp`, `FwOrphan`).
The controller and its OpenFlow switches form one step system (`FwModel.Next`); `FwApp.FirewallApp` carries out each step in
place and is proved to refine it. `FwInv`, `FwRuns`, `FwCounts` and `FwPolicy` prove what holds in every state of every run: trust rules on
switches are a cache of the controller's decisions that is never stale with respect to payload signatures and blocked
addresses; that it is backed by a trusted flow except exactly after a port flush, which leaves rules for packets *from* the port
behind; that they forward each direction of a flow by the right port; that blocks of ports and addresses hold until they are
lifted; and that all counters mean what they say.

**Tree topologies** (`TopoNames`, `TopoGraph`, `TopoTree`, `TopoBuild`).
A multigraph whose two directions share one table per pair of nodes, a bidirectional port map, and the recursive builder of
tree networks, with a theorem about the shape it builds for every depth and fanout.

## Where code and documentation disagree

- The repository's README.md (line 15) says that sources over their rate get a temporary hardware drop rule. The rule is installed,
  but a priority-200 rule never decides an IPv4 packet, because the priority-300 rule to the controller is always there (`FwTable.Ipv4IsControlled`).
  The rate limit holds all the same, by the controller's own window (`FwCounts.RateLimitHolds`).
- The port flush is described as a mirror of the address flush (src/firewall_app.py:213), which deletes rules to and from the
  address. It forgets flows by either port but deletes only rules to the port; rules for packets from it stay
  (`FwRuns.PortFlushLeavesOrphans`).
- A reset of the scheduler lets classes send while their buckets are still in debt, so a packet right after it can break the
  traffic bound (`HtbReset.ResetBreaksBound`). Ledgers are kept across resets, and the exact condition is stated for every stretch
  of packets (`HtbTokens.ClassTrafficBound`): a reset does no harm to a stretch that ends with a class out of debt.
- A class above the one that lent pays for the packet although nobody asked its buckets, so its traffic can exceed its own
  ceiling; the same exact condition covers this (`HtbTokens.NextPacketBoundIff`).

## Modelling

- Red-black trees are finite sets of class identifiers, identifier 0 stands for a null pointer, bit masks are sets, and
  structure fields are maps keyed by class, level or tree. Integers are unbounded; the debt clamp is modelled. `mbuffer` is
  positive, as the source sets it (mininet/util/sch_htb-ofbuf/sch_htb.c:1476). A ghost field `stirred` collects the trees whose
  members changed; the contracts say when it can grow.
- The cost of a packet at a rate is an arbitrary function of class and length. The clock is a parameter that does not go back.
  The handler's time limit is a number of rounds; the draw of a random packet, the verdict of the classifier and the verdict of
  a leaf's own queue are parameters.
- Handlers of the firewall are atomic. Packets arrive decoded, a signature is an arbitrary predicate on byte strings, IPv4
  addresses are numbered in the order in which their text compares, and time is real. Flow tables follow sections 5.3, 5.5
  and 6.4 of the OpenFlow Switch Specification 1.3. A switch joins with an empty table and keeps it when it connects again.
- A packet for which the TCP or UDP header cannot be decoded aborts its handler after the rate check, as an exception does.

## Model

| member | source | states |
|---|---|---|
| `HtbLinks.NextAbove` | mininet/util/sch_htb-ofbuf/sch_htb.c:314-317 | the least class identifier above a given one, or null exactly when there is none |
| `HtbLinks.NextFrom` | mininet/util/sch_htb-ofbuf/sch_htb.c:732-751 | the least class identifier not below the remembered one, or null exactly when there is none |
| `HtbScheduler.Scheduler.AddToRow` | mininet/util/sch_htb-ofbuf/sch_htb.c:325-335 | the class joins its row at exactly the given priorities and the row mask gains exactly those bits |
| `HtbScheduler.Scheduler.RemoveFromRow` | mininet/util/sch_htb-ofbuf/sch_htb.c:354-371 | the class leaves its row at exactly the given priorities, pointers to it move on to the next class, and mask bits go exactly where the row became empty |
| `HtbScheduler.Scheduler.ActivatePrios` | mininet/util/sch_htb-ofbuf/sch_htb.c:380-406 | started on a class that is active but unlinked, restores the link invariant: in every tree exactly the classes that belong there; leaf activity and pointers are kept, and masks change only at the level of the class where the climb ended, which has the same lender |
| `HtbScheduler.Scheduler.DeactivatePrios` | mininet/util/sch_htb-ofbuf/sch_htb.c:415-449 | takes one class out of the linkage and leaves the rest linked as their modes call for; pointers follow (a feed pointer to the class is forgotten but remembered by identifier), leaf activity is kept |
| `HtbScheduler.Scheduler.ChangeClassMode` | mininet/util/sch_htb-ofbuf/sch_htb.c:504-522 | gives the class the mode its buckets call for, keeping the link invariant, leaf activity and the rows of lower levels |
| `HtbScheduler.Scheduler.Activate` | mininet/util/sch_htb-ofbuf/sch_htb.c:529-540 | an inactive leaf becomes active at its priority and joins the tail of that drop list, keeping the link invariant; an active leaf is left as it is |
| `HtbScheduler.Scheduler.Deactivate` | mininet/util/sch_htb-ofbuf/sch_htb.c:547-554 | a leaf becomes inactive and unlisted, keeping the link invariant; only the row of its lender's level can lose a bit, and none if it has no lender |
| `HtbLinks.ActivateStep` | mininet/util/sch_htb-ofbuf/sch_htb.c:385-402 | linking a class into its parent's feed keeps every tree, activity, mask and pointer clause of the invariant, relative to what is still to be linked |
| `HtbLinks.DeactivateStep` | mininet/util/sch_htb-ofbuf/sch_htb.c:420-446 | the same for unlinking a class from its parent's feed |
| `HtbLinks.ActivateRow` | mininet/util/sch_htb-ofbuf/sch_htb.c:325-335 | putting the class at the end of the climb into its row completes the invariant |
| `HtbLinks.DeactivateRow` | mininet/util/sch_htb-ofbuf/sch_htb.c:354-371 | taking it out of its row keeps the invariant, with pointers inside their trees and mask bits set exactly for non-empty rows |
| `HtbReach.LinkageIsDetermined` | mininet/util/sch_htb-ofbuf/sch_htb.c:380-449 | two states that satisfy the link invariant with the same modes and the same active leaves have the same activity, trees and masks, whatever sequence of changes led to them |
| `HtbReach.ReachableIffLender` | mininet/util/sch_htb-ofbuf/sch_htb.c:380-449 | an active class is reachable from the row of a level iff climbing from it through classes that may borrow first meets a class that can send, and that class is on this level: nothing is starved by mislinking, for trees of any shape |
| `HtbReach.EmptyRowsNoLender` | mininet/util/sch_htb-ofbuf/sch_htb.c:380-449 | if all rows are empty then no active class has a class above it that can send |
| `HtbScheduler.Scheduler.LookupLeaf` | mininet/util/sch_htb-ofbuf/sch_htb.c:757-807 | on a non-empty row the search always ends, at an active leaf below that row; it is the leaf that an independent recursive depth-first round-robin definition yields, with the same effect on all cursors; no tree's place moves past a leaf |
| `HtbScheduler.Scheduler.Search` | mininet/util/sch_htb-ofbuf/sch_htb.c:757-807 | the loop with its explicit stack ends without the iteration cut-off; its trace is a sequence of legal moves |
| `HtbSweep.StackIsShallow` | mininet/util/sch_htb-ofbuf/sch_htb.c:757-807 | the stack of trees never holds more than MAXDEPTH entries |
| `HtbSweep.StepIsCloser` | mininet/util/sch_htb-ofbuf/sch_htb.c:766-801 | every move of the search that does not end it decreases a lexicographic measure: exhausted cursors counted by level, then the height of the tree on top |
| `HtbSweep.TraceFinds` | mininet/util/sch_htb-ofbuf/sch_htb.c:757-807 | what a finished trace returns is what the recursive sweep of the row finds, including the cursors it leaves behind |
| `HtbSweep.FoundIsUnique` | mininet/util/sch_htb-ofbuf/sch_htb.c:757-807 | the sweep finds at most one leaf: the round-robin order is deterministic |
| `HtbSweep.StackServes` | mininet/util/sch_htb-ofbuf/sch_htb.c:757-807 | the leaf a search ends at is active at the row's priority, its lender is on the row's level, and it is selected by the pointer of the tree whose turn it will end |
| `HtbTokens.ClassMode` | mininet/util/sch_htb-ofbuf/sch_htb.c:451-493 | the mode from the two buckets and the water marks; a class that cannot send always gets a strictly positive wait |
| `HtbTokens.ModeMeansNoDebt` | mininet/util/sch_htb-ofbuf/sch_htb.c:478-493 | without hysteresis the mode says exactly which buckets are in debt, and the wait is exactly the time the deciding bucket needs |
| `HtbTokens.HysteresisOnlyDelays` | mininet/util/sch_htb-ofbuf/sch_htb.c:451-493 | with hysteresis a mode is never worse than without, the same for a class that cannot send, and never lets a debt exceed the bucket |
| `HtbTokens.HysteresisModes` | mininet/util/sch_htb-ofbuf/sch_htb.c:451-493 | with hysteresis, exactly which debts each current mode tolerates |
| `HtbTokens.ModesAreCurrent` | mininet/util/sch_htb-ofbuf/sch_htb.c:478-522 | without hysteresis, while no event is due, every class has exactly the mode its buckets call for at this time, so it is never kept waiting longer than its debt, unless it was reset and has not paid since; then it can send |
| `HtbTraffic.CutOffIsExcused` | mininet/util/sch_htb-ofbuf/sch_htb.c:611-635 | as long as costs stay below mbuffer the clamp fires only on a packet paid for out of debt, which only the first packet after a reset and packets lent from below can be |
| `HtbTraffic.Balance` | mininet/util/sch_htb-ofbuf/sch_htb.c:611-635 | where the tokens of any stretch of payments went: an identity between cost, bucket levels, elapsed time, tokens spilled and debt cut off |
| `HtbTraffic.BoundIff` | mininet/util/sch_htb-ofbuf/sch_htb.c:611-684 | a stretch keeps the bound (depth + elapsed time + last cost) exactly if the bucket's level before the last payment, its room at the first and what spilled since cover the debt cut off |
| `HtbTraffic.TrafficBound` | mininet/util/sch_htb-ofbuf/sch_htb.c:611-684 | the bound holds for every stretch, across any number of resets, whose last packet was not paid for out of debt and in which no debt was cut off |
| `HtbTraffic.FullBucketBoundIff` | mininet/util/sch_htb-ofbuf/sch_htb.c:611-684 | from a full bucket, without spilling or cutting off, a stretch keeps the bound exactly if its last packet was not paid for out of debt |
| `HtbTraffic.OrdinaryIsBounded` | mininet/util/sch_htb-ofbuf/sch_htb.c:611-684 | for packets that are neither the first after a reset nor lent from below, with costs below mbuffer, the bound always holds and the clamp never fires |
| `HtbTokens.ClassTrafficBound` | mininet/util/sch_htb-ofbuf/sch_htb.c:648-684 | in every state the scheduler can be in, without hysteresis, for every class, leaf or inner, and every stretch of what it ever paid for from its ceiling bucket or from its rate bucket, with any number of resets between: the exact condition for the bound, its special cases, and that only the first packet after a reset, or one that a class below the payer lent, is paid for out of debt |
| `HtbTokens.BoundWithoutReset` | mininet/util/sch_htb-ofbuf/sch_htb.c:648-684 | in every such state: a stretch without a reset, with costs below mbuffer, of packets the class was asked for (all of a leaf's, those an inner class lent or passed up) keeps the bound on both buckets, and the clamp never fires in it |
| `HtbTokens.NextPacketBoundIff` | mininet/util/sch_htb-ofbuf/sch_htb.c:648-684 | before a class's next packet, what its ceiling bucket holds decides whether the stretches that end with it keep the bound; from a full bucket without spilling or cutting off, exactly if the class is out of debt when it pays, the exact condition after a reset and above the lender |
| `HtbReset.ResetBreaksBound` | mininet/util/sch_htb-ofbuf/sch_htb.c:985-1003 | a run of enqueue, dequeue, reset, enqueue and dequeue on a one-leaf scheduler: its two packets keep the bound exactly if the cost is at most the bucket's depth, so that a reset breaks it for every larger cost |
| `HtbTokens.ChargeKeepsLedgers` | mininet/util/sch_htb-ofbuf/sch_htb.c:648-684 | charging any class, on the way to the lender or above it, keeps the books of all classes balanced: buckets hold what payments left and time added, debts are excused, and a waiting class's event is due no later than the deciding bucket is out of debt |
| `HtbTokens.ChargeBalances` | mininet/util/sch_htb-ofbuf/sch_htb.c:648-684 | the same for the account of one class: after a charge the event of a waiting class lies no later than the time its deciding bucket is out of debt |
| `HtbTokens.EventBalances` | mininet/util/sch_htb-ofbuf/sch_htb.c:693-718 | and after its event |
| `HtbBilling.ServingAccounts` | mininet/util/sch_htb-ofbuf/sch_htb.c:648-684 | every class's ledger is what the packets served say: from its ceiling bucket every packet of a leaf at or below it, from its rate bucket exactly those served at a level no higher than its own, each with its time, its cost, and nothing else |
| `HtbBilling.LenderMayAsk` | mininet/util/sch_htb-ofbuf/sch_htb.c:812-878 | when a packet is served at its lender's level, every class on the way up is in a mode in which it may be charged: below the lender it may borrow, and the lender can send |
| `HtbBilling.NoLenderByBuckets` | mininet/util/sch_htb-ofbuf/sch_htb.c:917-954 | if no event is due and a leaf has no lender by the classes' modes, it has none by their buckets |
| `HtbTokens.ChargeKeepsTiming` | mininet/util/sch_htb-ofbuf/sch_htb.c:648-684 | charging keeps: a class waits iff it cannot send; cached events are no later than waiting ones unless passed |
| `HtbTokens.EventKeepsTiming` | mininet/util/sch_htb-ofbuf/sch_htb.c:693-718 | handling an event keeps the same, and the class is re-queued strictly after now |
| `HtbTokens.DueShrinks` | mininet/util/sch_htb-ofbuf/sch_htb.c:693-718 | a handled class is not due again and no other class becomes due, so the number of due classes strictly falls, under either hysteresis setting |
| `HtbTokens.SkippedLevel` | mininet/util/sch_htb-ofbuf/sch_htb.c:929-935 | a level skipped because its cached event is ahead of now holds no due class |
| `HtbTokens.CacheReport` | mininet/util/sch_htb-ofbuf/sch_htb.c:929-933 | caching what the event handler reported keeps the invariant, also after a 'too many events' exit |
| `HtbTokens.EarliestStep` | mininet/util/sch_htb-ofbuf/sch_htb.c:924-938 | over the levels, the wake-up time stays exactly the earliest of the cached events and the five seconds |
| `HtbTokens.TimePasses` | mininet/util/sch_htb-ofbuf/sch_htb.c:919-922 | time passing keeps the invariant |
| `HtbScheduler.Scheduler.AddToWait` | mininet/util/sch_htb-ofbuf/sch_htb.c:282-306 | the class waits in its level's queue, due after the delay but never at once, and the cached event is lowered to it; what the delay means is stated by ChargeKeepsLedgers and ModesAreCurrent |
| `HtbScheduler.Scheduler.ChargeClass` | mininet/util/sch_htb-ofbuf/sch_htb.c:648-684 | exactly the leaf and its ancestors pay, each from the right buckets for the level served; link, timing and ledger invariants are kept; each class on the path books its payment and nobody else does; which packets an inner class owes for is stated by ServingAccounts |
| `HtbScheduler.Scheduler.DoEvents` | mininet/util/sch_htb-ofbuf/sch_htb.c:693-727 | ends without its time limit; exactly the classes whose event was due and handled took the mode their buckets call for; other levels are untouched; the result is 0 when none waits, the first key among the waiting classes, or now when cut short; with nothing due nothing changes |
| `HtbScheduler.Scheduler.FirstWaiting` | mininet/util/sch_htb-ofbuf/sch_htb.c:701-709 | a waiting class of the level with the smallest key |
| `HtbScheduler.Scheduler.Catchup` | mininet/util/sch_htb-ofbuf/sch_htb.c:929-935 | whether the handler runs or the level is skipped, afterwards the reported event is no later than any waiting one unless passed, and without the time limit no class of the level is due |
| `HtbScheduler.Scheduler.PickLeaf` | mininet/util/sch_htb-ofbuf/sch_htb.c:812-847 | returns the leaf next in round-robin order, once leaves without packets and only those are deactivated, or 0 only when the row has become empty |
| `HtbScheduler.Scheduler.TakeTurn` | mininet/util/sch_htb-ofbuf/sch_htb.c:865-870 | deficit round robin: the deficit falls by the length, and only a deficit used up gets the quantum and advances the pointer of the leaf's own tree |
| `HtbScheduler.Scheduler.FinishTurn` | mininet/util/sch_htb-ofbuf/sch_htb.c:864-877 | the end of a turn is one beat of the round robin of the leaf's own tree, and no other tree advances; the members of a tree change only if the leaf's queue ran empty |
| `HtbScheduler.Scheduler.Serve` | mininet/util/sch_htb-ofbuf/sch_htb.c:857-877 | takes the leaf's head packet, makes one beat of its tree, and bills leaf and ancestors; members change only if the leaf ran empty or a mode changed |
| `HtbScheduler.Scheduler.DequeueTree` | mininet/util/sch_htb-ofbuf/sch_htb.c:812-878 | serves the head of the queue of the leaf next in round-robin order, with the row's priority and its lender on the row's level, charged for that level, as one beat of its tree; returns nothing only if the row is empty afterwards |
| `HtbScheduler.Scheduler.DequeueShaped` | mininet/util/sch_htb-ofbuf/sch_htb.c:917-954 | serves the lowest level whose row is not empty once due events are handled, there the most urgent priority, there the leaf next in turn, as one beat of its tree; nothing is served only if all rows are empty, no class is due (without the time limit), and the wake-up time is exactly the earliest cached event or five seconds ahead, whichever comes first, and ahead of now |
| `HtbScheduler.Scheduler.Dequeue` | mininet/util/sch_htb-ofbuf/sch_htb.c:880-957 | direct packets first; otherwise the head of the queue of the chosen leaf (events, lowest level, most urgent priority, round robin), billed to the leaf and its ancestors; the packet leaves its queue, is counted out, and one overflow packet is offered again; the leaf's deficit and its tree make one beat, other trees stay, except trees whose members changed, which happens only by due events, mode changes or leaves run empty; no packet is returned only if none is held, or no leaf with packets has a class on its way up that can send, by the buckets at that time; keeps the whole invariant |
| `HtbChoice.HandledStep` | mininet/util/sch_htb-ofbuf/sch_htb.c:924-938 | handling the events of one more level gives exactly its due classes the mode their buckets call for at the start of the dequeue, unless cut short |
| `HtbChoice.SendersStay` | mininet/util/sch_htb-ofbuf/sch_htb.c:693-718 | a class that can send keeps its mode while events are handled |
| `HtbChoice.NextInTurnIsUnique` | mininet/util/sch_htb-ofbuf/sch_htb.c:757-807 | at most one leaf is next in turn below a row, so that the choice of a dequeue is determined |
| `HtbFair.TraceSkips` | mininet/util/sch_htb-ofbuf/sch_htb.c:757-807 | a search moves the place of any tree past inner classes only |
| `HtbFair.SentIsPaid` | mininet/util/sch_htb-ofbuf/sch_htb.c:865-870 | what a leaf sent is its turns times its quantum plus the change of its deficit |
| `HtbFair.TurnsAlternate` | mininet/util/sch_htb-ofbuf/sch_htb.c:757-807 | among the leaves of one tree turns alternate: the numbers of turns of two leaves never differ by more than one |
| `HtbFair.DeficitStaysIff` | mininet/util/sch_htb-ofbuf/sch_htb.c:865-870 | a packet keeps every deficit between 0 and the quantum exactly if it is no longer than the quantum |
| `HtbFair.ServiceIsFair` | mininet/util/sch_htb-ofbuf/sch_htb.c:812-878 | two leaves of one tree that always have packets, none longer than its leaf's quantum, share the service in proportion to their quanta: counted in quanta, what they sent differs by less than three over any run |
| `HtbFair.TurnAdvances` | mininet/util/sch_htb-ofbuf/sch_htb.c:864-870 | a leaf at its tree's cursor that ends or continues its turn makes one beat of that tree's round robin and moves no other tree |
| `HtbFair.DriftThenAdvance` | mininet/util/sch_htb-ofbuf/sch_htb.c:812-878 | a search, possibly over several rows, followed by a turn is still one beat for the leaf's tree, after inner classes only |
| `HtbRun.TrackTurn` | mininet/util/sch_htb-ofbuf/sch_htb.c:812-878 | what a dequeue does to the place and deficits of any one tree continues that tree's round, with the bytes served |
| `HtbRun.TrackIsFair` | mininet/util/sch_htb-ofbuf/sch_htb.c:812-878 | a round that tells what was served bounds the bytes served: two leaves' shares, counted in quanta, differ by less than three |
| `HtbRun.Play` | mininet/util/sch_htb-ofbuf/sch_htb.c:556-981 | over every sequence of enqueues, dequeues and drops on a real scheduler: if the members of a tree stay the same and are served at one level, the packets that left make a round of that tree, and any two of its leaves with packets no longer than their quanta were served in proportion to them, up to less than three quanta |
| `HtbScheduler.Scheduler.Enqueue` | mininet/util/sch_htb-ofbuf/sch_htb.c:556-609 | where the packet goes for each verdict of the classifier and of the leaf's queue, and how it is counted; keeps the invariant |
| `HtbScheduler.Scheduler.Drain` | mininet/util/sch_htb-ofbuf/sch_htb.c:898-912 | the overflow buffer ends empty and its count 0; exactly the drawn packet is offered again, to the same effect as an enqueue |
| `HtbScheduler.Scheduler.Reoffer` | mininet/util/sch_htb-ofbuf/sch_htb.c:901-910 | the loop ends although re-offering may append to the list being drained |
| `HtbQueues.NothingHeld` | mininet/util/sch_htb-ofbuf/sch_htb.c:917-918 | the counted length is the number of packets held plus those lost uncounted, so a length of 0 means that no queue holds a packet |
| `HtbQueues.BacklogUpdate` | mininet/util/sch_htb-ofbuf/sch_htb.c:556-609 | changing one leaf's queue changes the number of queued packets by the difference of lengths |
| `HtbScheduler.Scheduler.PickVictim` | mininet/util/sch_htb-ofbuf/sch_htb.c:960-981 | the victim is willing, has packets and has the numerically largest priority among such leaves; 0 only if there is none |
| `HtbScheduler.Scheduler.Drop` | mininet/util/sch_htb-ofbuf/sch_htb.c:960-981 | drops the tail packet of the victim and counts it out; does nothing exactly if no willing leaf has packets; keeps the invariant |
| `HtbScheduler.Scheduler.LeafSheds` | mininet/util/sch_htb-ofbuf/sch_htb.c:829-833 | a leaf's queue may lose packets unannounced at any time: the invariant stays, the count is not adjusted |
| `HtbScheduler.Scheduler.Reset` | mininet/util/sch_htb-ofbuf/sch_htb.c:985-1019 | all queues empty, all classes inactive and able to send, buckets, deficits and ledgers untouched, every leaf pardoned its next packet; keeps the invariant |
| `HtbScheduler.Scheduler.constructor` | mininet/util/sch_htb-ofbuf/sch_htb.c:1466-1478 | classes start with full buckets, able to send and inactive, all queues empty, parameters as given; the invariant holds |
| `FwTable.Ipv4IsControlled` | src/firewall_app.py:637-650 | on a registered switch the rule that decides an IPv4 packet is the priority-300 rule to the controller or a trust rule, so rules of priority 200, 1 and 0 never decide IPv4 |
| `FwTable.FlushedTrustRules` | src/firewall_app.py:185-276 | which trust rules each of the three flushes deletes, as an if-and-only-if |
| `FwTable.FlushesKeepTables` | src/firewall_app.py:185-276 | every flush leaves (or puts back) the priority-300 rule and only known rules |
| `FwRate.PoppingIsRecounting` | src/firewall_app.py:307-308 | of ordered times, popping from the front leaves exactly those strictly within the window |
| `FwRate.TrackerKnowsHistory` | src/firewall_app.py:298-317 | the tracker gives the same count for every later packet as the source's whole history of accepted packets |
| `FwRate.RefusedIffWindowFull` | src/firewall_app.py:310-314 | a packet is refused iff at least the limit of accepted packets lie strictly within the last window |
| `FwRate.WindowLimit` | src/firewall_app.py:298-317 | no half-open interval as long as the window holds more than the limit of accepted packets |
| `FwCounts.RateLimitHolds` | src/firewall_app.py:298-317 | the two statements above for every source in every run of the whole system with a fixed limit and a clock that does not go back |
| `FwCounts.TrackerFollowsRun` | src/firewall_app.py:298-317 | a source's tracker and what passes depend on its own arrivals only |
| `FwDpi.DpiEngine.constructor` | src/dpi_engine.py:67-87 | registers the six built-in patterns, enabled, in order; their names differ and none counts as a user's |
| `FwDpi.DpiEngine.Inspect` | src/dpi_engine.py:89-105 | the first enabled pattern that matches, None exactly if none matches or there are no bytes |
| `FwDpi.DpiEngine.AddPattern` | src/dpi_engine.py:107-146 | succeeds exactly on acceptable requests; names stay unique and user patterns within their limit |
| `FwDpi.DpiEngine.RemovePattern` | src/dpi_engine.py:148-159 | removes exactly a user's pattern of that name |
| `FwDpi.UnnamedRemoves` | src/dpi_engine.py:158-158 | filtering by name removes all patterns of the name and no others |
| `FwDpi.SegmentationIsIrrelevantIff` | src/firewall_app.py:593-633 | for fixed patterns, every flow ends blocked iff the first 8192 bytes of one direction's concatenated payload are flagged, for all cuts and interleavings, if and only if the patterns stay matched under extension |
| `FwDpi.BufferedAfter` | src/firewall_app.py:606-620 | an unblocked flow's buffers are exactly the heads of its two streams |
| `FwDpi.InspectionKeepsClean` | src/firewall_app.py:593-633 | inspection keeps buffers within 8192 bytes and unblocked flows clean |
| `FwDpi.RemovalKeepsClean` | src/dpi_engine.py:148-159 | removing patterns keeps unblocked flows clean |
| `FwPolicy.PatternsAreRequested` | src/dpi_engine.py:107-159 | in every run, a pattern not there from the start came in by a request with a valid name, an expression of at most 512 characters that is not dangerous and compiles; and built-in patterns never go |
| `FwModel.KeyIsSymmetric` | src/firewall_app.py:791-797 | both directions share one key, and the sender tells them apart iff the endpoints differ |
| `FwInv.CheckDoes` | src/firewall_app.py:441-470 | what the checks of a packet change and when: exactly when it is counted against its rate, exactly when it reaches inspection, and at most one drop rule |
| `FwPolicy.VerdictIff` | src/firewall_app.py:284-491 | every verdict as an if-and-only-if over the address lists, the rate window, the blocked ports, the flags, the bound senders and the flow: a verdict of a blocked port exactly if the packet passed the address and rate checks and its destination port and protocol are blocked |
| `FwPolicy.FlagsIff` | src/firewall_app.py:799-824 | which TCP flags count as a scan |
| `FwPolicy.BlockedPortDoesNothing` | src/firewall_app.py:319-327 | a TCP or UDP packet to a blocked port is refused, changes no flow and no trust rule and is not forwarded |
| `FwPolicy.PolicyStep` | src/firewall_wsgi.py:51-113 | only requests change the policy, and how |
| `FwPolicy.PortBlockedIff` | src/firewall_wsgi.py:74-105 | in every run a port is blocked exactly if the last valid request about it was to block it |
| `FwPolicy.IpBlockedIff` | src/firewall_wsgi.py:51-72 | the same for addresses |
| `FwPolicy.BlockedPortRulesAreReplies` | src/firewall_app.py:531-582 | a trust rule to a blocked port can only be the reverse half of a pair, installed by an allowed packet sent from that port |
| `FwPolicy.FlushesForget` | src/firewall_app.py:185-244 | exactly which trust entries an address block and a port block forget |
| `FwPolicy.CountersTally` | src/firewall_app.py:693-727 | after every run each outcome counter is the number of packets with its own outcome |
| `FwPolicy.BindingIsFirstClaim` | src/firewall_app.py:330-345 | an address is bound exactly to the sender that first claimed it since the last handshake |
| `FwPolicy.LearnedIff` | src/firewall_app.py:698-698 | a switch knows for each sender exactly the port on which it last saw it |
| `FwPolicy.SwitchAfterPacket` | src/firewall_app.py:653-764 | the flow table after a packet: one drop rule for a source over its rate or a spoofed sender, a path rule, a pair of trust rules, or nothing, with their actions and timeouts; other switches stay |
| `FwInv.StepKeepsInv` | src/firewall_app.py:658-764 | every step (handshake, packet, requests, expiry) keeps: IPv4 under control on every switch, unblocked flows clean, installed iff trust count is 5, unique pattern names, installed flows at most the counter |
| `FwInv.AlwaysInv` | src/firewall_app.py:658-764 | that invariant holds in every state of every run |
| `FwRuns.Ipv4AlwaysControlled` | src/firewall_app.py:635-650 | in every reachable state and on every registered switch some rule decides each IPv4 packet, and it is the rule to the controller or a trust rule |
| `FwRuns.RuleOrigin` | src/firewall_app.py:531-582 | every trust rule on a switch was put there by an allowed packet on that switch and has been there, with the action and timeouts it got then, ever since |
| `FwPolicy.TrustRulesForward` | src/firewall_app.py:531-582 | in every run, every trust rule outputs packets in the direction of the packet that installed it to the port on which their destination was last seen then, replies to the port that packet came from, and expires after 60 seconds of idleness or 300 in all |
| `FwPolicy.TrustIsEarned` | src/firewall_app.py:493-529 | in every run a flow's count is the number of its allowed packets since its entry came up, as far as five, and it is trusted exactly from the fifth on |
| `FwPolicy.FifthInstalls` | src/firewall_app.py:507-529 | of those packets exactly the fifth installs the rules |
| `FwPolicy.TrustedPacketMatches` | src/firewall_app.py:531-582 | a packet that a trust rule decides has the addresses and ports of the rule's flow |
| `FwRuns.TrustRulesAreFresh` | src/firewall_app.py:246-281 | since a trust rule was installed no pattern was added; for TCP its flow was unblocked at that moment and its buffers were clean under a superset of today's patterns |
| `FwRuns.TrustRulesAreBackedIff` | src/firewall_app.py:493-582 | the flow of a trust rule is in the trust table and installed, exactly if since the rule's installation the port its packets come from was not blocked without the flow being installed again |
| `FwOrphan.OrphanedRule` | src/firewall_app.py:223-244 | a run (handshake, packets that earn trust, a block of their source port) after which a trust rule is on the switch and its flow is gone |
| `FwRuns.PortFlushLeavesOrphans` | src/firewall_app.py:212-244 | exactly which rules and which flows a port flush removes: the rule for packets from the port stays without its flow |
| `FwRuns.InstallsOnce` | src/firewall_app.py:493-529 | between two installations for one flow its entry was removed: an entry installs one pair of rules |
| `FwRuns.InstallInRun` | src/firewall_app.py:507-529 | the packet that installs a flow was allowed, its flow is trusted right after, and a TCP flow is then unblocked and clean |
| `FwRuns.BlockingIsComplete` | src/firewall_wsgi.py:51-60 | right after an address is blocked no switch holds a trust rule to or from it |
| `FwRuns.BlockedSourceDoesNothing` | src/firewall_app.py:284-296 | a packet from a blocked address is refused and changes no rule, no flow and no tracker |
| `FwRuns.BlockedRulesAreReplies` | src/firewall_app.py:531-582 | a rule from a blocked address can only be the reverse half of a pair installed by an allowed packet sent to it |
| `FwRuns.BlockedFlowRefuses` | src/firewall_app.py:601-604 | a blocked flow refuses every packet that reaches inspection, in both directions |
| `FwRuns.BlockedWhileKept` | src/firewall_app.py:601-624 | a blocked flow stays blocked through every run until its entry is removed |
| `FwCounts.Accounting` | src/firewall_app.py:693-727 | after every run: total = allowed + blocked + rate limited + ARP spoofs + scans + packets dropped by inspection; dpi_blocked counts the flows that became blocked; trust_flows_installed counts the installations since the last full flush and is at least the number of installed flows |
| `FwCounts.FlowVerdict` | src/firewall_app.py:593-633 | in every run in which patterns stay fixed and closed under extension and the flow is not forgotten, the flow is blocked iff the head of one endpoint's concatenated payload is flagged |
| `FwCounts.DirectionsNeverMix` | src/firewall_app.py:606-611 | a segment inspected in one direction of a flow comes from the endpoint that direction names and goes to the other |
| `FwCounts.FlowFollowsSegments` | src/firewall_app.py:593-633 | a flow's buffers and verdict in a run are those of its inspected segments alone, whatever else happens |
| `FwApp.FirewallApp.constructor` | src/firewall_app.py:74-117 | starts in an initial state of the model, with 1000 packets per second and an empty allow list |
| `FwApp.FirewallApp.CheckIpRateLimit` | src/firewall_app.py:298-317 | the loop that pops old times, and the drop rule, take the model's rate check |
| `FwApp.FirewallApp.CheckDpi` | src/firewall_app.py:593-633 | takes the model's inspection step |
| `FwApp.FirewallApp.RecordTrustOf` | src/firewall_app.py:507-529 | takes the model's trust step; the rules' actions are stated by TrustRulesForward |
| `FwApp.FirewallApp.PacketInHandler` | src/firewall_app.py:653-764 | takes the model's packet step, whose verdicts are stated by VerdictIff; a packet is forwarded iff it is allowed, to the port learned for its destination or to all |
| `FwApp.FirewallApp.HandshakeHandler` | src/firewall_app.py:636-650 | takes the model's handshake step |
| `FwApp.FirewallApp.FlushFlowsForIp` | src/firewall_app.py:185-210 | the loops over switches and keys take the model's address flush |
| `FwApp.FirewallApp.FlushFlowsForPort` | src/firewall_app.py:212-244 | the loops take the model's port flush |
| `FwApp.FirewallApp.FlushAllTrustFlows` | src/firewall_app.py:246-281 | the loop takes the model's full flush |
| `FwApp.FirewallApp.AddBlockedIp` | src/firewall_wsgi.py:51-60 | takes the model's block-address step |
| `FwApp.FirewallApp.DelBlockedIp` | src/firewall_wsgi.py:62-72 | takes the model's unblock-address step; reports an address that was not blocked |
| `FwApp.FirewallApp.AddBlockedPort` | src/firewall_wsgi.py:74-89 | takes the model's block-port step; refuses ports and protocols out of range |
| `FwApp.FirewallApp.DelBlockedPort` | src/firewall_wsgi.py:91-105 | takes the model's unblock-port step, with the same validation |
| `FwApp.FirewallApp.SetRateLimit` | src/firewall_wsgi.py:107-113 | takes the model's rate step |
| `FwApp.FirewallApp.AddDpiPattern` | src/firewall_wsgi.py:121-138 | takes the model's add-pattern step; flushes exactly when the pattern was added |
| `FwApp.FirewallApp.DelDpiPattern` | src/firewall_wsgi.py:140-151 | takes the model's remove-pattern step; nothing is flushed |
| `TopoNames.NamesAreDistinct` | mininet/mininet/topolib.py:25-31 | names determine kind and number |
| `TopoNames.LessIsTotal` | mininet/mininet/topo.py:63-65 | of two different names exactly one precedes the other, so that each pair is listed from one side |
| `TopoGraph.MultiGraph.AddEdge` | mininet/mininet/topo.py:35-54 | adds one link under its key or the next free one, in the table that both directions share, and keeps that sharing; nothing else changes |
| `TopoGraph.MultiGraph.TableFor` | mininet/mininet/topo.py:45-49 | the one table of a pair, shared by both directions and by no other pair |
| `TopoGraph.MultiGraph.Edges` | mininet/mininet/topo.py:61-78 | lists every link exactly once |
| `TopoTree.InverseKeptIff` | mininet/mininet/topo.py:221-238 | mapping two ports to each other keeps the port map its own inverse iff neither was in use for something else |
| `TopoTree.LinkKeepsGood` | mininet/mininet/topo.py:151-162 | linking a subtree's root to its parent with automatic ports keeps: ports without gaps, self-inverse port map, every node with at most one uplink, levels one apart |
| `TopoTree.TreeBuilt` | mininet/mininet/topolib.py:19-32 | for every depth and fanout and any net to start from, the recursive builder adds a complete subtree and leaves the rest alone |
| `TopoTree.TreeShape` | mininet/mininet/topolib.py:12-32 | fanout^depth hosts, one link less than nodes, no cycle, self-inverse port map; child i on its parent's port i in the order of building, uplink on port fanout + 1 of a switch and 0 of a host |
| `TopoTree.Connected` | mininet/mininet/topolib.py:19-32 | any two nodes of a tree topology are joined by a walk along links |
| `TopoTree.Acyclic` | mininet/mininet/topolib.py:19-32 | no closed walk without repeated links exists |
| `TopoBuild.TreeTopo.AddPort` | mininet/mininet/topo.py:221-238 | given or next free ports, mapped to each other |
| `TopoBuild.TreeTopo.AddLink` | mininet/mininet/topo.py:151-162 | takes the model's link step in the graph and the port map |
| `TopoBuild.TreeTopo.AddTree` | mininet/mininet/topolib.py:19-32 | the recursive loop builds exactly the model's subtree, over the shared tables |
| `TopoBuild.TreeTopo.constructor` | mininet/mininet/topolib.py:12-17 | builds the model's tree; depths and fanouts below 0 count as 0 |
| `TopoBuild.TreeTopo.Links` | mininet/mininet/topo.py:187-203 | lists every link of the topology exactly once |

## Left out

- HTB class creation, deletion, grafting and parameter changes at run time, filters, statistics export, locking and reference counts.
- HTB leaf queues that refuse to hand out a packet they hold (the non-work-conserving branch); leaf queues are first-in first-out here, and may lose packets at any time.
- HTB aliasing of structures through pointers: fields live in maps keyed by class, so that a stale pointer cannot be expressed. The order of classes that wait with equal keys is left open.
- The iteration cut-off of 65535 in the leaf search, which is proved unnecessary.
- Integer widths and the wrap-around of the kernel's time arithmetic.
- HtbRun.Play: speaks of stretches in which the members of the tree stay the same and are served at one level; when a member comes or goes, a turn may be cut short, and nothing is promised across that.
- HtbScheduler.Scheduler.constructor: all classes are created at one time, because creation at run time is not modelled.
- Log texts, WebSocket broadcast, JSON decoding and routing of requests, and texts that are not valid addresses or numbers.
- Stripping of blanks around pattern names, and the syntax of expressions and of the heuristic against dangerous ones, which are parameters of a request.
- FwApp.FirewallApp.SetRateLimit: takes both values, because decoding the request body and its defaults are not modelled.
- Interleaving inside one handler, and messages lost on the way to a switch.
- Link options and node options other than ports and the switch flag, natural sorting of listings, and the other topologies (single, reversed, linear, torus).
- TopoGraph.MultiGraph.AddEdge: keys are numbers, because non-numeric keys only add a case that behaves alike.

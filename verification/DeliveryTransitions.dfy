/** The queue transitions of `scripts/record_delivery_evidence.py` and the selection rule of
    `scripts/run_delivery_loop.py` that guards two of them. */
module DeliveryTransitions {
  import opened Basics
  import opened DeliveryGeneration

  /** Which decisions of the registry are resolved; a decision outside the map is unknown. */
  type Decisions = map<string, bool>

  /** `--start`, `--complete`, `--block` or `--unblock`. `evidence` is the path of an accepted evidence
      record, and `reason` a reason `validated_reason` accepts, when there is one. */
  datatype Action = Start | Finish(evidence: Option<string>)
    | Block(reason: Option<string>) | Unblock(reason: Option<string>)

  /** `expected` is the generation whose digest the caller presents. */
  datatype Request = Request(workItem: string, action: Action, expected: Generation, decisions: Decisions,
                             timestamp: string)

  datatype Refusal = InvalidQueue | UnknownWorkItem | InvalidCurrentGeneration | GenerationChanged
    | AlreadyInProgress | NotStartable | NotNext | NotCurrent | NoEvidence | NotBlockable | NoReason
    | NotBlocked | UnresolvedDecisions | PhaseWithoutItems

  // ----- selection -----

  predicate Less(a: string, b: string) {
    b != [] && (a == [] || a[0] < b[0] || (a[0] == b[0] && Less(a[1..], b[1..])))
  }

  /** The order of `min(..., key=(priority, id))`. */
  predicate Before(a: Item, b: Item) {
    a.priority < b.priority || (a.priority == b.priority && Less(a.id, b.id))
  }

  predicate HasStatus(items: seq<Item>, id: string, status: Status) {
    exists item | item in items :: item.id == id && item.status == status
  }

  predicate Startable(items: seq<Item>, decisions: Decisions, item: Item) {
    && (item.status.Pending? || item.status.Ready?)
    && (forall d | d in item.dependsOn :: HasStatus(items, d, Complete))
    && (forall d | d in item.blockedByDecisions :: d in decisions && decisions[d])
  }

  /** The first startable item of `some` that no other startable one precedes. */
  function Least(items: seq<Item>, decisions: Decisions, some: seq<Item>): Option<Item> {
    if some == [] then None
    else
      var sofar, last := Least(items, decisions, some[..|some| - 1]), some[|some| - 1];
      if Startable(items, decisions, last) && (sofar.None? || Before(last, sofar.value)) then Some(last) else sofar
  }

  /** `select_next_item` on a queue with at most one item in progress. */
  function SelectNext(items: seq<Item>, decisions: Decisions): Option<Item> {
    var current := InProgressItem(items);
    if current.Some? then current else Least(items, decisions, items)
  }

  function InProgressItem(items: seq<Item>): Option<Item> {
    if items == [] then None
    else if items[0].status.InProgress? then Some(items[0]) else InProgressItem(items[1..])
  }

  lemma {:induction false} LessIsTransitive(a: string, b: string, c: string)
    requires Less(a, b) && Less(b, c)
    ensures Less(a, c)
  {
    if a != [] && a[0] == b[0] && b[0] == c[0] {
      LessIsTransitive(a[1..], b[1..], c[1..]);
    }
  }

  /** What is selected is startable, and nothing startable comes before it. */
  lemma {:induction false} LeastIsFirst(items: seq<Item>, decisions: Decisions, some: seq<Item>)
    ensures var least := Least(items, decisions, some);
      && (least.Some? ==> least.value in some && Startable(items, decisions, least.value))
      && (forall other :: other in some && Startable(items, decisions, other) ==>
            least.Some? && !Before(other, least.value))
  {
    if some != [] {
      var shorter, last := some[..|some| - 1], some[|some| - 1];
      LeastIsFirst(items, decisions, shorter);
      assert some == shorter + [last];
      var sofar := Least(items, decisions, shorter);
      NotBeforeItself(last.id);
      forall other | other in shorter && Startable(items, decisions, other)
                     && Startable(items, decisions, last) && Before(last, sofar.value)
        ensures !Before(other, last)
      {
        if Before(other, last) && other.priority == last.priority == sofar.value.priority {
          LessIsTransitive(other.id, last.id, sofar.value.id);
        }
      }
    }
  }

  lemma {:induction false} NotBeforeItself(a: string)
    ensures !Less(a, a)
  {
    if a != [] { NotBeforeItself(a[1..]); }
  }

  // ----- transitions -----

  /** The rules `validate_queue` adds: every dependency and every blocking decision is known. */
  predicate KnownReferences(items: seq<Item>, decisions: Decisions) {
    forall item | item in items ::
      (forall d | d in item.dependsOn :: d in Ids(items)) && (forall d | d in item.blockedByDecisions :: d in decisions)
  }

  function Find(items: seq<Item>, id: string): (i: nat)
    ensures i <= |items| && (i < |items| ==> items[i].id == id)
    ensures i == |items| ==> forall k :: 0 <= k < |items| ==> items[k].id != id
  {
    if items == [] || items[0].id == id then 0 else 1 + Find(items[1..], id)
  }

  /** The guards of `main`, in its order, up to the first that refuses. */
  ghost function Refused(g: Generation, r: Request): Option<Refusal> {
    var items, i := g.queue.items, Find(g.queue.items, r.workItem);
    if !(ValidItems(items) && KnownReferences(items, r.decisions)) then Some(InvalidQueue)
    else if i == |items| then Some(UnknownWorkItem)
    else if !ValidGeneration(g) then Some(InvalidCurrentGeneration)
    else if g != r.expected then Some(GenerationChanged)
    else
      ActionRefused(items[i], g.state.currentWorkItem, SelectNext(items, r.decisions), r.action, r.decisions)
  }

  predicate Unresolved(item: Item, decisions: Decisions)
    requires forall d :: d in item.blockedByDecisions ==> d in decisions
  {
    exists d :: d in item.blockedByDecisions && !decisions[d]
  }

  function ActionRefused(item: Item, current: Option<string>, next: Option<Item>, action: Action,
                         decisions: Decisions): Option<Refusal>
    requires forall d :: d in item.blockedByDecisions ==> d in decisions
  {
    match action
    case Start =>
      if current.Some? then Some(AlreadyInProgress)
      else if !(item.status.Pending? || item.status.Ready?) then Some(NotStartable)
      else if next.None? || next.value.id != item.id then Some(NotNext)
      else None
    case Finish(evidence) =>
      if !item.status.InProgress? || current != Some(item.id) then Some(NotCurrent)
      else if evidence.None? then Some(NoEvidence)
      else None
    case Block(reason) =>
      if !(item.status.InProgress? && current == Some(item.id))
         && !((item.status.Pending? || item.status.Ready?) && current.None? && next.Some? && next.value.id == item.id)
      then Some(NotBlockable)
      else if reason.None? then Some(NoReason)
      else None
    case Unblock(reason) =>
      if !item.status.Blocked? then Some(NotBlocked)
      else if reason.None? then Some(NoReason)
      else if Unresolved(item, decisions) then Some(UnresolvedDecisions)
      else None
  }

  function NewItem(item: Item, action: Action): Item {
    match action
    case Start => item.(status := InProgress)
    case Finish(_) => item.(status := Complete)
    case Block(reason) => item.(status := Blocked, blockingCondition := reason)
    case Unblock(_) => item.(status := Pending, blockingCondition := None)
  }

  function NewState(state: LoopState, item: Item, action: Action, timestamp: string): LoopState {
    match action
    case Start => state.(currentWorkItem := Some(item.id), lastResult := "IN_PROGRESS", blocker := None)
    case Finish(evidence) =>
      state.(currentWorkItem := None, lastResult := "COMPLETE", blocker := None,
             evidenceRecords := state.evidenceRecords + [Record(item.id, TextOf(evidence), timestamp)])
    case Block(reason) =>
      state.(currentWorkItem := None, lastResult := "BLOCKED", blocker := reason,
             blockedRecords := state.blockedRecords + [Record(item.id, TextOf(reason), timestamp)])
    case Unblock(reason) =>
      state.(lastResult := "UNBLOCKED", blocker := None,
             unblockedRecords := state.unblockedRecords + [Record(item.id, TextOf(reason), timestamp)])
  }

  function TextOf(text: Option<string>): string {
    if text.Some? then text.value else ""
  }

  function Synchronized(items: seq<Item>, phases: seq<Phase>): seq<Phase> {
    seq(|phases|, p requires 0 <= p < |phases| => phases[p].(status := PhaseStatus(StatusesIn(items, phases[p].id))))
  }

  function Day(timestamp: string): string {
    if |timestamp| < 10 then timestamp else timestamp[..10]
  }

  /** The generation an accepted request hands to `commit_delivery_state`. */
  function Advanced(g: Generation, r: Request): Generation
    requires Find(g.queue.items, r.workItem) < |g.queue.items|
  {
    var i := Find(g.queue.items, r.workItem);
    var items := g.queue.items[i := NewItem(g.queue.items[i], r.action)];
    Generation(g.queue.(items := items, lastUpdated := Day(r.timestamp)),
               NewState(g.state, g.queue.items[i], r.action, r.timestamp).(lastUpdated := r.timestamp),
               g.program.(phases := Synchronized(items, g.program.phases), lastUpdated := Day(r.timestamp)))
  }

  class DeliveryControl {
    var queue: Queue
    var state: LoopState
    var program: Program

    ghost function Value(): Generation reads this { Generation(queue, state, program) }

    constructor (g: Generation)
      ensures Value() == g
    {
      queue, state, program := g.queue, g.state, g.program;
    }

    /** `synchronize_program`. */
    method SynchronizeProgram() returns (refusal: Option<Refusal>)
      modifies this`program
      ensures refusal.Some?
              <==> exists p :: 0 <= p < |old(program).phases|
                               && StatusesIn(queue.items, old(program).phases[p].id) == {}
      ensures refusal.None? ==> program == old(program).(phases := Synchronized(queue.items, old(program).phases))
    {
      var p := 0;
      while p < |program.phases|
        invariant 0 <= p <= |program.phases| == |old(program).phases|
        invariant program == old(program).(phases := program.phases)
        invariant forall k :: 0 <= k < p ==> StatusesIn(queue.items, old(program).phases[k].id) != {}
        invariant forall k :: 0 <= k < p ==> program.phases[k] == Synchronized(queue.items, old(program).phases)[k]
        invariant forall k :: p <= k < |program.phases| ==> program.phases[k] == old(program).phases[k]
      {
        var phase := program.phases[p];
        var statuses := StatusesIn(queue.items, phase.id);
        if statuses == {} {
          return Some(PhaseWithoutItems);
        }
        program := program.(phases := program.phases[p := phase.(status := PhaseStatus(statuses))]);
        p := p + 1;
      }
      return None;
    }

    /** The guards of `main`, in its order. */
    method Guard(r: Request) returns (refusal: Option<Refusal>)
      ensures refusal == Refused(Value(), r)
    {
      var itemsOk, inProgress, _ := CheckItems(queue.items);
      InProgressIdsMeaning(queue.items);
      if !itemsOk || |inProgress| > 1 || !KnownReferences(queue.items, r.decisions) {
        return Some(InvalidQueue);
      }
      var i := Find(queue.items, r.workItem);
      if i == |queue.items| {
        return Some(UnknownWorkItem);
      }
      var valid := Validate(Generation(queue, state, program));
      if !valid {
        return Some(InvalidCurrentGeneration);
      }
      if Generation(queue, state, program) != r.expected {
        return Some(GenerationChanged);
      }
      refusal := GuardAction(queue.items[i], SelectNext(queue.items, r.decisions), r);
    }

    /** The guards of the requested action itself. */
    method GuardAction(item: Item, next: Option<Item>, r: Request) returns (refusal: Option<Refusal>)
      requires forall d :: d in item.blockedByDecisions ==> d in r.decisions
      ensures refusal == ActionRefused(item, state.currentWorkItem, next, r.action, r.decisions)
    {
      match r.action {
        case Start =>
          if state.currentWorkItem.Some? { return Some(AlreadyInProgress); }
          if !(item.status.Pending? || item.status.Ready?) { return Some(NotStartable); }
          if next.None? || next.value.id != item.id { return Some(NotNext); }
        case Finish(evidence) =>
          if !item.status.InProgress? || state.currentWorkItem != Some(item.id) { return Some(NotCurrent); }
          if evidence.None? { return Some(NoEvidence); }
        case Block(reason) =>
          var active := item.status.InProgress? && state.currentWorkItem == Some(item.id);
          var unstarted := (item.status.Pending? || item.status.Ready?) && state.currentWorkItem.None?
                           && next.Some? && next.value.id == item.id;
          if !active && !unstarted { return Some(NotBlockable); }
          if reason.None? { return Some(NoReason); }
        case Unblock(reason) =>
          if !item.status.Blocked? { return Some(NotBlocked); }
          if reason.None? { return Some(NoReason); }
          if Unresolved(item, r.decisions) { return Some(UnresolvedDecisions); }
      }
      return None;
    }

    /** `main`, up to the commit: the new generation is one the commit accepts. */
    method Apply(r: Request) returns (refusal: Option<Refusal>)
      modifies this
      ensures refusal == Refused(old(Value()), r)
      ensures refusal.Some? ==> Value() == old(Value())
      ensures refusal.None? ==> Value() == Advanced(old(Value()), r) && ValidGeneration(Value())
    {
      refusal := Guard(r);
      if refusal.Some? {
        return;
      }
      ghost var before := Value();
      var i := Find(queue.items, r.workItem);
      AdvancedIsValid(before, r);
      var item := queue.items[i];
      queue := queue.(items := queue.items[i := NewItem(item, r.action)]);
      state := NewState(state, item, r.action, r.timestamp);
      queue := queue.(lastUpdated := Day(r.timestamp));
      state := state.(lastUpdated := r.timestamp);
      program := program.(lastUpdated := Day(r.timestamp));
      refusal := SynchronizeProgram();
    }
  }

  // ----- what an accepted request keeps -----

  lemma RequestedItem(g: Generation, r: Request) returns (i: nat)
    requires Refused(g, r).None?
    ensures ValidGeneration(g) && i == Find(g.queue.items, r.workItem) && i < |g.queue.items|
    ensures g.queue.items[i].id == r.workItem
    ensures r.action.Start? ==>
      g.state.currentWorkItem.None? && (g.queue.items[i].status.Pending? || g.queue.items[i].status.Ready?)
    ensures r.action.Finish? ==> g.queue.items[i].status.InProgress?
    ensures r.action.Block? ==> g.queue.items[i].status.InProgress? || g.state.currentWorkItem.None?
    ensures WellFormed(g.queue.items[i])
    ensures r.action.Unblock? ==> g.queue.items[i].status.Blocked?
    ensures r.action.Block? || r.action.Unblock? ==> !g.queue.items[i].status.Complete?
  {
    i := Find(g.queue.items, r.workItem);
  }

  /** Updating one item leaves every phase with the items it had. */
  lemma StatusesAfter(items: seq<Item>, i: nat, item: Item, phase: string)
    requires i < |items| && item.phase == items[i].phase
    ensures StatusesIn(items[i := item], phase) == {} <==> StatusesIn(items, phase) == {}
  {
    var after := items[i := item];
    if status :| status in StatusesIn(items, phase) {
      var k :| 0 <= k < |items| && items[k].phase == phase && items[k].status == status;
      assert after[k] in after && after[k].phase == phase;
      assert after[k].status in StatusesIn(after, phase);
    }
    if status :| status in StatusesIn(after, phase) {
      var k :| 0 <= k < |after| && after[k].phase == phase && after[k].status == status;
      assert items[k] in items && items[k].phase == phase;
      assert items[k].status in StatusesIn(items, phase);
    }
  }

  /** One item changes: the queue stays valid if at most that one is in progress afterwards. */
  lemma ItemsStayValid(items: seq<Item>, i: nat, item: Item, before: Option<string>, after: Option<string>)
    requires ValidItems(items) && NamesCurrent(items, before) && i < |items|
    requires WellFormed(item) && item.id == items[i].id
    requires item.status.InProgress? ==> before.None? && after == Some(item.id)
    requires !item.status.InProgress? ==> after == if items[i].status.InProgress? then None else before
    ensures ValidItems(items[i := item]) && NamesCurrent(items[i := item], after)
  {
    var updated := items[i := item];
    if items[i].status.InProgress? {
      assert forall k :: 0 <= k < |items| && k != i ==> !items[k].status.InProgress?;
    }
    if item.status.InProgress? {
      assert updated[i].status.InProgress? && updated[i].id == item.id;
    } else if after.Some? {
      var k :| 0 <= k < |items| && items[k].status.InProgress? && items[k].id == before.value;
      assert updated[k].status.InProgress? && updated[k].id == after.value;
    }
  }

  lemma SynchronizedPhases(items: seq<Item>, phases: seq<Phase>)
    requires ValidPhases(phases)
    ensures ValidPhases(Synchronized(items, phases))
    ensures forall p :: 0 <= p < |phases| ==> Synchronized(items, phases)[p].id == phases[p].id
  {
    var synchronized := Synchronized(items, phases);
    assert forall p :: 0 <= p < |phases| ==> synchronized[p].id == phases[p].id;
  }

  lemma PhasesStayInStep(items: seq<Item>, i: nat, item: Item, phases: seq<Phase>)
    requires i < |items| && item.phase == items[i].phase && ValidPhases(phases) && InStep(items, phases)
    ensures InStep(items[i := item], Synchronized(items[i := item], phases))
    ensures forall p :: 0 <= p < |phases| ==> StatusesIn(items[i := item], phases[p].id) != {}
  {
    var after := items[i := item];
    var synchronized := Synchronized(after, phases);
    SynchronizedPhases(after, phases);
    forall p | 0 <= p < |phases| ensures StatusesIn(after, phases[p].id) != {} {
      StatusesAfter(items, i, item, phases[p].id);
    }
    forall k | 0 <= k < |after| ensures exists p :: 0 <= p < |synchronized| && synchronized[p].id == after[k].phase {
      PhaseStays(items, i, item, phases, synchronized, k);
    }
  }

  lemma PhaseStays(items: seq<Item>, i: nat, item: Item, phases: seq<Phase>, synchronized: seq<Phase>, k: nat)
    requires i < |items| && k < |items| && item.phase == items[i].phase
    requires exists p :: 0 <= p < |phases| && phases[p].id == items[k].phase
    requires |synchronized| == |phases| && forall p :: 0 <= p < |phases| ==> synchronized[p].id == phases[p].id
    ensures exists p :: 0 <= p < |synchronized| && synchronized[p].id == items[i := item][k].phase
  {
    var p :| 0 <= p < |phases| && phases[p].id == items[k].phase;
    assert synchronized[p].id == items[i := item][k].phase;
  }

  /** From a valid generation, whatever passes the guards yields one `validate_delivery_generation`
      accepts: one current item, and every phase in step with its items. */
  lemma AdvancedIsValid(g: Generation, r: Request)
    requires Refused(g, r).None?
    ensures ValidGeneration(Advanced(g, r))
    ensures forall p :: 0 <= p < |g.program.phases| ==>
      StatusesIn(Advanced(g, r).queue.items, g.program.phases[p].id) != {}
  {
    var i := RequestedItem(g, r);
    var item := NewItem(g.queue.items[i], r.action);
    ItemsStayValid(g.queue.items, i, item, g.state.currentWorkItem, Advanced(g, r).state.currentWorkItem);
    PhasesStayInStep(g.queue.items, i, item, g.program.phases);
    SynchronizedPhases(g.queue.items[i := item], g.program.phases);
  }

  // ----- whole runs -----

  /** Whatever is in progress or complete has all of its dependencies complete. */
  ghost predicate DependenciesComplete(items: seq<Item>) {
    forall i, d :: 0 <= i < |items| && (items[i].status.InProgress?
                                        || items[i].status.Complete?) && d in items[i].dependsOn ==>
      HasStatus(items, d, Complete)
  }

  lemma CompleteStays(g: Generation, r: Request, id: string)
    requires Refused(g, r).None? && HasStatus(g.queue.items, id, Complete)
    ensures HasStatus(Advanced(g, r).queue.items, id, Complete)
  {
    var i := RequestedItem(g, r);
    var items, after := g.queue.items, Advanced(g, r).queue.items;
    var k :| 0 <= k < |items| && items[k].id == id && items[k].status == Complete;
    assert after[k] in after && after[k].id == id && after[k].status == Complete;
  }

  lemma DependenciesStayComplete(g: Generation, r: Request)
    requires Refused(g, r).None? && DependenciesComplete(g.queue.items)
    ensures DependenciesComplete(Advanced(g, r).queue.items)
  {
    var i := RequestedItem(g, r);
    var items, after := g.queue.items, Advanced(g, r).queue.items;
    forall k, d | 0 <= k < |after| && (after[k].status.InProgress?
                                       || after[k].status.Complete?) && d in after[k].dependsOn
      ensures HasStatus(after, d, Complete)
    {
      if k == i && r.action.Start? {
        SelectedIsStartable(g, r, i);
      }
      assert HasStatus(items, d, Complete);
      CompleteStays(g, r, d);
    }
  }

  /** What `start` accepts is startable, and nothing startable comes before it. */
  lemma SelectedIsStartable(g: Generation, r: Request, i: nat)
    requires Refused(g, r).None? && r.action.Start? && i == Find(g.queue.items, r.workItem)
    ensures i < |g.queue.items| && Startable(g.queue.items, r.decisions, g.queue.items[i])
    ensures forall other :: other in g.queue.items && Startable(g.queue.items, r.decisions, other) ==>
      !Before(other, g.queue.items[i])
  {
    StartedIsNext(g, r, i);
    NextIsFirst(g.queue.items, r.decisions, i);
  }

  lemma StartedIsNext(g: Generation, r: Request, i: nat)
    requires Refused(g, r).None? && r.action.Start? && i == Find(g.queue.items, r.workItem)
    ensures i < |g.queue.items| && DistinctItems(g.queue.items)
    ensures forall k :: 0 <= k < |g.queue.items| ==> !g.queue.items[k].status.InProgress?
    ensures var next := SelectNext(g.queue.items, r.decisions); next.Some? && next.value.id == g.queue.items[i].id
  {
    var _ := RequestedItem(g, r);
  }

  lemma NextIsFirst(items: seq<Item>, decisions: Decisions, i: nat)
    requires i < |items| && DistinctItems(items) && forall k :: 0 <= k < |items| ==> !items[k].status.InProgress?
    requires SelectNext(items, decisions).Some? && SelectNext(items, decisions).value.id == items[i].id
    ensures Startable(items, decisions, items[i])
    ensures forall other :: other in items && Startable(items, decisions, other) ==> !Before(other, items[i])
  {
    NoneInProgress(items);
    LeastIsFirst(items, decisions, items);
    SameId(items, Least(items, decisions, items).value, i);
  }

  lemma SameId(items: seq<Item>, item: Item, i: nat)
    requires DistinctItems(items) && item in items && i < |items| && items[i].id == item.id
    ensures items[i] == item
  {
    var k :| 0 <= k < |items| && items[k] == item;
  }

  lemma {:induction false} NoneInProgress(items: seq<Item>)
    requires forall i :: 0 <= i < |items| ==> !items[i].status.InProgress?
    ensures InProgressItem(items).None?
  {
    if items != [] { NoneInProgress(items[1..]); }
  }

  ghost function AfterRequest(g: Generation, r: Request): Generation {
    if Refused(g, r).Some? then g else Advanced(g, r)
  }

  lemma RequestIsSafe(g: Generation, r: Request, id: string)
    requires ValidGeneration(g) && DependenciesComplete(g.queue.items)
    ensures var h := AfterRequest(g, r);
      && ValidGeneration(h) && DependenciesComplete(h.queue.items)
      && (HasStatus(g.queue.items, id, Complete) ==> HasStatus(h.queue.items, id, Complete))
  {
    if Refused(g, r).None? {
      AdvancedIsValid(g, r);
      DependenciesStayComplete(g, r);
      if HasStatus(g.queue.items, id, Complete) {
        CompleteStays(g, r, id);
      }
    }
  }

  ghost function AfterRequests(g: Generation, rs: seq<Request>): Generation
    decreases |rs|
  {
    if rs == [] then g else AfterRequests(AfterRequest(g, rs[0]), rs[1..])
  }

  /** Over any sequence of requests, refused or not: the generation stays valid, nothing is ever in
      progress or complete before its dependencies are, and what is complete stays complete. */
  lemma {:induction false} DeliverySafety(g: Generation, rs: seq<Request>, id: string)
    requires ValidGeneration(g) && DependenciesComplete(g.queue.items)
    ensures var h := AfterRequests(g, rs);
      && ValidGeneration(h) && DependenciesComplete(h.queue.items)
      && (HasStatus(g.queue.items, id, Complete) ==> HasStatus(h.queue.items, id, Complete))
    decreases |rs|
  {
    if rs != [] {
      RequestIsSafe(g, rs[0], id);
      DeliverySafety(AfterRequest(g, rs[0]), rs[1..], id);
    }
  }
}

/** The three delivery-control documents and the cross-file rules that `validate_delivery_generation`
    and `synchronize_program` enforce (`scripts/delivery_state.py`, `scripts/record_delivery_evidence.py`). */
module DeliveryGeneration {
  import opened Basics

  datatype Status = Pending | Ready | InProgress | Complete | Blocked | Unknown(text: string)

  datatype Item = Item(id: string, status: Status, phase: string, dependsOn: seq<string>,
                       blockedByDecisions: seq<string>, priority: int, blockingCondition: Option<string>)

  datatype Record = Record(workItem: string, note: string, recordedAt: string)

  datatype Queue = Queue(schemaVersion: int, items: seq<Item>, lastUpdated: string)

  datatype LoopState = LoopState(schemaVersion: int, currentWorkItem: Option<string>, lastResult: string,
                                 blocker: Option<string>, evidenceRecords: seq<Record>, blockedRecords: seq<Record>,
                                 unblockedRecords: seq<Record>, lastUpdated: string)

  datatype Phase = Phase(id: string, status: Status)

  datatype Program = Program(schemaVersion: int, phases: seq<Phase>, lastUpdated: string)

  datatype Generation = Generation(queue: Queue, state: LoopState, program: Program)

  function StatusesIn(items: seq<Item>, phase: string): set<Status> {
    set item | item in items && item.phase == phase :: item.status
  }

  /** The status a phase must show, from the statuses of its items. */
  function PhaseStatus(statuses: set<Status>): Status {
    if statuses == {Complete} then Complete
    else if InProgress in statuses || Complete in statuses then InProgress
    else if statuses == {Blocked} then Blocked
    else Pending
  }

  predicate WellFormed(item: Item) {
    item.id != "" && !item.status.Unknown? && item.phase != ""
  }

  ghost predicate DistinctItems(items: seq<Item>) {
    && (forall i :: 0 <= i < |items| ==> WellFormed(items[i]))
    && (forall i, j :: 0 <= i < j < |items| ==> items[i].id != items[j].id)
  }

  ghost predicate ValidItems(items: seq<Item>) {
    && DistinctItems(items)
    && (forall i, j :: 0 <= i < j < |items| ==> !(items[i].status.InProgress? && items[j].status.InProgress?))
  }

  /** The loop state names the one item in progress, or none. */
  ghost predicate NamesCurrent(items: seq<Item>, current: Option<string>) {
    match current
    case None => forall i :: 0 <= i < |items| ==> !items[i].status.InProgress?
    case Some(id) => exists i :: 0 <= i < |items| && items[i].status.InProgress? && items[i].id == id
  }

  ghost predicate ValidPhases(phases: seq<Phase>) {
    && (forall p :: 0 <= p < |phases| ==> phases[p].id != "" && !phases[p].status.Unknown? && !phases[p].status.Ready?)
    && (forall p, q :: 0 <= p < q < |phases| ==> phases[p].id != phases[q].id)
  }

  ghost predicate InStep(items: seq<Item>, phases: seq<Phase>) {
    && (forall i :: 0 <= i < |items| ==> exists p :: 0 <= p < |phases| && phases[p].id == items[i].phase)
    && (forall p :: 0 <= p < |phases| ==>
          StatusesIn(items, phases[p].id) != {} && phases[p].status == PhaseStatus(StatusesIn(items, phases[p].id)))
  }

  ghost predicate ValidGeneration(g: Generation) {
    && g.queue.schemaVersion == 1 && g.state.schemaVersion == 1 && g.program.schemaVersion == 1
    && ValidItems(g.queue.items) && NamesCurrent(g.queue.items, g.state.currentWorkItem)
    && ValidPhases(g.program.phases) && InStep(g.queue.items, g.program.phases)
  }

  // ----- what the validator collects -----

  function Ids(items: seq<Item>): set<string> {
    set item | item in items :: item.id
  }

  function InProgressIds(items: seq<Item>): (ids: seq<string>) {
    if items == [] then []
    else InProgressIds(items[..|items| - 1])
         + (var last := items[|items| - 1]; if last.status.InProgress? then [last.id] else [])
  }

  function StatusesByPhase(items: seq<Item>): map<string, set<Status>> {
    if items == [] then map[]
    else
      var sofar, last := StatusesByPhase(items[..|items| - 1]), items[|items| - 1];
      sofar[last.phase := (if last.phase in sofar then sofar[last.phase] else {}) + {last.status}]
  }

  lemma {:induction false} InProgressIdsMeaning(items: seq<Item>)
    ensures forall id ::
        id in InProgressIds(items) <==> exists k :: 0 <= k < |items| && items[k].status.InProgress? && items[k].id == id
    ensures |InProgressIds(items)| <= 1 <==>
            forall k, m :: 0 <= k < m < |items| ==> !(items[k].status.InProgress? && items[m].status.InProgress?)
  {
    if items != [] {
      var shorter, last := items[..|items| - 1], items[|items| - 1];
      InProgressIdsMeaning(shorter);
      assert forall k :: 0 <= k < |shorter| ==> shorter[k] == items[k];
      if last.status.InProgress? && InProgressIds(shorter) != [] {
        assert InProgressIds(shorter)[0] in InProgressIds(shorter);
        var k :| 0 <= k < |shorter| && shorter[k].status.InProgress?;
        assert items[k].status.InProgress? && items[|items| - 1].status.InProgress?;
      }
      if last.status.InProgress? && InProgressIds(shorter) == [] {
        forall k | 0 <= k < |shorter| ensures !items[k].status.InProgress? {
          assert shorter[k].id !in InProgressIds(shorter);
        }
      }
    }
  }

  lemma NamesCurrentMeaning(items: seq<Item>, current: Option<string>)
    requires |InProgressIds(items)| <= 1
    ensures NamesCurrent(items, current) <==>
            current == if InProgressIds(items) == [] then None else Some(InProgressIds(items)[0])
  {
    var ids := InProgressIds(items);
    InProgressIdsMeaning(items);
    if ids == [] {
      assert forall k :: 0 <= k < |items| ==> items[k].id !in ids;
    } else {
      assert ids[0] in ids && forall id :: id in ids ==> id == ids[0];
      assert forall k :: 0 <= k < |items| && items[k].status.InProgress? ==> items[k].id in ids;
    }
  }

  lemma {:induction false} StatusesByPhaseMeaning(items: seq<Item>, phase: string)
    ensures phase in StatusesByPhase(items) <==> StatusesIn(items, phase) != {}
    ensures phase in StatusesByPhase(items) ==> StatusesByPhase(items)[phase] == StatusesIn(items, phase)
  {
    if items != [] {
      var shorter, last := items[..|items| - 1], items[|items| - 1];
      StatusesByPhaseMeaning(shorter, phase);
      assert items == shorter + [last];
      assert StatusesIn(items, phase) == StatusesIn(shorter, phase) + if phase == last.phase then {last.status} else {};
    }
  }

  lemma InStepMeaning(items: seq<Item>, phases: seq<Phase>)
    ensures InStep(items, phases) <==>
      && StatusesByPhase(items).Keys == (set phase | phase in phases :: phase.id)
      && forall phase :: phase in phases ==>
        phase.id in StatusesByPhase(items) && phase.status == PhaseStatus(StatusesByPhase(items)[phase.id])
  {
    var seen := StatusesByPhase(items);
    forall phase ensures phase in seen <==> StatusesIn(items, phase) != {}
      ensures phase in seen ==> seen[phase] == StatusesIn(items, phase) {
      StatusesByPhaseMeaning(items, phase);
    }
    forall i | 0 <= i < |items| ensures items[i].phase in seen {
      assert items[i].status in StatusesIn(items, items[i].phase);
    }
    forall phase | phase in seen ensures exists i :: 0 <= i < |items| && items[i].phase == phase {
      var status :| status in StatusesIn(items, phase);
    }
    var named := set phase | phase in phases :: phase.id;
    assert forall p :: 0 <= p < |phases| ==> phases[p] in phases && phases[p].id in named;
    assert forall id :: id in named <==> exists p :: 0 <= p < |phases| && phases[p].id == id;
  }

  /** `validate_delivery_generation`. */
  method Validate(g: Generation) returns (ok: bool)
    ensures ok <==> ValidGeneration(g)
  {
    var items, phases := g.queue.items, g.program.phases;
    if g.queue.schemaVersion != 1 {
      return false;
    }
    var itemsOk, inProgress, seen := CheckItems(items);
    InProgressIdsMeaning(items);
    if !itemsOk || |inProgress| > 1 {
      return false;
    }
    NamesCurrentMeaning(items, g.state.currentWorkItem);
    var expected := if inProgress == [] then None else Some(inProgress[0]);
    if g.state.schemaVersion != 1 || g.state.currentWorkItem != expected {
      return false;
    }
    var phasesOk := CheckPhases(phases);
    InStepMeaning(items, phases);
    ok := g.program.schemaVersion == 1 && phasesOk
          && seen.Keys == (set phase | phase in phases :: phase.id)
          && forall phase | phase in phases :: phase.status == PhaseStatus(seen[phase.id]);
  }

  lemma OneMoreItem(items: seq<Item>, i: nat)
    requires i < |items|
    ensures items[..i + 1][..i] == items[..i]
    ensures Ids(items[..i + 1]) == Ids(items[..i]) + {items[i].id}
    ensures DistinctItems(items[..i + 1]) <==>
            DistinctItems(items[..i]) && WellFormed(items[i]) && items[i].id !in Ids(items[..i])
    ensures DistinctItems(items) ==> DistinctItems(items[..i + 1])
  {
    var shorter, longer := items[..i], items[..i + 1];
    assert longer == shorter + [items[i]];
    assert forall id :: id in Ids(shorter) <==> exists k :: 0 <= k < i && items[k].id == id;
    if DistinctItems(longer) {
      assert forall k :: 0 <= k < i ==> longer[k].id != longer[i].id;
    }
  }

  method CheckItems(items: seq<Item>) returns (ok: bool, inProgress: seq<string>, seen: map<string, set<Status>>)
    ensures ok <==> DistinctItems(items)
    ensures ok ==> inProgress == InProgressIds(items) && seen == StatusesByPhase(items)
  {
    var ids: set<string> := {};
    inProgress, seen := [], map[];
    for i := 0 to |items|
      invariant ids == Ids(items[..i])
      invariant DistinctItems(items[..i])
      invariant inProgress == InProgressIds(items[..i]) && seen == StatusesByPhase(items[..i])
    {
      var item := items[i];
      OneMoreItem(items, i);
      if !WellFormed(item) || item.id in ids {
        return false, inProgress, seen;
      }
      ids := ids + {item.id};
      if item.status.InProgress? {
        inProgress := inProgress + [item.id];
      }
      seen := seen[item.phase := (if item.phase in seen then seen[item.phase] else {}) + {item.status}];
    }
    assert items[..|items|] == items;
    ok := true;
  }

  method CheckPhases(phases: seq<Phase>) returns (ok: bool)
    ensures ok <==> ValidPhases(phases)
  {
    var ids: set<string> := {};
    for p := 0 to |phases|
      invariant ids == set phase | phase in phases[..p] :: phase.id
      invariant ValidPhases(phases[..p])
    {
      var phase := phases[p];
      assert phases[..p + 1] == phases[..p] + [phase];
      assert phase.id in ids <==> exists k :: 0 <= k < p && phases[k].id == phase.id;
      if phase.id == "" || phase.id in ids || phase.status.Unknown? || phase.status.Ready? {
        return false;
      }
      ids := ids + {phase.id};
    }
    assert phases[..|phases|] == phases;
    ok := true;
  }
}

/** The journaled transaction over the three delivery files (`scripts/delivery_state.py`). Each durable
    step (publish the journal, replace one file, remove the journal) uses one unit of `power`; when none
    is left the process has stopped, so every value of `power` is a stop between two steps. */
module DeliveryJournal {
  import opened Basics
  import opened DeliveryGeneration

  const QUEUE := "delivery/WORK_QUEUE.yaml"
  const STATE := "delivery/LOOP_STATE.yaml"
  const PROGRAM := "delivery/PROGRAM_PLAN.yaml"

  datatype Document = QueueDocument(queue: Queue) | StateDocument(state: LoopState) | ProgramDocument(program: Program)

  /** A file's bytes: the canonical dump of a document, or anything else, and what that loads as. */
  datatype Content = Canonical(document: Document) | OtherBytes(n: nat, loads: Option<Document>)

  /** SHA-256 as an injection: a digest is the content it was taken of. */
  datatype Digest = Sha256(of: Content) | NotADigest(n: nat)

  datatype Target = Target(path: string, sha256: Digest, yaml: Content)

  datatype Journal = Journal(schemaVersion: int, targets: seq<Target>) | Unparsable(n: nat)

  datatype Disk = Disk(files: map<string, Content>, journal: Option<Journal>)

  datatype End = Done | NothingToRecover | Stopped
    | InvalidJournal | InvalidGeneration | VerificationFailed | JournalPending

  function Documents(g: Generation): seq<Document> {
    [QueueDocument(g.queue), StateDocument(g.state), ProgramDocument(g.program)]
  }

  function TargetPaths(): seq<string> {
    [QUEUE, STATE, PROGRAM]
  }

  function TargetFor(path: string, document: Document): Target {
    Target(path, Sha256(Canonical(document)), Canonical(document))
  }

  /** `_build_journal`. */
  function BuildJournal(g: Generation): Journal {
    Journal(1, [TargetFor(QUEUE, QueueDocument(g.queue)), TargetFor(STATE, StateDocument(g.state)),
                TargetFor(PROGRAM, ProgramDocument(g.program))])
  }

  predicate ValidTarget(target: Target, path: string) {
    target.path == path && target.sha256 == Sha256(target.yaml) && target.yaml.Canonical?
  }

  /** `_validated_entries`. */
  predicate ValidEntries(journal: Journal) {
    && journal.Journal? && journal.schemaVersion == 1 && |journal.targets| == 3
    && forall i | 0 <= i < 3 :: ValidTarget(journal.targets[i], TargetPaths()[i])
  }

  /** The generation a valid journal holds; documents of another kind fail its validation. */
  function JournaledGeneration(journal: Journal): Option<Generation>
    requires ValidEntries(journal)
  {
    var a, b, c := journal.targets[0].yaml.document, journal.targets[1].yaml.document, journal.targets[2].yaml.document;
    if a.QueueDocument? && b.StateDocument? && c.ProgramDocument?
    then Some(Generation(a.queue, b.state, c.program)) else None
  }

  predicate Holds(files: map<string, Content>, target: Target) {
    target.path in files && Sha256(files[target.path]) == target.sha256
  }

  /** The replacement loop: what it leaves, and the power left; `None` when it stopped on the way. */
  function ReplaceTargets(files: map<string, Content>, targets: seq<Target>,
                          power: nat): (map<string, Content>, Option<nat>)
    decreases |targets|
  {
    if targets == [] then (files, Some(power))
    else if Holds(files, targets[0]) then ReplaceTargets(files, targets[1..], power)
    else if power == 0 then (files, None)
    else ReplaceTargets(files[targets[0].path := targets[0].yaml], targets[1..], power - 1)
  }

  /** `_roll_forward`. */
  ghost function RolledForward(disk: Disk, journal: Journal, power: nat): (Disk, End) {
    if !ValidEntries(journal) then (disk, InvalidJournal)
    else if JournaledGeneration(journal).None? || !ValidGeneration(JournaledGeneration(journal).value)
    then (disk, InvalidGeneration)
    else
      var (files, left) := ReplaceTargets(disk.files, journal.targets, power);
      if left.None? then (disk.(files := files), Stopped)
      else if exists i :: 0 <= i < 3 && !Holds(files, journal.targets[i])
      then (disk.(files := files), VerificationFailed)
      else if left.value == 0 then (disk.(files := files), Stopped)
      else (Disk(files, None), Done)
  }

  /** `recover_delivery_state`. */
  ghost function Recovered(disk: Disk, power: nat): (Disk, End) {
    if disk.journal.None? then (disk, NothingToRecover) else RolledForward(disk, disk.journal.value, power)
  }

  /** `commit_delivery_state`. */
  ghost function Committed(disk: Disk, g: Generation, power: nat): (Disk, End) {
    if !ValidGeneration(g) then (disk, InvalidGeneration)
    else if disk.journal.Some? then (disk, JournalPending)
    else if power == 0 then (disk, Stopped)
    else RolledForward(disk.(journal := Some(BuildJournal(g))), BuildJournal(g), power - 1)
  }

  // ----- the three operations, step by step on the disk -----

  class DeliveryDirectory {
    var files: map<string, Content>
    var journal: Option<Journal>
    var power: nat

    ghost function Value(): Disk reads this { Disk(files, journal) }

    constructor (disk: Disk, power: nat)
      ensures Value() == disk && this.power == power
    {
      files, journal, this.power := disk.files, disk.journal, power;
    }

    method RollForward(transaction: Journal) returns (end: End)
      modifies this
      ensures (Value(), end) == RolledForward(old(Value()), transaction, old(power))
    {
      if !ValidEntries(transaction) {
        return InvalidJournal;
      }
      var generation := JournaledGeneration(transaction);
      if generation.None? {
        return InvalidGeneration;
      }
      var valid := Validate(generation.value);
      if !valid {
        return InvalidGeneration;
      }
      var targets := transaction.targets;
      var i := 0;
      while i < |targets|
        invariant 0 <= i <= |targets| && journal == old(journal)
        invariant ReplaceTargets(old(files), targets, old(power)) == ReplaceTargets(files, targets[i..], power)
      {
        if !Holds(files, targets[i]) {
          if power == 0 {
            return Stopped;
          }
          files, power := files[targets[i].path := targets[i].yaml], power - 1;
        }
        i := i + 1;
      }
      if exists k | 0 <= k < 3 :: !Holds(files, targets[k]) {
        return VerificationFailed;
      }
      if power == 0 {
        return Stopped;
      }
      journal, power := None, power - 1;
      return Done;
    }

    method Recover() returns (end: End)
      modifies this
      ensures (Value(), end) == Recovered(old(Value()), old(power))
    {
      if journal.None? {
        return NothingToRecover;
      }
      end := RollForward(journal.value);
    }

    method Commit(g: Generation) returns (end: End)
      modifies this
      ensures (Value(), end) == Committed(old(Value()), g, old(power))
    {
      var valid := Validate(g);
      if !valid {
        return InvalidGeneration;
      }
      if journal.Some? {
        return JournalPending;
      }
      if power == 0 {
        return Stopped;
      }
      journal, power := Some(BuildJournal(g)), power - 1;
      end := RollForward(BuildJournal(g));
    }
  }

  // ----- crash atomicity -----

  function FileOf(g: Generation, i: nat): Content
    requires i < 3
  {
    Canonical(Documents(g)[i])
  }

  /** File `i` of the directory holds its document of `g`. */
  predicate HasFile(files: map<string, Content>, g: Generation, i: nat)
    requires i < 3
  {
    TargetPaths()[i] in files && files[TargetPaths()[i]] == FileOf(g, i)
  }

  /** No transaction is open and the three files hold `g`. */
  ghost predicate Settled(disk: Disk, g: Generation) {
    ValidGeneration(g) && disk.journal.None? && forall i: nat :: i < 3 ==> HasFile(disk.files, g, i)
  }

  /** File `i` is as it was, whatever its bytes. */
  predicate Untouched(files: map<string, Content>, old': map<string, Content>, i: nat)
    requires i < 3
  {
    var path := TargetPaths()[i];
    (path in files <==> path in old') && (path in files ==> files[path] == old'[path])
  }

  /** The journal holds `next`; each file is as it was or holds its document of `next`. */
  ghost predicate Halfway(disk: Disk, old': map<string, Content>, next: Generation) {
    && ValidGeneration(next) && disk.journal == Some(BuildJournal(next))
    && forall i: nat :: i < 3 ==> Untouched(disk.files, old', i) || HasFile(disk.files, next, i)
  }

  ghost predicate SameElsewhere(before: map<string, Content>, after: map<string, Content>) {
    forall path :: path !in TargetPaths() ==>
      (path in before <==> path in after) && (path in before ==> before[path] == after[path])
  }

  lemma OneFileReplaced(files: map<string, Content>, old': map<string, Content>, next: Generation, k: nat)
    requires k < 3
    ensures var after := files[TargetPaths()[k] := FileOf(next, k)];
      && (forall i: nat :: i < 3 && i != k ==> (HasFile(after, next, i) <==> HasFile(files, next, i)))
      && (forall i: nat :: i < 3 && i != k ==> (Untouched(after, old', i) <==> Untouched(files, old', i)))
      && HasFile(after, next, k) && SameElsewhere(files, after)
  {
    assert QUEUE[9] == 'W' && STATE[9] == 'L' && PROGRAM[9] == 'P';
    assert TargetPaths()[k] in TargetPaths();
  }

  lemma TargetShape(g: Generation, k: nat)
    requires k < 3
    ensures BuildJournal(g).targets[k] == Target(TargetPaths()[k], Sha256(FileOf(g, k)), FileOf(g, k))
    ensures forall files :: Holds(files, BuildJournal(g).targets[k]) <==> HasFile(files, g, k)
  {
  }

  lemma {:induction false} ReplacingKeepsBoth(files: map<string, Content>, old': map<string, Content>, next: Generation,
                                              k: nat, power: nat)
    requires k <= 3
    requires forall i: nat :: i < 3 ==> Untouched(files, old', i) || HasFile(files, next, i)
    ensures var (after, left) := ReplaceTargets(files, BuildJournal(next).targets[k..], power);
      && (forall i: nat :: i < 3 ==> Untouched(after, old', i) || HasFile(after, next, i))
      && (forall i: nat :: i < 3 && HasFile(files, next, i) ==> HasFile(after, next, i))
      && (left.Some? ==> left.value + 3 - k >= power && forall i: nat :: k <= i < 3 ==> HasFile(after, next, i))
      && (left.None? ==> power < 3 - k) && SameElsewhere(files, after)
    decreases 3 - k
  {
    var targets := BuildJournal(next).targets;
    if k < 3 {
      TargetShape(next, k);
      assert targets[k..][0] == targets[k] && targets[k..][1..] == targets[k + 1..];
      OneFileReplaced(files, old', next, k);
      if Holds(files, targets[k]) {
        ReplacingKeepsBoth(files, old', next, k + 1, power);
      } else if power > 0 {
        ReplacingKeepsBoth(files[targets[k].path := targets[k].yaml], old', next, k + 1, power - 1);
      }
    }
  }

  lemma JournalHoldsItsGeneration(g: Generation)
    ensures ValidEntries(BuildJournal(g)) && JournaledGeneration(BuildJournal(g)) == Some(g)
  {
    assert forall i: nat :: i < 3 ==> ValidTarget(BuildJournal(g).targets[i], TargetPaths()[i]);
  }

  /** Recovery of an open transaction, stopped anywhere: it stays open, or all three files are new. */
  lemma RecoveryIsAtomic(disk: Disk, old': map<string, Content>, next: Generation, power: nat)
    requires Halfway(disk, old', next)
    ensures var (after, end) := Recovered(disk, power);
      && (end == Stopped || end == Done) && (power >= 4 ==> end == Done)
      && (end == Stopped ==> Halfway(after, old', next)) && (end == Done ==> Settled(after, next))
      && SameElsewhere(disk.files, after.files)
  {
    JournalHoldsItsGeneration(next);
    var targets := BuildJournal(next).targets;
    ReplacingKeepsBoth(disk.files, old', next, 0, power);
    assert targets[0..] == targets;
    var (files, left) := ReplaceTargets(disk.files, targets, power);
    if left.Some? {
      forall i: nat | i < 3 ensures Holds(files, targets[i]) {
        TargetShape(next, i);
        assert HasFile(files, next, i);
      }
    }
  }

  /** A commit, stopped anywhere, whatever the old files hold: nothing happened, or the transaction is open, each
      file as it was or new, or it is done. */
  lemma CommitIsAtomic(disk: Disk, next: Generation, power: nat)
    requires disk.journal.None? && ValidGeneration(next)
    ensures var (after, end) := Committed(disk, next, power);
      && (end == Stopped || end == Done) && (power >= 5 ==> end == Done)
      && (end == Stopped ==> if power == 0 then after == disk else Halfway(after, disk.files, next))
      && (end == Done ==> Settled(after, next)) && SameElsewhere(disk.files, after.files)
  {
    if power > 0 {
      RecoveryIsAtomic(disk.(journal := Some(BuildJournal(next))), disk.files, next, power - 1);
    }
  }

  // ----- any number of processes, each stopped anywhere -----

  /** One process: it recovers, and then, if it got that far, commits what it was asked to. */
  datatype Process = Process(recoveryPower: nat, request: Option<Generation>, commitPower: nat)

  /** What the directory last held: the files it started with, whatever their bytes, or a published generation. */
  datatype Latest = Original(files: map<string, Content>) | Published(g: Generation)

  /** The directory afterwards, and what it last held: a request counts as published from the step that
      writes its journal. */
  ghost function AfterProcess(disk: Disk, latest: Latest, p: Process): (Disk, Latest) {
    var (ready, end) := Recovered(disk, p.recoveryPower);
    if !(end == Done || end == NothingToRecover) || p.request.None? then (ready, latest)
    else
      (Committed(ready, p.request.value, p.commitPower).0,
       if ValidGeneration(p.request.value) && p.commitPower > 0 then Published(p.request.value) else latest)
  }

  ghost function AfterProcesses(disk: Disk, latest: Latest, ps: seq<Process>): (Disk, Latest)
    decreases |ps|
  {
    if ps == [] then (disk, latest)
    else var (next, now) := AfterProcess(disk, latest, ps[0]); AfterProcesses(next, now, ps[1..])
  }

  /** No transaction is open, and all three files are the original ones, or those of the published generation. */
  ghost predicate Rests(disk: Disk, latest: Latest) {
    match latest
    case Original(files) => disk.journal.None? && forall i: nat :: i < 3 ==> Untouched(disk.files, files, i)
    case Published(g) => Settled(disk, g)
  }

  ghost predicate Recoverable(disk: Disk, latest: Latest) {
    Rests(disk, latest) || (latest.Published? && exists before :: Halfway(disk, before, latest.g))
  }

  lemma RecoveryRests(disk: Disk, latest: Latest, power: nat)
    requires Recoverable(disk, latest)
    ensures var (ready, end) := Recovered(disk, power);
      && (end == Stopped || end == Done || end == NothingToRecover) && (power >= 4 ==> end != Stopped)
      && (if end == Stopped then Recoverable(ready, latest) else Rests(ready, latest))
      && SameElsewhere(disk.files, ready.files)
  {
    if !Rests(disk, latest) {
      var before :| Halfway(disk, before, latest.g);
      RecoveryIsAtomic(disk, before, latest.g, power);
    }
  }

  lemma ProcessIsAtomic(disk: Disk, latest: Latest, p: Process)
    requires Recoverable(disk, latest)
    ensures var (after, now) := AfterProcess(disk, latest, p);
      Recoverable(after, now) && SameElsewhere(disk.files, after.files)
  {
    var (ready, end) := Recovered(disk, p.recoveryPower);
    RecoveryRests(disk, latest, p.recoveryPower);
    if end != Stopped && p.request.Some? && ValidGeneration(p.request.value) {
      CommitIsAtomic(ready, p.request.value, p.commitPower);
    }
  }

  /** However many processes stop, and wherever, the next recovery that completes leaves all three files as they
      were at first, if nothing was ever published, or in the last published generation, which is valid; and it
      changes no other file. */
  lemma {:induction false} CrashAtomicity(disk: Disk, latest: Latest, ps: seq<Process>, power: nat)
    requires Recoverable(disk, latest) && power >= 4
    ensures var (after, now) := AfterProcesses(disk, latest, ps);
      && Recoverable(after, now) && Rests(Recovered(after, power).0, now)
      && SameElsewhere(disk.files, Recovered(after, power).0.files)
    decreases |ps|
  {
    if ps == [] {
      RecoveryRests(disk, latest, power);
    } else {
      ProcessIsAtomic(disk, latest, ps[0]);
      var (next, now) := AfterProcess(disk, latest, ps[0]);
      CrashAtomicity(next, now, ps[1..], power);
    }
  }

  lemma AcceptedIsBuilt(journal: Journal)
    requires ValidEntries(journal) && JournaledGeneration(journal).Some?
    ensures journal == BuildJournal(JournaledGeneration(journal).value)
  {
    var g := JournaledGeneration(journal).value;
    assert forall i :: 0 <= i < 3 ==> ValidTarget(journal.targets[i], TargetPaths()[i]);
    assert journal.targets == BuildJournal(g).targets;
  }

  /** A journal that is not exactly one valid generation changes nothing. */
  lemma BadJournalChangesNothing(disk: Disk, power: nat)
    requires disk.journal.Some?
    requires forall g :: ValidGeneration(g) ==> disk.journal.value != BuildJournal(g)
    ensures var (after, end) := Recovered(disk, power);
      after == disk && (end == InvalidJournal || end == InvalidGeneration)
  {
    var journal := disk.journal.value;
    if ValidEntries(journal) && JournaledGeneration(journal).Some? {
      AcceptedIsBuilt(journal);
    }
  }
}

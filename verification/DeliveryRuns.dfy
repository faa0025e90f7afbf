/** Whole runs of `scripts/record_delivery_evidence.py` on the disk: every process recovers, reads the three
    files, guards and advances the generation, and commits it; each may stop between any two steps. */
module DeliveryRuns {
  import opened Basics
  import opened DeliveryGeneration
  import opened DeliveryTransitions
  import Journal = DeliveryJournal

  /** One process, and how far its recovery and its commit get. */
  datatype Evidence = Evidence(request: Request, recoveryPower: nat, commitPower: nat)

  /** What the file loads as, canonical or not. */
  function DocumentAt(files: map<string, Journal.Content>, path: string): Option<Journal.Document> {
    if path !in files then None
    else match files[path]
      case Canonical(document) => Some(document)
      case OtherBytes(_, loads) => loads
  }

  /** The generation that the three files hold, if they are one. */
  function ReadFiles(files: map<string, Journal.Content>): Option<Generation> {
    var a, b := DocumentAt(files, Journal.QUEUE), DocumentAt(files, Journal.STATE);
    var c := DocumentAt(files, Journal.PROGRAM);
    if a.Some? && a.value.QueueDocument? && b.Some? && b.value.StateDocument? && c.Some? && c.value.ProgramDocument?
    then Some(Generation(a.value.queue, b.value.state, c.value.program)) else None
  }

  /** What `main` is about to commit. */
  ghost function Requested(files: map<string, Journal.Content>, r: Request): Option<Generation> {
    var g := ReadFiles(files);
    if g.Some? && Refused(g.value, r).None? then Some(Advanced(g.value, r)) else None
  }

  /** The directory afterwards, and what it last held. */
  ghost function AfterEvidence(disk: Journal.Disk, latest: Journal.Latest, e: Evidence)
    : (Journal.Disk, Journal.Latest)
  {
    var (ready, _) := Journal.Recovered(disk, e.recoveryPower);
    Journal.AfterProcess(disk, latest,
                         Journal.Process(e.recoveryPower, Requested(ready.files, e.request), e.commitPower))
  }

  ghost function AfterAllEvidence(disk: Journal.Disk, latest: Journal.Latest,
                                  es: seq<Evidence>): (Journal.Disk, Journal.Latest)
    decreases |es|
  {
    if es == [] then (disk, latest)
    else var (next, now) := AfterEvidence(disk, latest, es[0]); AfterAllEvidence(next, now, es[1..])
  }

  /** The generation that the directory last held, if its files were one. */
  function GenerationOf(latest: Journal.Latest): Option<Generation> {
    match latest
    case Original(files) => ReadFiles(files)
    case Published(g) => Some(g)
  }

  lemma RestsIsRead(disk: Journal.Disk, latest: Journal.Latest)
    requires Journal.Rests(disk, latest)
    ensures ReadFiles(disk.files) == GenerationOf(latest)
  {
    match latest
    case Original(files) =>
      assert Journal.Untouched(disk.files, files, 0) && Journal.Untouched(disk.files, files, 1);
      assert Journal.Untouched(disk.files, files, 2);
    case Published(g) =>
      assert Journal.HasFile(disk.files, g, 0) && Journal.HasFile(disk.files, g, 1)
          && Journal.HasFile(disk.files, g, 2);
  }

  /** Complete items stay complete. */
  ghost predicate KeepsComplete(before: Generation, after: Generation) {
    forall id :: HasStatus(before.queue.items, id, Complete) ==> HasStatus(after.queue.items, id, Complete)
  }

  /** What the directory holds follows from what it held by one accepted request, or is the same. */
  ghost predicate Follows(before: Journal.Latest, after: Journal.Latest, r: Request) {
    || after == before
    || (GenerationOf(before).Some? && Refused(GenerationOf(before).value, r).None?
        && after == Journal.Published(Advanced(GenerationOf(before).value, r)))
  }

  /** From `before` to `after` no dependency got lost and nothing complete was undone. */
  ghost predicate Safe(before: Option<Generation>, after: Option<Generation>) {
    if before.None? then after.None?
    else after.Some? && DependenciesComplete(after.value.queue.items) && KeepsComplete(before.value, after.value)
  }

  lemma FollowingIsSafe(before: Journal.Latest, after: Journal.Latest, r: Request)
    requires Follows(before, after, r)
    requires GenerationOf(before).Some? ==> DependenciesComplete(GenerationOf(before).value.queue.items)
    ensures Safe(GenerationOf(before), GenerationOf(after))
  {
    if after != before {
      var g := GenerationOf(before).value;
      DependenciesStayComplete(g, r);
      forall id | HasStatus(g.queue.items, id, Complete) ensures HasStatus(Advanced(g, r).queue.items, id, Complete) {
        CompleteStays(g, r, id);
      }
    }
  }

  lemma EvidenceFollows(disk: Journal.Disk, latest: Journal.Latest, e: Evidence)
    requires Journal.Recoverable(disk, latest)
    ensures Follows(latest, AfterEvidence(disk, latest, e).1, e.request)
  {
    var (ready, end) := Journal.Recovered(disk, e.recoveryPower);
    Journal.RecoveryRests(disk, latest, e.recoveryPower);
    if end != Journal.Stopped {
      RestsIsRead(ready, latest);
    }
  }

  lemma EvidenceIsAtomic(disk: Journal.Disk, latest: Journal.Latest, e: Evidence)
    requires Journal.Recoverable(disk, latest)
    ensures var (after, now) := AfterEvidence(disk, latest, e);
      Journal.Recoverable(after, now) && Journal.SameElsewhere(disk.files, after.files)
  {
    var (ready, _) := Journal.Recovered(disk, e.recoveryPower);
    Journal.ProcessIsAtomic(disk, latest,
                            Journal.Process(e.recoveryPower, Requested(ready.files, e.request), e.commitPower));
  }

  lemma SafeTwice(a: Option<Generation>, b: Option<Generation>, c: Option<Generation>)
    requires Safe(a, b) && Safe(b, c)
    ensures Safe(a, c)
  {
  }

  /** However many evidence processes run, refused or not, and wherever each of them stops, and whether or not the
      files were canonical at first: the next completed recovery leaves the three files as one generation, in which
      nothing is in progress or complete before its dependencies are, and what was complete at first still is.
      Files that are no generation are left as they are. */
  lemma {:induction false} EvidenceSafety(disk: Journal.Disk, latest: Journal.Latest, es: seq<Evidence>, power: nat)
    requires Journal.Recoverable(disk, latest) && power >= 4
    requires GenerationOf(latest).Some? ==> DependenciesComplete(GenerationOf(latest).value.queue.items)
    ensures var (after, now) := AfterAllEvidence(disk, latest, es);
      && Journal.Rests(Journal.Recovered(after, power).0, now)
      && ReadFiles(Journal.Recovered(after, power).0.files) == GenerationOf(now)
      && Safe(GenerationOf(latest), GenerationOf(now)) && (GenerationOf(latest).None? ==> now == latest)
    decreases |es|
  {
    if es == [] {
      Journal.RecoveryRests(disk, latest, power);
      RestsIsRead(Journal.Recovered(disk, power).0, latest);
    } else {
      var (next, now) := AfterEvidence(disk, latest, es[0]);
      EvidenceIsAtomic(disk, latest, es[0]);
      EvidenceFollows(disk, latest, es[0]);
      FollowingIsSafe(latest, now, es[0].request);
      EvidenceSafety(next, now, es[1..], power);
      SafeTwice(GenerationOf(latest), GenerationOf(now), GenerationOf(AfterAllEvidence(next, now, es[1..]).1));
    }
  }
}

/** Optimistic concurrency on one workflow snapshot: workers load or refresh, change their copy
    and flush it against the durable version.  `builtOn` remembers the version of the snapshot a
    copy descends from, so that a lost update would show. */
module VersionFence {
  import opened Options
  import opened Finite

  type Payload = string

  datatype Row = Row(version: nat, payload: Payload)

  /** The repository's dictionaries at this workflow: `instances`, `_workflow_versions` (0 when
      absent), `_workflow_baseline` and `_flushed_workflows`. */
  datatype Repo = Repo(instance: Option<Payload>, version: nat, baseline: Option<Payload>,
                       flushed: Option<Row>, builtOn: nat)

  const UNLOADED := Repo(None, 0, None, None, 0)

  // ----- repository operations -----

  function RefreshSpec(repo: Repo, row: Option<Row>): Repo {
    match row
    case None => repo.(instance := None)
    case Some(r) =>
      repo.(instance := Some(r.payload), version := r.version, baseline := Some(r.payload), builtOn := r.version)
  }

  /** Change the cached copy, or add a new instance that descends from nothing durable. */
  function MutateSpec(repo: Repo, payload: Payload): Repo {
    if repo.instance.Some? then repo.(instance := Some(payload))
    else repo.(instance := Some(payload), builtOn := 0)
  }

  predicate Dirty(repo: Repo) {
    repo.instance.Some? && repo.baseline != repo.instance
  }

  /** Insert when there is no row; otherwise update only the expected version. */
  predicate PassesFence(repo: Repo, row: Option<Row>) {
    row == None || row.value.version == repo.version
  }

  function FlushedRow(repo: Repo): Row
    requires repo.instance.Some?
  {
    Row(repo.version + 1, repo.instance.value)
  }

  function CompleteSpec(repo: Repo): Repo {
    if repo.flushed.Some? then
      repo.(version := repo.flushed.value.version, baseline := Some(repo.flushed.value.payload), flushed := None)
    else repo
  }

  class WorkflowRepository {
    var repo: Repo

    constructor ()
      ensures repo == UNLOADED
    {
      repo := UNLOADED;
    }

    method RefreshWorkflow(row: Option<Row>)
      modifies this
      ensures repo == RefreshSpec(old(repo), row)
      ensures row.None? ==> repo.instance.None? && repo.version == old(repo).version && repo.baseline == old(repo).baseline
      ensures row.Some? ==> repo.instance == repo.baseline == Some(row.value.payload) && repo.version == row.value.version
      ensures repo.flushed == old(repo).flushed
    {
      if row.None? {
        repo := repo.(instance := None);
        return;
      }
      repo := repo.(instance := Some(row.value.payload), builtOn := row.value.version);
      repo := repo.(version := row.value.version);
      repo := repo.(baseline := Some(row.value.payload));
    }

    /** `flush_in_transaction`: the row this transaction would write, or a stale rejection. */
    method FlushInTransaction(row: Option<Row>) returns (written: Option<Row>, stale: bool)
      modifies this
      ensures stale == (Dirty(old(repo)) && !PassesFence(old(repo), row))
      ensures row.None? ==> !stale
      ensures stale ==> row.Some? && row.value.version != repo.version
      ensures written == if Dirty(old(repo)) && !stale then Some(FlushedRow(old(repo))) else row
      ensures repo == if Dirty(old(repo)) && !stale then old(repo).(flushed := written) else old(repo)
    {
      if repo.instance.None? || repo.baseline == repo.instance {
        return row, false;
      }
      var next := repo.version + 1;
      if row.Some? && row.value.version != repo.version {
        return row, true;
      }
      written := Some(Row(next, repo.instance.value));
      repo := repo.(flushed := written);
      return written, false;
    }

    method CheckpointCompleted()
      modifies this
      ensures repo == CompleteSpec(old(repo))
    {
      if repo.flushed.Some? {
        repo := repo.(version := repo.flushed.value.version);
        repo := repo.(baseline := Some(repo.flushed.value.payload));
        repo := repo.(flushed := None);
      }
    }
  }

  // ----- interleaved workers -----

  datatype Commit = Commit(row: Row, builtOn: nat)

  datatype World = World(row: Option<Row>, repos: map<nat, Repo>, history: seq<Commit>)

  const INIT := World(None, map[], [])

  /** A flush whose transaction aborts after the fence was passed either discards the worker's
      repository or keeps it; a process may also vanish at any time. */
  datatype Step =
    | Join(id: nat)
    | Refresh(id: nat)
    | Mutate(id: nat, payload: Payload)
    | Flush(id: nat, commits: bool, keepOnAbort: bool)
    | Complete(id: nat)
    | Vanish(id: nat)

  function Next(w: World, step: Step): World {
    if step.Join? then
      if step.id in w.repos then w else w.(repos := w.repos[step.id := UNLOADED])
    else if step.id !in w.repos then w
    else
      var repo := w.repos[step.id];
      match step
      case Join(_) => w
      case Refresh(id) => w.(repos := w.repos[id := RefreshSpec(repo, w.row)])
      case Mutate(id, payload) => w.(repos := w.repos[id := MutateSpec(repo, payload)])
      case Flush(id, commits, keep) =>
        if !Dirty(repo) || !PassesFence(repo, w.row) then w
        else
          var next := FlushedRow(repo);
          if commits then
            World(Some(next), w.repos[id := repo.(flushed := Some(next), builtOn := next.version)],
                  w.history + [Commit(next, repo.builtOn)])
          else if keep then w.(repos := w.repos[id := repo.(flushed := Some(next))])
          else w.(repos := w.repos - {id})
      case Complete(id) => w.(repos := w.repos[id := CompleteSpec(repo)])
      case Vanish(id) => w.(repos := w.repos - {id})
  }

  function Run(w: World, steps: seq<Step>): World
    decreases |steps|
  {
    if steps == [] then w else Next(Run(w, steps[..|steps| - 1]), steps[|steps| - 1])
  }

  predicate Discards(step: Step) {
    step.Flush? && !step.commits ==> !step.keepOnAbort
  }

  /** An abort after the fence was passed, by a worker that keeps its repository. */
  predicate KeepsAborted(w: World, step: Step) {
    && step.Flush? && !step.commits && step.keepOnAbort
    && step.id in w.repos && Dirty(w.repos[step.id]) && PassesFence(w.repos[step.id], w.row)
  }

  ghost predicate RepoOk(w: World, repo: Repo) {
    && repo.version <= repo.builtOn <= |w.history|
    && (repo.flushed.Some? ==> 1 <= repo.flushed.value.version <= repo.builtOn)
    && (repo.instance == None ==> repo.version == 0 && repo.flushed == None)
  }

  /** Versions count the commits and each commit descends from the one just before it. */
  ghost predicate Chained(history: seq<Commit>) {
    forall i :: 0 <= i < |history| ==> history[i].row.version == i + 1 && history[i].builtOn == i
  }

  ghost predicate Inv(w: World) {
    && Chained(w.history)
    && (w.row == if w.history == [] then None else Some(w.history[|w.history| - 1].row))
    && (forall id :: id in w.repos ==> RepoOk(w, w.repos[id]))
  }

  lemma NextKeepsInv(w: World, step: Step)
    requires Inv(w) && !KeepsAborted(w, step)
    ensures Inv(Next(w, step))
  {
    if step.id in w.repos {
      assert RepoOk(w, w.repos[step.id]);
    }
    var v := Next(w, step);
    forall id | id in v.repos
      ensures RepoOk(v, v.repos[id])
    {
      assert id in w.repos ==> RepoOk(w, w.repos[id]);
    }
  }

  ghost predicate Discarding(steps: seq<Step>) {
    forall i :: 0 <= i < |steps| ==> Discards(steps[i])
  }

  lemma {:induction false} RunKeepsInv(w: World, steps: seq<Step>)
    requires Inv(w) && Discarding(steps)
    ensures Inv(Run(w, steps))
    decreases |steps|
  {
    if steps != [] {
      RunKeepsInv(w, steps[..|steps| - 1]);
      NextKeepsInv(Run(w, steps[..|steps| - 1]), steps[|steps| - 1]);
    }
  }

  /** For every interleaving in which an aborted flush costs the worker its repository,
      committed versions are 1, 2, 3, ... and each snapshot descends from the one just before
      it; the durable row is the last one committed. */
  lemma NoUpdateLost(steps: seq<Step>)
    requires Discarding(steps)
    ensures var w := Run(INIT, steps);
            && Chained(w.history)
            && (w.row == if w.history == [] then None else Some(w.history[|w.history| - 1].row))
  {
    RunKeepsInv(INIT, steps);
  }

  // ----- the discard is needed in every state -----

  lemma Extend(w: World, steps: seq<Step>, step: Step) returns (longer: seq<Step>)
    requires Discarding(steps) && Discards(step)
    ensures Discarding(longer) && Run(w, longer) == Next(Run(w, steps), step)
  {
    longer := steps + [step];
    assert longer[..|steps|] == steps;
  }

  /** Where a lost update is set up: worker `id` expects `version` although its copy descends
      from an earlier snapshot, and the durable row has that version. */
  ghost predicate Poised(w: World, id: nat) {
    && id in w.repos && w.repos[id].instance.Some? && w.row.Some?
    && w.repos[id].version == w.row.value.version && w.repos[id].builtOn < |w.history|
  }

  /** From there one change and one flush commit a snapshot over an update it never saw. */
  lemma PoisedLoses(w: World, steps: seq<Step>, id: nat) returns (more: seq<Step>)
    requires Discarding(steps) && Poised(Run(w, steps), id)
    ensures Discarding(more) && !Chained(Run(w, more).history)
  {
    var v := Run(w, steps);
    var other := if v.repos[id].baseline.Some? then v.repos[id].baseline.value + "x" else "x";
    more := Extend(w, steps, Mutate(id, other));
    var x := Run(w, more);
    more := Extend(w, more, Flush(id, true, false));
    assert Run(w, more).history == x.history + [Commit(FlushedRow(x.repos[id]), x.repos[id].builtOn)];
    assert Run(w, more).history[|x.history|].builtOn != |x.history|;
  }

  /** Another worker loads the row, changes it and commits. */
  lemma OthersCommit(w: World, steps: seq<Step>, j: nat) returns (more: seq<Step>)
    requires Discarding(steps) && j !in Run(w, steps).repos
    ensures Discarding(more)
    ensures var v, x := Run(w, steps), Run(w, more);
            && x.row.Some? && x.row.value.version == (if v.row.Some? then v.row.value.version else 0) + 1
            && |x.history| == |v.history| + 1
            && (forall id :: id in v.repos ==> id in x.repos && x.repos[id] == v.repos[id])
  {
    var v := Run(w, steps);
    var other := if v.row.Some? then v.row.value.payload + "x" else "x";
    more := Extend(w, steps, Join(j));
    more := Extend(w, more, Refresh(j));
    assert Run(w, more).repos[j] == RefreshSpec(UNLOADED, v.row);
    more := Extend(w, more, Mutate(j, other));
    assert Run(w, more).repos[j] == MutateSpec(RefreshSpec(UNLOADED, v.row), other);
    more := Extend(w, more, Flush(j, true, false));
  }

  /** After a refresh and a clean drain, the kept repository expects the version that its
      aborted flush never wrote. */
  lemma KeptExpectsNext(w: World, id: nat) returns (steps: seq<Step>)
    requires Inv(w) && KeepsAborted(w, Flush(id, false, true))
    ensures Discarding(steps)
    ensures var x := Run(Next(w, Flush(id, false, true)), steps);
            && x.row == w.row && x.history == w.history && x.repos.Keys == w.repos.Keys
            && x.repos[id].instance.Some? && x.repos[id].builtOn <= |w.history|
            && x.repos[id].version == (if w.row.Some? then w.row.value.version else 0) + 1
  {
    var kept := Next(w, Flush(id, false, true));
    assert RepoOk(w, w.repos[id]);
    steps := [];
    if w.row.Some? {
      steps := Extend(kept, steps, Refresh(id));
    }
    steps := Extend(kept, steps, Complete(id));
    assert Run(kept, steps).repos.Keys == w.repos.Keys;
  }

  /** A repository kept across an abort still remembers the version it never wrote.  From every
      reachable state in which that happens, a continuation in which everybody else behaves
      loses an update. */
  lemma KeptRepositoryLosesUpdate(w: World, id: nat) returns (steps: seq<Step>)
    requires Inv(w) && KeepsAborted(w, Flush(id, false, true))
    ensures Discarding(steps) && !Chained(Run(Next(w, Flush(id, false, true)), steps).history)
  {
    var kept := Next(w, Flush(id, false, true));
    steps := KeptExpectsNext(w, id);
    var j := UnusedNumber(Run(kept, steps).repos.Keys);
    steps := OthersCommit(kept, steps, j);
    steps := PoisedLoses(kept, steps, id);
  }

  /** No continuation in which aborted flushes discard the repository loses an update. */
  ghost predicate Safe(w: World) {
    forall steps :: Discarding(steps) ==> Chained(Run(w, steps).history)
  }

  /** The discard is exact: from any state of a discarding run, a step leaves the workflow safe
      if and only if it does not keep a repository across an abort. */
  lemma SafeIffDiscarded(w: World, step: Step)
    requires Inv(w)
    ensures Safe(Next(w, step)) <==> !KeepsAborted(w, step)
  {
    if KeepsAborted(w, step) {
      var steps := KeptRepositoryLosesUpdate(w, step.id);
      assert step == Flush(step.id, false, true);
    } else {
      NextKeepsInv(w, step);
      forall steps | Discarding(steps)
        ensures Chained(Run(Next(w, step), steps).history)
      {
        RunKeepsInv(Next(w, step), steps);
      }
    }
  }

  // ----- what a commit carries -----

  /** Steps that leave worker `id` with the copy it has. */
  predicate LeavesAlone(step: Step, id: nat) {
    step.id != id || step.Join? || step.Complete?
  }

  lemma {:induction false} CopyKept(w: World, steps: seq<Step>, id: nat)
    requires id in w.repos && forall k :: 0 <= k < |steps| ==> LeavesAlone(steps[k], id)
    ensures id in Run(w, steps).repos && Run(w, steps).repos[id].instance == w.repos[id].instance
    decreases |steps|
  {
    if steps != [] {
      CopyKept(w, steps[..|steps| - 1], id);
    }
  }

  /** The last commit is the durable row, and any worker that refreshes next has exactly it. */
  ghost predicate Durable(w: World, payload: Payload) {
    && w.row.Some? && w.row.value.payload == payload
    && w.history != [] && w.history[|w.history| - 1].row == w.row.value
    && forall j :: j in w.repos ==>
         var seen := Next(w, Refresh(j)).repos[j];
         seen.instance == Some(payload) && seen.version == w.row.value.version && !Dirty(seen)
  }

  /** A worker's flush either leaves everything durable as it was or commits the payload that the
      worker last set, which every later refresh then sees. */
  lemma CommitCarriesChange(w: World, id: nat, payload: Payload, others: seq<Step>, keep: bool)
    requires id in w.repos && forall k :: 0 <= k < |others| ==> LeavesAlone(others[k], id)
    ensures var v := Run(Next(w, Mutate(id, payload)), others);
            var x := Next(v, Flush(id, true, keep));
            (x.row == v.row && x.history == v.history) || (|x.history| == |v.history| + 1 && Durable(x, payload))
  {
    CopyKept(Next(w, Mutate(id, payload)), others, id);
  }

  /** Steps of other workers that do not write. */
  predicate Harmless(step: Step, id: nat) {
    step.id != id && !(step.Flush? && step.commits)
  }

  lemma {:induction false} HarmlessRun(w: World, steps: seq<Step>, id: nat)
    requires id in w.repos && forall k :: 0 <= k < |steps| ==> Harmless(steps[k], id)
    ensures var v := Run(w, steps);
            v.row == w.row && v.history == w.history && id in v.repos && v.repos[id] == w.repos[id]
    decreases |steps|
  {
    if steps != [] {
      HarmlessRun(w, steps[..|steps| - 1], id);
    }
  }

  /** Nor is a change ever refused without cause: a worker that refreshed, set another payload and
      met no commit in between commits it, as the next version. */
  lemma FreshChangeCommits(w: World, id: nat, payload: Payload, others: seq<Step>, keep: bool)
    requires id in w.repos && w.row.Some? && w.row.value.payload != payload
    requires forall k :: 0 <= k < |others| ==> Harmless(others[k], id)
    ensures var v := Run(Next(Next(w, Refresh(id)), Mutate(id, payload)), others);
            var x := Next(v, Flush(id, true, keep));
            Durable(x, payload) && x.row.value.version == w.row.value.version + 1 && |x.history| == |w.history| + 1
  {
    HarmlessRun(Next(Next(w, Refresh(id)), Mutate(id, payload)), others, id);
  }

  /** A worker that committed and completed its checkpoint can go on without a refresh. */
  lemma NextChangeCommits(w: World, id: nat, first: Payload, second: Payload, keep: bool)
    requires id in w.repos && second != first
    requires var x := Next(Next(w, Mutate(id, first)), Flush(id, true, keep)); |x.history| > |w.history|
    ensures var x := Next(Next(w, Mutate(id, first)), Flush(id, true, keep));
            var y := Next(Next(Next(x, Complete(id)), Mutate(id, second)), Flush(id, true, keep));
            Durable(y, second) && y.row.value.version == x.row.value.version + 1
  {
  }

  /** A new worker's first instance becomes version 1. */
  lemma FirstInstanceCommits(w: World, id: nat, payload: Payload, keep: bool)
    requires w.row == None && id !in w.repos
    ensures var x := Next(Next(Next(w, Join(id)), Mutate(id, payload)), Flush(id, true, keep));
            Durable(x, payload) && x.row.value.version == 1
  {
  }

  /** A worker may vanish with its copy at any time, and a new one starts with none. */
  lemma WorkersComeAndGo(w: World, id: nat)
    ensures Next(w, Vanish(id)) == w.(repos := w.repos - {id})
    ensures id !in w.repos ==> Next(w, Join(id)) == w.(repos := w.repos[id := Repo(None, 0, None, None, 0)])
  {
    assert id !in w.repos ==> w.repos - {id} == w.repos;
  }

  /** And a worker whose copy is out of date by any commit is refused, and changes nothing: in any
      discarding run, if the durable version has moved past the one it refreshed from. */
  lemma StaleChangeRefused(w: World, id: nat, payload: Payload, others: seq<Step>, keep: bool)
    requires Inv(w) && id in w.repos && w.row.Some? && Discarding(others)
    requires forall k :: 0 <= k < |others| ==> others[k].id != id
    requires |Run(Next(Next(w, Refresh(id)), Mutate(id, payload)), others).history| > |w.history|
    ensures var v := Run(Next(Next(w, Refresh(id)), Mutate(id, payload)), others);
            Next(v, Flush(id, true, keep)) == v
  {
    var x := Next(Next(w, Refresh(id)), Mutate(id, payload));
    NextKeepsInv(w, Refresh(id));
    NextKeepsInv(Next(w, Refresh(id)), Mutate(id, payload));
    RunKeepsInv(x, others);
    OthersLeaveRepo(x, others, id);
  }

  lemma {:induction false} OthersLeaveRepo(w: World, steps: seq<Step>, id: nat)
    requires id in w.repos && forall k :: 0 <= k < |steps| ==> steps[k].id != id
    ensures id in Run(w, steps).repos && Run(w, steps).repos[id] == w.repos[id]
    decreases |steps|
  {
    if steps != [] {
      OthersLeaveRepo(w, steps[..|steps| - 1], id);
    }
  }
}

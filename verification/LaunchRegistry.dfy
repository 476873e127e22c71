/** Launch permits and publications
    (`src-tauri/src/services/workflow_service/launch_registry.rs`).

    An owner has one epoch at a time, named by an authority revision and a wrapping
    generation. A permit may begin only in the epoch it was issued for; a begun
    publication is counted until it ends, and a close barrier waits for the count to
    reach zero. */
module LaunchRegistry {
  import opened Common

  type Revision = nat

  /** The two launch registries of the application, told apart by constructor. */
  datatype Owner = Execution(key: string) | Workflow(key: string)

  /** `OwnerLaunchState`; no revision stands for the empty default string. */
  datatype OwnerState = OwnerState(revision: Option<Revision>, generation: nat, closed: bool, publishing: nat)

  type Launches = map<Owner, OwnerState>

  datatype Permit = Permit(owner: Owner, revision: Revision, generation: nat)

  const GENERATIONS: nat := 0x1_0000_0000_0000_0000

  /** `entry(owner).or_default()`. */
  function StateOf(launches: Launches, owner: Owner): OwnerState {
    if owner in launches then launches[owner] else OwnerState(None, 0, false, 0)
  }

  function NextGeneration(generation: nat): nat { (generation + 1) % GENERATIONS }

  /** Naming a new authority revision opens a new epoch. */
  function Rotate(s: OwnerState, revision: Revision): OwnerState {
    if s.revision != Some(revision)
    then s.(revision := Some(revision), generation := NextGeneration(s.generation), closed := false)
    else s
  }

  /** `issue`: the owners afterwards. */
  function Issue(launches: Launches, owner: Owner, revision: Revision): Launches {
    launches[owner := Rotate(StateOf(launches, owner), revision)]
  }

  /** `issue`: the permit, unless the owner is closed for this revision. */
  function IssuedPermit(launches: Launches, owner: Owner, revision: Revision): Option<Permit> {
    var s := Rotate(StateOf(launches, owner), revision);
    if s.closed then None else Some(Permit(owner, revision, s.generation))
  }

  /** `close_owner`. */
  function Close(launches: Launches, owner: Owner): Launches {
    var s := StateOf(launches, owner);
    launches[owner := s.(closed := true, generation := NextGeneration(s.generation))]
  }

  /** `begin` succeeds. */
  predicate CanBegin(launches: Launches, p: Permit) {
    && p.owner in launches
    && !launches[p.owner].closed
    && launches[p.owner].generation == p.generation
    && launches[p.owner].revision == Some(p.revision)
  }

  function Begin(launches: Launches, p: Permit): Launches {
    if CanBegin(launches, p)
    then launches[p.owner := launches[p.owner].(publishing := launches[p.owner].publishing + 1)]
    else launches
  }

  /** `finish` or a dropped publication; the subtraction saturates. */
  function Finish(launches: Launches, owner: Owner): Launches {
    if owner !in launches then launches
    else
      var n := launches[owner].publishing;
      launches[owner := launches[owner].(publishing := if n == 0 then 0 else n - 1)]
  }

  /** `wait` returns at once. */
  predicate Drained(launches: Launches, owner: Owner) {
    owner in launches ==> launches[owner].publishing == 0
  }

  /** A permit is refused if and only if its owner was closed for this very revision;
      another revision reopens the owner. Counts of publications, and other owners, are
      not touched. */
  lemma IssueMeans(launches: Launches, owner: Owner, revision: Revision, other: Owner)
    requires other != owner
    ensures var after, permit := Issue(launches, owner, revision), IssuedPermit(launches, owner, revision);
            && (permit.None? <==> owner in launches && launches[owner].closed && launches[owner].revision == Some(revision))
            && (permit.Some? ==> permit.value.owner == owner && permit.value.revision == revision && CanBegin(after, permit.value))
            && owner in after && after[owner].revision == Some(revision) && (after[owner].closed <==> permit.None?)
            && after[owner].publishing == (if owner in launches then launches[owner].publishing else 0)
            && (other in after <==> other in launches) && (other in launches ==> after[other] == launches[other])
  {
  }

  /** A closed owner begins nothing; what was begun still counts. */
  lemma CloseMeans(launches: Launches, owner: Owner, permit: Permit)
    ensures var after := Close(launches, owner);
            && owner in after && after[owner].closed && (permit.owner == owner ==> !CanBegin(after, permit))
            && after[owner].publishing == (if owner in launches then launches[owner].publishing else 0)
            && (permit.owner != owner ==> (CanBegin(after, permit) <==> CanBegin(launches, permit)))
  {
  }

  /** A permit that can begin counts one publication, which its end takes back; the owner
      is not drained in between. One that cannot begin changes nothing. */
  lemma BeginThenFinish(launches: Launches, permit: Permit)
    ensures var begun := Begin(launches, permit);
            if CanBegin(launches, permit)
            then && !Drained(begun, permit.owner) && Finish(begun, permit.owner) == launches
                 && begun[permit.owner].publishing == launches[permit.owner].publishing + 1
            else begun == launches
  {
    if CanBegin(launches, permit) {
      var s := launches[permit.owner];
      assert Finish(Begin(launches, permit), permit.owner)[permit.owner] == s;
      assert launches[permit.owner := s] == launches;
    }
  }

  // ---- epochs over runs --------------------------------------------------------------

  datatype Step =
    | IssueStep(owner: Owner, revision: Revision)
    | CloseStep(owner: Owner)
    | BeginStep(permit: Permit)
    | FinishStep(owner: Owner)

  function Next(launches: Launches, step: Step): Launches {
    match step
    case IssueStep(owner, revision) => Issue(launches, owner, revision)
    case CloseStep(owner) => Close(launches, owner)
    case BeginStep(permit) => Begin(launches, permit)
    case FinishStep(owner) => Finish(launches, owner)
  }

  function Run(launches: Launches, steps: seq<Step>): Launches {
    if steps == [] then launches else Next(Run(launches, steps[..|steps| - 1]), steps[|steps| - 1])
  }

  /** The step closes the owner, or names another authority for it. */
  predicate EndsEpoch(launches: Launches, owner: Owner, step: Step) {
    || (step.CloseStep? && step.owner == owner)
    || (step.IssueStep? && step.owner == owner && StateOf(launches, owner).revision != Some(step.revision))
  }

  /** How many epochs of the owner a run has ended. */
  function EpochsEnded(launches: Launches, owner: Owner, steps: seq<Step>): nat {
    if steps == [] then 0
    else
      var init := steps[..|steps| - 1];
      EpochsEnded(launches, owner, init) + (if EndsEpoch(Run(launches, init), owner, steps[|steps| - 1]) then 1 else 0)
  }

  lemma {:induction false} GenerationCountsEpochs(launches: Launches, owner: Owner, steps: seq<Step>)
    requires StateOf(launches, owner).generation < GENERATIONS
    ensures StateOf(Run(launches, steps), owner).generation
         == (StateOf(launches, owner).generation + EpochsEnded(launches, owner, steps)) % GENERATIONS
    ensures EpochsEnded(launches, owner, steps) == 0 ==>
            && StateOf(Run(launches, steps), owner).revision == StateOf(launches, owner).revision
            && StateOf(Run(launches, steps), owner).closed == StateOf(launches, owner).closed
    decreases |steps|
  {
    if steps != [] {
      var init := steps[..|steps| - 1];
      GenerationCountsEpochs(launches, owner, init);
      NextGenerationWraps(StateOf(launches, owner).generation + EpochsEnded(launches, owner, init));
    }
  }

  lemma NextGenerationWraps(n: nat)
    ensures NextGeneration(n % GENERATIONS) == (n + 1) % GENERATIONS
  {
  }

  lemma {:induction false} OwnersStay(launches: Launches, owner: Owner, steps: seq<Step>)
    requires owner in launches
    ensures owner in Run(launches, steps)
    decreases |steps|
  {
    if steps != [] { OwnersStay(launches, owner, steps[..|steps| - 1]); }
  }

  /** A permit can be begun exactly while the epoch it was issued for lasts: one
      close or one change of authority is enough to refuse it for good, unless the
      64-bit generation has come round. */
  lemma {:induction false} PermitLivesExactlyOneEpoch(launches: Launches, owner: Owner, revision: Revision, steps: seq<Step>)
    requires StateOf(launches, owner).generation < GENERATIONS
    requires IssuedPermit(launches, owner, revision).Some?
    requires EpochsEnded(Issue(launches, owner, revision), owner, steps) < GENERATIONS
    ensures CanBegin(Run(Issue(launches, owner, revision), steps), IssuedPermit(launches, owner, revision).value)
       <==> EpochsEnded(Issue(launches, owner, revision), owner, steps) == 0
  {
    var issued := Issue(launches, owner, revision);
    assert issued[owner].generation < GENERATIONS;
    PermitLastsItsEpoch(issued, IssuedPermit(launches, owner, revision).value, steps);
  }

  lemma {:induction false} PermitLastsItsEpoch(launches: Launches, p: Permit, steps: seq<Step>)
    requires CanBegin(launches, p) && p.generation < GENERATIONS
    requires EpochsEnded(launches, p.owner, steps) < GENERATIONS
    ensures CanBegin(Run(launches, steps), p) <==> EpochsEnded(launches, p.owner, steps) == 0
  {
    GenerationCountsEpochs(launches, p.owner, steps);
    OwnersStay(launches, p.owner, steps);
    SameGeneration(Run(launches, steps)[p.owner], p, EpochsEnded(launches, p.owner, steps));
  }

  // Fewer than 2^64 epochs later, the generation is the same only if none has ended.
  lemma SameGeneration(s: OwnerState, p: Permit, ended: nat)
    requires p.generation < GENERATIONS && ended < GENERATIONS
    requires s.generation == (p.generation + ended) % GENERATIONS
    requires ended == 0 ==> s.revision == Some(p.revision) && !s.closed
    ensures (!s.closed && s.generation == p.generation && s.revision == Some(p.revision)) <==> ended == 0
  {
    var n := p.generation + ended;
    if n >= GENERATIONS { assert n % GENERATIONS == n - GENERATIONS; }
  }

  /** After a close, nothing is issued or begun for the revision that was closed,
      whatever else happens, until another revision has been issued. */
  lemma {:induction false} ClosedRevisionStaysClosed(launches: Launches, owner: Owner, revision: Revision, steps: seq<Step>)
    requires StateOf(launches, owner).revision == Some(revision)
    requires forall s :: s in steps && s.IssueStep? && s.owner == owner ==> s.revision == revision
    ensures var after := Run(Close(launches, owner), steps);
            && owner in after && after[owner].closed && after[owner].revision == Some(revision)
            && IssuedPermit(after, owner, revision).None?
            && (forall p: Permit :: p.owner == owner ==> !CanBegin(after, p))
    decreases |steps|
  {
    if steps != [] {
      assert steps[|steps| - 1] in steps;
      ClosedRevisionStaysClosed(launches, owner, revision, steps[..|steps| - 1]);
    }
  }

  // ---- the shared table ------------------------------------------------------------------

  class WorkflowLaunchRegistry {
    var owners: Launches

    constructor ()
      ensures owners == map[]
    {
      owners := map[];
    }

    method IssuePermit(owner: Owner, revision: Revision) returns (permit: Option<Permit>)
      modifies this
      ensures owners == Issue(old(owners), owner, revision)
      ensures permit == IssuedPermit(old(owners), owner, revision)
    {
      var state := StateOf(owners, owner);
      if state.revision != Some(revision) {
        state := state.(revision := Some(revision), generation := NextGeneration(state.generation));
        state := state.(closed := false);
      }
      owners := owners[owner := state];
      if state.closed { return None; }
      return Some(Permit(owner, revision, state.generation));
    }

    method CloseOwner(owner: Owner)
      modifies this
      ensures owners == Close(old(owners), owner)
      ensures forall p: Permit :: p.owner == owner ==> !CanBegin(owners, p)
    {
      var state := StateOf(owners, owner);
      state := state.(closed := true);
      state := state.(generation := NextGeneration(state.generation));
      owners := owners[owner := state];
    }

    method BeginPublication(permit: Permit) returns (begun: bool)
      modifies this
      ensures begun == CanBegin(old(owners), permit)
      ensures owners == Begin(old(owners), permit)
    {
      if permit.owner !in owners { return false; }
      var state := owners[permit.owner];
      if state.closed || state.generation != permit.generation || state.revision != Some(permit.revision) {
        return false;
      }
      owners := owners[permit.owner := state.(publishing := state.publishing + 1)];
      return true;
    }

    method FinishPublication(owner: Owner)
      modifies this
      ensures owners == Finish(old(owners), owner)
    {
      if owner in owners {
        var state := owners[owner];
        owners := owners[owner := state.(publishing := if state.publishing > 0 then state.publishing - 1 else 0)];
      }
    }
  }
}

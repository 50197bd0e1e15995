/** The viewer's Orthanc session: the four state cells of the `useOrthanc`
    hook and its transitions. The awaited archive calls are the archive
    functions of `OrthancService` applied to an `Archive` parameter. */
module UseOrthanc {
  import opened Outcomes
  import opened OrthancService

  const LoadFailedMessage: string := "Failed to load studies from Orthanc"

  /** A snapshot of the four state cells. */
  datatype SessionState = SessionState(
    groupedStudies: seq<GroupedPatientStudy>,
    isLoading: bool,
    error: Option<string>,
    isOrthancAvailable: bool)

  const InitialState: SessionState := SessionState([], false, None, false)

  // ---------------------------------------------------------------------
  // Transitions on snapshots
  // ---------------------------------------------------------------------

  /** The state after the availability probe has answered. */
  function AfterProbe(s: SessionState, a: Archive): (t: SessionState)
    ensures t.isOrthancAvailable <==> a.system.Success?
    ensures t.groupedStudies == s.groupedStudies && t.isLoading == s.isLoading && t.error == s.error
  {
    s.(isOrthancAvailable := CheckOrthancAvailability(a))
  }

  /** The state while an aggregation is in flight: loading, with no error. */
  function InFlight(s: SessionState): (t: SessionState)
    ensures t.isLoading && t.error == None
    ensures t.groupedStudies == s.groupedStudies && t.isOrthancAvailable == s.isOrthancAvailable
  {
    s.(isLoading := true, error := None)
  }

  /** The state once the aggregation has answered: a result replaces the
      groups, a failure sets the fixed message and keeps them; loading ends
      either way. */
  function LoadFinished(s: SessionState, outcome: Result<seq<GroupedPatientStudy>>): (t: SessionState)
    ensures !t.isLoading && t.isOrthancAvailable == s.isOrthancAvailable
    ensures outcome.Success? ==> t.groupedStudies == outcome.value && t.error == s.error
    ensures outcome.Failure? ==> t.groupedStudies == s.groupedStudies && t.error == Some(LoadFailedMessage)
  {
    match outcome
    case Success(groups) => s.(groupedStudies := groups, isLoading := false)
    case Failure => s.(error := Some(LoadFailedMessage), isLoading := false)
  }

  /** A whole `loadStudies` call against archive `a`. */
  function AfterLoad(s: SessionState, a: Archive): (t: SessionState)
    ensures !s.isOrthancAvailable ==> t == s
    ensures s.isOrthancAvailable ==> !t.isLoading && t.isOrthancAvailable
    ensures s.isOrthancAvailable && GetGroupedStudies(a).Success? ==>
      t.groupedStudies == GetGroupedStudies(a).value && t.error == None
    ensures s.isOrthancAvailable && GetGroupedStudies(a).Failure? ==>
      t.groupedStudies == s.groupedStudies && t.error == Some(LoadFailedMessage)
  {
    if !s.isOrthancAvailable then s
    else LoadFinished(InFlight(s), GetGroupedStudies(a))
  }

  // ---------------------------------------------------------------------
  // Properties of the transitions
  // ---------------------------------------------------------------------

  /** Loading twice from an unchanged archive is loading once. */
  lemma LoadIdempotent(s: SessionState, a: Archive)
    ensures AfterLoad(AfterLoad(s, a), a) == AfterLoad(s, a)
  {
  }

  /** A failed load leaves the groups of the last successful load in place. */
  lemma FailedLoadKeepsLastSnapshot(s: SessionState, good: Archive, bad: Archive)
    requires s.isOrthancAvailable
    requires GetGroupedStudies(good).Success? && GetGroupedStudies(bad).Failure?
    ensures var t := AfterLoad(AfterLoad(s, good), bad);
      t.groupedStudies == GetGroupedStudies(good).value && t.error == Some(LoadFailedMessage) && !t.isLoading
  {
  }

  /** A completed operation of the session: a probe or a load, each against
      the archive's state at that time. */
  datatype Operation = CheckStatus(probed: Archive) | Load(loaded: Archive)

  function Run(s: SessionState, ops: seq<Operation>): SessionState
    decreases |ops|
  {
    if ops == [] then s
    else
      var next := match ops[0]
        case CheckStatus(a) => AfterProbe(s, a)
        case Load(a) => AfterLoad(s, a);
      Run(next, ops[1..])
  }

  /** The invariant of a session between operations: nothing loading, and
      no error but the fixed load message. */
  ghost predicate Settled(s: SessionState) {
    !s.isLoading && (s.error == None || s.error == Some(LoadFailedMessage))
  }

  /** Once every started load has completed, the session is settled again,
      whatever sequence of probes and loads led there. */
  lemma {:induction false} RunKeepsSettled(s: SessionState, ops: seq<Operation>)
    requires Settled(s)
    ensures Settled(Run(s, ops))
    decreases |ops|
  {
    if ops != [] {
      var next := match ops[0]
        case CheckStatus(a) => AfterProbe(s, a)
        case Load(a) => AfterLoad(s, a);
      RunKeepsSettled(next, ops[1..]);
    }
  }

  /** The groups shown are the ones held before, or the result of one of the
      successful loads of the run: nothing else is ever written there. */
  lemma {:induction false} GroupsComeFromLoads(s: SessionState, ops: seq<Operation>)
    ensures var groups := Run(s, ops).groupedStudies;
      groups == s.groupedStudies ||
      exists k :: 0 <= k < |ops| && ops[k].Load? && GetGroupedStudies(ops[k].loaded) == Success(groups)
    decreases |ops|
  {
    if ops != [] {
      var next := match ops[0]
        case CheckStatus(a) => AfterProbe(s, a)
        case Load(a) => AfterLoad(s, a);
      GroupsComeFromLoads(next, ops[1..]);
      var groups := Run(s, ops).groupedStudies;
      assert Run(s, ops) == Run(next, ops[1..]);
      if groups != next.groupedStudies {
        var k :| 0 <= k < |ops[1..]| && ops[1..][k].Load? && GetGroupedStudies(ops[1..][k].loaded) == Success(groups);
        assert ops[k + 1] == ops[1..][k];
      } else if groups != s.groupedStudies {
        assert ops[0].Load? && GetGroupedStudies(ops[0].loaded) == Success(groups);
      }
    }
  }

  /** Every session that starts from the hook's initial state and completes
      its operations is settled, and shows either no groups or the result of
      one of its successful loads. */
  lemma RunFromInitial(ops: seq<Operation>)
    ensures var t := Run(InitialState, ops);
      Settled(t) &&
      (t.groupedStudies == [] ||
       exists k :: 0 <= k < |ops| && ops[k].Load? && GetGroupedStudies(ops[k].loaded) == Success(t.groupedStudies))
  {
    RunKeepsSettled(InitialState, ops);
    GroupsComeFromLoads(InitialState, ops);
  }

  // ---------------------------------------------------------------------
  // The hook's state cells
  // ---------------------------------------------------------------------

  class OrthancSession {
    var groupedStudies: seq<GroupedPatientStudy>
    var isLoading: bool
    var error: Option<string>
    var isOrthancAvailable: bool
    /** Number of aggregation passes requested from the archive so far. */
    ghost var aggregationPasses: nat

    function State(): SessionState
      reads this
    {
      SessionState(groupedStudies, isLoading, error, isOrthancAvailable)
    }

    /** No groups, not loading, no error, archive not yet known to be available. */
    constructor ()
      ensures State() == InitialState && aggregationPasses == 0
    {
      groupedStudies := [];
      isLoading := false;
      error := None;
      isOrthancAvailable := false;
      aggregationPasses := 0;
    }

    method CheckOrthancStatus(a: Archive)
      modifies this`isOrthancAvailable
      ensures State() == AfterProbe(old(State()), a)
    {
      var available := CheckOrthancAvailability(a);
      isOrthancAvailable := available;
    }

    /** The guard and the first two writes of `loadStudies`; when it starts,
        the caller issues one aggregation pass. */
    method BeginLoad() returns (started: bool)
      modifies this`isLoading, this`error, this`aggregationPasses
      ensures started == old(isOrthancAvailable)
      ensures State() == if started then InFlight(old(State())) else old(State())
      ensures aggregationPasses == old(aggregationPasses) + if started then 1 else 0
    {
      if !isOrthancAvailable {
        return false;
      }
      isLoading := true;
      error := None;
      aggregationPasses := aggregationPasses + 1;
      started := true;
    }

    /** The try/catch/finally of `loadStudies`, given the awaited outcome. */
    method FinishLoad(outcome: Result<seq<GroupedPatientStudy>>)
      modifies this`groupedStudies, this`error, this`isLoading
      ensures State() == LoadFinished(old(State()), outcome)
    {
      match outcome {
        case Success(studies) =>
          groupedStudies := studies;
        case Failure =>
          error := Some(LoadFailedMessage);
      }
      isLoading := false;
    }

    method LoadStudies(a: Archive)
      modifies this
      ensures State() == AfterLoad(old(State()), a)
      ensures aggregationPasses == old(aggregationPasses) + if old(isOrthancAvailable) then 1 else 0
    {
      var started := BeginLoad();
      if started {
        var outcome := GetGroupedStudies(a);
        FinishLoad(outcome);
      }
    }

    /** Exactly a `loadStudies` call: no coalescing of repeated refreshes. */
    method RefreshStudies(a: Archive)
      modifies this
      ensures State() == AfterLoad(old(State()), a)
      ensures aggregationPasses == old(aggregationPasses) + if old(isOrthancAvailable) then 1 else 0
    {
      LoadStudies(a);
    }
  }
}

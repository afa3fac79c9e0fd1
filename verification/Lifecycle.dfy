/** The agent lifecycle table and its runs (pkg/document/lifecycle.go). */
module Lifecycle {
  datatype State =
    | Proposed | ApprovedForSandbox | Sandbox | Candidate | Active | Inactive
    | Retired | Rejected | FailedSandbox | RolledBack | Quarantined
    | Undefined(name: string)

  /** The state a status string of a document names. */
  function StateOf(name: string): State {
    if name == "proposed" then Proposed
    else if name == "approved_for_sandbox" then ApprovedForSandbox
    else if name == "sandbox" then Sandbox
    else if name == "candidate" then Candidate
    else if name == "active" then Active
    else if name == "inactive" then Inactive
    else if name == "retired" then Retired
    else if name == "rejected" then Rejected
    else if name == "failed_sandbox" then FailedSandbox
    else if name == "rolled_back" then RolledBack
    else if name == "quarantined" then Quarantined
    else Undefined(name)
  }

  function AllowedTransitions(from: State): seq<State> {
    match from
    case Proposed => [ApprovedForSandbox, Rejected]
    case ApprovedForSandbox => [Sandbox]
    case Sandbox => [Candidate, FailedSandbox]
    case Candidate => [Active, RolledBack]
    case Active => [Inactive, Quarantined, Retired]
    case Inactive => [Active, Retired]
    case Quarantined => [Retired]
    case _ => []
  }

  predicate ValidTransition(from: State, to: State) {
    to in AllowedTransitions(from)
  }

  /** Every consecutive pair is a transition of the table. */
  ghost predicate Legal(run: seq<State>) {
    forall i :: 0 <= i < |run| - 1 ==> ValidTransition(run[i], run[i + 1])
  }

  ghost predicate LegalFromProposed(run: seq<State>) {
    run != [] && run[0] == Proposed && Legal(run)
  }

  predicate InService(s: State) {
    s == Active || s == Inactive
  }

  predicate BeforeService(s: State) {
    s == Proposed || s == ApprovedForSandbox || s == Sandbox || s == Candidate
  }

  /** How far along its life a state lies; only a flip between active and inactive keeps it. */
  function Rank(s: State): nat {
    match s
    case Proposed => 0
    case ApprovedForSandbox => 1
    case Sandbox => 2
    case Candidate => 3
    case Active => 4
    case Inactive => 4
    case Quarantined => 5
    case _ => 6
  }

  predicate IsFlip(from: State, to: State) {
    InService(from) && InService(to)
  }

  /** The number of steps that are not a flip between active and inactive. */
  function NonFlips(run: seq<State>): nat {
    if |run| < 2 then 0
    else NonFlips(run[..|run| - 1]) + (if IsFlip(run[|run| - 2], run[|run| - 1]) then 0 else 1)
  }

  lemma StepRaisesRank(from: State, to: State)
    requires ValidTransition(from, to)
    ensures if IsFlip(from, to) then Rank(to) == Rank(from) else Rank(to) > Rank(from)
  {
  }

  lemma {:induction false} RankGrows(run: seq<State>, i: nat, j: nat)
    requires Legal(run) && i <= j < |run|
    ensures Rank(run[i]) <= Rank(run[j])
  {
    if i < j {
      RankGrows(run, i, j - 1);
      assert ValidTransition(run[j - 1], run[j - 1 + 1]);
      StepRaisesRank(run[j - 1], run[j]);
    }
  }

  /** A state before service stands at the position of its rank. */
  lemma {:induction false} EarlyPositions(run: seq<State>, i: nat)
    requires LegalFromProposed(run) && i < |run| && BeforeService(run[i])
    ensures i == Rank(run[i])
  {
    if i > 0 {
      assert ValidTransition(run[i - 1], run[i - 1 + 1]);
      EarlyPositions(run, i - 1);
    }
  }

  lemma {:induction false} ServiceFollowsTheLadder(run: seq<State>, i: nat)
    requires LegalFromProposed(run) && i < |run| && InService(run[i])
    ensures i >= 4 && run[..5] == [Proposed, ApprovedForSandbox, Sandbox, Candidate, Active]
  {
    assert ValidTransition(run[i - 1], run[i - 1 + 1]);
    if run[i - 1] == Candidate {
      EarlyPositions(run, i - 1);
      assert ValidTransition(run[2], run[2 + 1]);
      assert ValidTransition(run[1], run[1 + 1]);
      assert ValidTransition(run[0], run[0 + 1]);
    } else {
      ServiceFollowsTheLadder(run, i - 1);
    }
  }

  lemma {:induction false} NonFlipsBound(run: seq<State>)
    requires LegalFromProposed(run)
    ensures NonFlips(run) <= Rank(run[|run| - 1])
  {
    if |run| >= 2 {
      var shorter := run[..|run| - 1];
      forall i | 0 <= i < |shorter| - 1 ensures ValidTransition(shorter[i], shorter[i + 1]) {
        assert ValidTransition(run[i], run[i + 1]);
      }
      NonFlipsBound(shorter);
      assert ValidTransition(run[|run| - 2], run[|run| - 2 + 1]);
      StepRaisesRank(run[|run| - 2], run[|run| - 1]);
    }
  }

  /** A run that enters service took the sandbox ladder first. */
  lemma ActiveRunsTookTheLadder(run: seq<State>, i: nat)
    requires LegalFromProposed(run) && i < |run| && InService(run[i])
    ensures |run| >= 5 && run[..5] == [Proposed, ApprovedForSandbox, Sandbox, Candidate, Active]
    ensures forall j :: 4 <= j < |run| ==> !BeforeService(run[j])
  {
    ServiceFollowsTheLadder(run, i);
    forall j | 4 <= j < |run| ensures !BeforeService(run[j]) {
      if BeforeService(run[j]) { EarlyPositions(run, j); }
    }
  }

  /** Once a run leaves active/inactive it never returns there. */
  lemma ServiceIsNotReentered(run: seq<State>, i: nat, j: nat, k: nat)
    requires Legal(run) && i < j < k < |run|
    requires InService(run[i]) && !InService(run[j])
    ensures !InService(run[k])
  {
    RankGrows(run, i, j);
    RankGrows(run, j, k);
  }

  /** At most six steps of a run are not flips between active and inactive. */
  lemma AtMostSixNonFlips(run: seq<State>)
    requires LegalFromProposed(run)
    ensures NonFlips(run) <= 6
  {
    NonFlipsBound(run);
  }

  /** Six non-flip steps do occur, so the bound is exact. */
  lemma SixStepsAreReached()
    ensures exists run :: LegalFromProposed(run) && NonFlips(run) == 6
  {
    var run := [Proposed, ApprovedForSandbox, Sandbox, Candidate, Active, Quarantined, Retired];
    assert run[..6] == [Proposed, ApprovedForSandbox, Sandbox, Candidate, Active, Quarantined];
    assert run[..6][..5] == [Proposed, ApprovedForSandbox, Sandbox, Candidate, Active];
    assert run[..6][..5][..4] == [Proposed, ApprovedForSandbox, Sandbox, Candidate];
    assert run[..6][..5][..4][..3] == [Proposed, ApprovedForSandbox, Sandbox];
    assert run[..6][..5][..4][..3][..2] == [Proposed, ApprovedForSandbox];
    assert NonFlips([Proposed, ApprovedForSandbox]) == 1;
    assert NonFlips([Proposed, ApprovedForSandbox, Sandbox]) == 2;
    assert NonFlips([Proposed, ApprovedForSandbox, Sandbox, Candidate]) == 3;
    assert NonFlips([Proposed, ApprovedForSandbox, Sandbox, Candidate, Active]) == 4;
    assert NonFlips([Proposed, ApprovedForSandbox, Sandbox, Candidate, Active, Quarantined]) == 5;
    assert NonFlips(run) == 6;
    assert LegalFromProposed(run);
  }

  // ---------------------------------------------------------------------
  // The table read backwards, and the names
  // ---------------------------------------------------------------------

  /** From where a state may be entered. */
  function EnteredFrom(to: State): set<State> {
    match to
    case ApprovedForSandbox => {Proposed}
    case Rejected => {Proposed}
    case Sandbox => {ApprovedForSandbox}
    case Candidate => {Sandbox}
    case FailedSandbox => {Sandbox}
    case Active => {Candidate, Inactive}
    case RolledBack => {Candidate}
    case Inactive => {Active}
    case Quarantined => {Active}
    case Retired => {Active, Inactive, Quarantined}
    case _ => {}
  }

  /** The table allows exactly these steps; in particular rollback, rejection and reactivation. */
  lemma AllowedExactlyWhenEnteredFrom(from: State, to: State)
    ensures ValidTransition(from, to) <==> from in EnteredFrom(to)
  {
  }

  function NameOf(s: State): string {
    match s
    case Proposed => "proposed"
    case ApprovedForSandbox => "approved_for_sandbox"
    case Sandbox => "sandbox"
    case Candidate => "candidate"
    case Active => "active"
    case Inactive => "inactive"
    case Retired => "retired"
    case Rejected => "rejected"
    case FailedSandbox => "failed_sandbox"
    case RolledBack => "rolled_back"
    case Quarantined => "quarantined"
    case Undefined(name) => name
  }

  /** Each status string names one state, and each state has one status string. */
  lemma NamesAreUnique(name: string, s: State)
    requires !s.Undefined?
    ensures StateOf(name) == s <==> name == NameOf(s)
  {
    NameIsItsOwn(s);
    StateKeepsItsName(name);
  }

  lemma StateKeepsItsName(name: string)
    ensures NameOf(StateOf(name)) == name
  {
  }

  lemma NameIsItsOwn(s: State)
    requires !s.Undefined?
    ensures StateOf(NameOf(s)) == s
  {
    var n := NameOf(s);
    assert n == "proposed" ==> |n| == 8 && n[0] == 'p';
    assert n == "inactive" ==> |n| == 8 && n[0] == 'i';
    assert n == "rejected" ==> |n| == 8 && n[0] == 'r';
    assert n == "sandbox" ==> |n| == 7 && n[0] == 's';
    assert n == "retired" ==> |n| == 7 && n[0] == 'r';
    assert n == "rolled_back" ==> |n| == 11 && n[0] == 'r';
    assert n == "quarantined" ==> |n| == 11 && n[0] == 'q';
    assert n == "approved_for_sandbox" ==> |n| == 20;
    assert n == "failed_sandbox" ==> |n| == 14;
    assert n == "candidate" ==> |n| == 9;
    assert n == "active" ==> |n| == 6;
  }
}

/** The labels that show an issue's state, and the two edits the pipeline makes to them. */
module IssueLabels {
  import opened Common

  datatype Label =
    | Ready | Triaging | NeedsClarification | Designing | AwaitingApproval
    | Building | Verifying | Reviewing | AwaitingMerge | Fixing | InProgress
    | Done | NeedsHumanLabel | CanceledLabel | FailedLabel
    | ApprovedMark | CancelMark | Other(name: string)

  /** Membership in `DF_STATE_LABELS`: the marks a human sets and foreign labels are not in it. */
  predicate IsState(l: Label) {
    !l.ApprovedMark? && !l.CancelMark? && !l.Other?
  }

  function StateLabels(labels: set<Label>): set<Label> {
    set l | l in labels && IsState(l)
  }

  /** `swap_state_label_activity`: only labels that are there are removed, only missing ones added. */
  method SwapLabels(existing: set<Label>, remove: set<Label>, add: Label) returns (labels: set<Label>)
    ensures labels == Swapped(existing, remove, add)
  {
    var removeLabels := remove * existing;
    var addLabels := if add in existing then {} else {add};
    labels := existing;
    if removeLabels != {} || addLabels != {} {
      labels := existing - removeLabels + addLabels;
    }
  }

  function Swapped(labels: set<Label>, remove: set<Label>, add: Label): set<Label> {
    labels - remove + if add in labels then {} else {add}
  }

  /** The edit amounts to removing and then adding iff the new label is not both there and to be
      removed; then it would be lost. */
  lemma SwapReplacesIff(labels: set<Label>, remove: set<Label>, add: Label)
    ensures Swapped(labels, remove, add) == labels - remove + {add} <==> !(add in labels && add in remove)
    ensures add in labels && add in remove ==> add !in Swapped(labels, remove, add)
  {
    assert add in labels - remove + {add};
  }

  /** A swap to another label leaves only the new one iff it takes off the one shown. */
  lemma SwapMoves(labels: set<Label>, remove: set<Label>, shown: Label, add: Label)
    requires StateLabels(labels) == {shown} && IsState(add) && add !in remove
    ensures StateLabels(Swapped(labels, remove, add)) == (if shown in remove then {add} else {shown, add})
    ensures StateLabels(Swapped(labels, remove, add)) == {add} <==> shown in remove || shown == add
  {
    var after := Swapped(labels, remove, add);
    SwapReplacesIff(labels, remove, add);
    forall l ensures l in StateLabels(after) <==> l == add || (l == shown && shown !in remove) {
      assert l in StateLabels(labels) <==> l == shown;
    }
    if StateLabels(after) == {add} && shown !in remove {
      assert shown in StateLabels(after);
    }
  }

  /** How a run closed, as far as the quarantine looks. */
  datatype Closure = CompletedRun | CanceledRun | OtherwiseClosed(status: string)

  /** `_quarantine_label_for`. */
  function QuarantineLabelFor(closure: Closure): Option<Label> {
    match closure
    case CompletedRun => None
    case CanceledRun => Some(CanceledLabel)
    case OtherwiseClosed(_) => Some(FailedLabel)
  }

  /** The labels after a quarantine's edit. */
  function Quarantined(labels: set<Label>, closure: Closure): set<Label> {
    match QuarantineLabelFor(closure)
    case Some(status) => (set l | l in labels && !IsState(l)) + {status}
    case None => set l | l in labels && (!IsState(l) || l == Done)
  }

  /** The label part of `quarantine_closed_issue_activity`. */
  method QuarantineLabels(existing: set<Label>, closure: Closure) returns (labels: set<Label>)
    ensures labels == Quarantined(existing, closure)
  {
    var status := QuarantineLabelFor(closure);
    var keep := if status.Some? then {status.value} else {Done};
    var remove := set l | l in existing && IsState(l) && l !in keep;
    var add := if status.Some? && status.value !in existing then {status.value} else {};
    labels := existing;
    if remove != {} || add != {} {
      labels := existing - remove + add;
    }
    assert labels == existing - remove + add;
    forall l ensures l in labels <==> l in Quarantined(existing, closure) {}
  }

  /** A quarantine leaves one state label that says how the run closed, or at most the done label;
      doing it again changes nothing. */
  lemma QuarantineTidies(labels: set<Label>, closure: Closure)
    ensures match QuarantineLabelFor(closure)
      case Some(status) => StateLabels(Quarantined(labels, closure)) == {status}
      case None => StateLabels(Quarantined(labels, closure)) == (if Done in labels then {Done} else {})
    ensures Quarantined(Quarantined(labels, closure), closure) == Quarantined(labels, closure)
    ensures forall l :: !IsState(l) ==> (l in Quarantined(labels, closure) <==> l in labels)
  {}
}

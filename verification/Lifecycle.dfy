/** The status graph every Task and registry entry moves on. */
module Lifecycle {
  datatype TaskStatus =
    | Sleeping
    | Waking
    | Pondering
    | OnIt
    | Waiting
    | Reviewing
    | Delivered
    | Stuck
    | Axed
    | Archived
  {
    /** The statuses in which a dispatched Task no longer holds its files. */
    predicate IsSettled() {
      Delivered? || Stuck? || Axed? || Archived?
    }
  }

  predicate IsValidTransition(from: TaskStatus, to: TaskStatus) {
    match to
    case Waking => from.Sleeping?
    case Pondering => from.Waking? || from.OnIt?
    case Axed => !from.Axed? && !from.Archived?
    case OnIt => from.Pondering? || from.Waiting? || from.Reviewing? || from.Stuck?
    case Waiting => from.OnIt?
    case Delivered => from.OnIt?
    case Stuck => from.OnIt?
    case Reviewing => from.Delivered?
    case Archived => from.Delivered? || from.Reviewing? || from.Axed?
    case Sleeping => false
  }

  /** Where each status leads: anything but an ended Task can be cancelled, and work goes on from where it waits. */
  lemma SuccessorsAre(from: TaskStatus)
    ensures (set to | IsValidTransition(from, to)) ==
            match from
            case Sleeping => {Waking, Axed}
            case Waking => {Pondering, Axed}
            case Pondering => {OnIt, Axed}
            case OnIt => {Pondering, Waiting, Delivered, Stuck, Axed}
            case Waiting => {OnIt, Axed}
            case Delivered => {Reviewing, Archived, Axed}
            case Reviewing => {OnIt, Archived, Axed}
            case Stuck => {OnIt, Axed}
            case Axed => {Archived}
            case Archived => {}
  {
  }

  /** A sequence of statuses that takes only valid steps. */
  predicate IsPath(path: seq<TaskStatus>) {
    forall i :: 0 < i < |path| ==> IsValidTransition(path[i - 1], path[i])
  }

  /** Archived is the one status with no way out. */
  lemma ArchivedIsTheOnlyDeadEnd(s: TaskStatus)
    ensures (forall t :: !IsValidTransition(s, t)) <==> s == Archived
  {
    assert s != Archived && s != Axed ==> IsValidTransition(s, Axed);
    assert IsValidTransition(Axed, Archived);
  }

  /** A Task that was cancelled is never worked on again, however long its history runs. */
  lemma {:induction false} AxedIsFinal(path: seq<TaskStatus>, i: nat)
    requires IsPath(path) && i < |path| && path[i] in {Axed, Archived}
    ensures forall j :: i <= j < |path| ==> path[j] in {Axed, Archived}
  {
    var j := i;
    while j + 1 < |path|
      invariant i <= j < |path|
      invariant forall k :: i <= k <= j ==> path[k] in {Axed, Archived}
    {
      assert IsValidTransition(path[j], path[j + 1]);
      j := j + 1;
    }
  }

  /** Records the current status and every heartbeat it sends. An invalid move is refused and changes nothing. */
  class LifecycleTracker {
    var current: TaskStatus
    var sent: seq<TaskStatus>

    constructor ()
      ensures current == Sleeping && sent == []
    {
      current := Sleeping;
      sent := [];
    }

    method Transition(to: TaskStatus) returns (ok: bool)
      modifies this
      ensures ok <==> IsValidTransition(old(current), to)
      ensures ok ==> current == to && sent == old(sent) + [to]
      ensures !ok ==> current == old(current) && sent == old(sent)
    {
      ok := IsValidTransition(current, to);
      if ok {
        current := to;
        sent := sent + [to];
      }
    }

    /** A progress heartbeat that repeats the current status. */
    method Beat()
      modifies this`sent
      ensures sent == old(sent) + [current]
    {
      sent := sent + [current];
    }
  }
}

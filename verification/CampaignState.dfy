/** Campaign and assignment statuses (internal/domain/campaign/model/state.go). */
module CampaignState {

  datatype CampaignStatus = Draft | Scheduled | Active | Paused | Cancelled | Completed

  datatype AssignmentStatus = Pending | Offered | Downloaded | Installed | Failed

  datatype RolloutKind = Immediate | TimeScheduled | Percentage | UnknownKind

  predicate TerminalAssignment(status: AssignmentStatus) {
    status.Installed? || status.Failed?
  }

  /** The documented campaign state machine. No operation consults it: it is what they must refine. */
  predicate CanTransition(from: CampaignStatus, to: CampaignStatus) {
    from == to ||
    match from
    case Draft => to.Scheduled? || to.Active? || to.Cancelled?
    case Scheduled => to.Active? || to.Cancelled?
    case Active => to.Paused? || to.Cancelled? || to.Completed?
    case Paused => to.Active? || to.Cancelled?
    case Completed => false
    case Cancelled => false
  }

  predicate IsBlockingProjectDelete(status: CampaignStatus) {
    !status.Completed? && !status.Cancelled?
  }

  /** Height of a status in pending < offered < downloaded < failed < installed. */
  function Rank(status: AssignmentStatus): (r: nat)
    ensures r <= 4
    ensures TerminalAssignment(status) <==> r >= 3
  {
    match status
    case Pending => 0
    case Offered => 1
    case Downloaded => 2
    case Failed => 3
    case Installed => 4
  }

  lemma RankIsInjective(a: AssignmentStatus, b: AssignmentStatus)
    requires Rank(a) == Rank(b)
    ensures a == b
  {
  }

  /** A sequence of statuses each of which may follow the one before it. */
  ghost predicate LifecyclePath(path: seq<CampaignStatus>) {
    path != [] && forall i :: 0 < i < |path| ==> CanTransition(path[i - 1], path[i])
  }

  /** The closure of CanTransition, in closed form. */
  predicate LeadsTo(from: CampaignStatus, to: CampaignStatus) {
    match from
    case Draft => true
    case Scheduled => !to.Draft?
    case Active => !to.Draft? && !to.Scheduled?
    case Paused => !to.Draft? && !to.Scheduled?
    case Completed => to.Completed?
    case Cancelled => to.Cancelled?
  }

  lemma LeadsToIsReflexiveTransitive(a: CampaignStatus, b: CampaignStatus, c: CampaignStatus)
    ensures LeadsTo(a, a)
    ensures LeadsTo(a, b) && LeadsTo(b, c) ==> LeadsTo(a, c)
    ensures CanTransition(a, b) ==> LeadsTo(a, b)
  {
  }

  /** LeadsTo holds exactly when some lifecycle path connects the two statuses. */
  lemma LeadsToIsPathExistence(from: CampaignStatus, to: CampaignStatus)
    ensures LeadsTo(from, to) <==>
            exists path: seq<CampaignStatus> :: LifecyclePath(path) && path[0] == from && path[|path| - 1] == to
  {
    if LeadsTo(from, to) {
      var path := if CanTransition(from, to) then [from, to]
                  else [from, Active, to];
      assert LifecyclePath(path) && path[0] == from && path[|path| - 1] == to;
    }
    forall path: seq<CampaignStatus> | LifecyclePath(path) && path[0] == from && path[|path| - 1] == to
      ensures LeadsTo(from, to)
    {
      PathLeads(path);
    }
  }

  lemma {:induction false} PathLeads(path: seq<CampaignStatus>)
    requires LifecyclePath(path)
    ensures LeadsTo(path[0], path[|path| - 1])
  {
    if |path| > 1 {
      var init := path[..|path| - 1];
      PathLeads(init);
    }
  }
}

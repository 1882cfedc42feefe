/** Candidate selection (internal/orchestrator/reconcile.go): the rules of isEligible, which leave
    out the running, claimed and slot checks. */
module Eligibility {
  import opened Domain
  import opened State

  predicate ContainsNormalized(list: seq<string>, state: string) {
    exists s | s in list :: NormalizeState(s) == NormalizeState(state)
  }

  predicate IsActiveState(cfg: Config, state: string) { ContainsNormalized(cfg.activeStates, state) }

  predicate IsTerminalState(cfg: Config, state: string) { ContainsNormalized(cfg.terminalStates, state) }

  predicate MatchesAssignee(cfg: Config, issue: Issue) {
    var want := TrimSpace(cfg.assignee);
    want == "" || (issue.assignee.Some? && EqualFold(TrimSpace(issue.assignee.value), want))
  }

  /** Every required label is on the issue; a blank required label is on none. */
  predicate HasRequiredLabels(cfg: Config, issue: Issue) {
    forall req | req in cfg.requiredLabels ::
      NormalizeState(req) != "" && exists l | l in issue.labels :: NormalizeState(l) == NormalizeState(req)
  }

  /** A blocker of unknown state blocks. */
  predicate IsTerminalBlocker(cfg: Config, b: Blocker) {
    b.state.Some? && IsTerminalState(cfg, b.state.value)
  }

  predicate IsEligible(cfg: Config, issue: Issue) {
    && issue.id != "" && issue.identifier != "" && issue.title != "" && issue.state != ""
    && IsActiveState(cfg, issue.state) && !IsTerminalState(cfg, issue.state)
    && MatchesAssignee(cfg, issue)
    && HasRequiredLabels(cfg, issue)
    && (NormalizeState(issue.state) == "todo" ==> forall b | b in issue.blockedBy :: IsTerminalBlocker(cfg, b))
  }

  /** Eligibility and the per-state limit see a state name only up to case and outer blanks. */
  lemma EligibilityUpToNormalization(cfg: Config, issue: Issue, state: string)
    requires NormalizeState(state) == NormalizeState(issue.state) && (state == "" <==> issue.state == "")
    ensures IsEligible(cfg, issue.(state := state)) == IsEligible(cfg, issue)
    ensures cfg.PerStateLimit(state) == cfg.PerStateLimit(issue.state)
  {
    assert ContainsNormalized(cfg.activeStates, state) == ContainsNormalized(cfg.activeStates, issue.state);
    assert ContainsNormalized(cfg.terminalStates, state) == ContainsNormalized(cfg.terminalStates, issue.state);
  }
}

/** From the bootstrap's numbers to a belief state, and from a belief state to the end of an experiment. */
module Evaluation {
  import opened Ledger

  /** What the posterior sampling reports to the classifier. */
  datatype Posterior = Posterior(positive: real, meaningful: real, interval90Low: real)

  datatype TerminalReason =
    | TARGET_REACHED | MAXIMUM_WINDOW_EXPIRED | HUMAN_RETIRED | DATA_QUALITY_TERMINATION | NOT_TERMINAL

  datatype Decision = Decision(state: BeliefState, terminal: bool, reason: TerminalReason)

  const EXPLORATORY_GROUP := 5
  const EXPLORATORY_TOTAL := 14
  const PROSPECTIVE_GROUP := 7

  predicate IsTerminalState(s: BeliefState) {
    s.PROSPECTIVE_SUPPORTED? || s.PROSPECTIVE_WEAKENED? || s.PROSPECTIVE_INCONCLUSIVE? || s.EXPIRED_INCONCLUSIVE?
  }

  predicate TargetMet(sufficient: nat, below: nat, target: int) { sufficient + below >= target }

  predicate GroupsMet(sufficient: nat, below: nat) { sufficient >= PROSPECTIVE_GROUP && below >= PROSPECTIVE_GROUP }

  function Classify(phase: EvidencePhase, sufficient: nat, below: nat, p: Posterior, expired: bool,
                    target: int, critical: bool): BeliefState
  {
    match phase
    case BASELINE_EXPLORATORY =>
      if sufficient + below < EXPLORATORY_TOTAL || sufficient < EXPLORATORY_GROUP || below < EXPLORATORY_GROUP
      then INSUFFICIENT_EVIDENCE
      else if p.positive >= 0.80 then EXPLORATORY_POSITIVE
      else if 1.0 - p.positive >= 0.80 then EXPLORATORY_NEGATIVE
      else EXPLORATORY_INCONCLUSIVE
    case PROSPECTIVE_VALIDATION =>
      var met := TargetMet(sufficient, below, target) && GroupsMet(sufficient, below);
      if critical then (if expired then EXPIRED_INCONCLUSIVE else PROSPECTIVE_COLLECTING)
      else if expired && !met then EXPIRED_INCONCLUSIVE
      else if !met then PROSPECTIVE_COLLECTING
      else if p.meaningful >= 0.95 && p.interval90Low > 0.0 then PROSPECTIVE_SUPPORTED
      else if 1.0 - p.positive >= 0.95 then PROSPECTIVE_WEAKENED
      else PROSPECTIVE_INCONCLUSIVE
  }

  /** The state stored and whether it ends the experiment, whatever the classifier returned. */
  function Decide(phase: EvidencePhase, classified: BeliefState, critical: bool, expired: bool): Decision {
    if phase.BASELINE_EXPLORATORY? then
      Decision(if classified.PROSPECTIVE_SUPPORTED? then EXPLORATORY_POSITIVE else classified, false, NOT_TERMINAL)
    else if critical && expired then Decision(EXPIRED_INCONCLUSIVE, true, DATA_QUALITY_TERMINATION)
    else if classified.EXPIRED_INCONCLUSIVE? then Decision(classified, true, MAXIMUM_WINDOW_EXPIRED)
    else if IsTerminalState(classified) then Decision(classified, true, TARGET_REACHED)
    else Decision(PROSPECTIVE_COLLECTING, false, NOT_TERMINAL)
  }

  /** The decision as the use case takes it, reassigning state and reason as it goes. */
  method DecideTerminal(phase: EvidencePhase, classified: BeliefState, critical: bool, expired: bool)
    returns (state: BeliefState, terminal: bool, reason: TerminalReason)
    ensures Decision(state, terminal, reason) == Decide(phase, classified, critical, expired)
    ensures terminal <==> phase.PROSPECTIVE_VALIDATION? && IsTerminalState(state)
    ensures terminal <==> reason != NOT_TERMINAL
  {
    state := classified;
    if phase == BASELINE_EXPLORATORY && state == PROSPECTIVE_SUPPORTED { state := EXPLORATORY_POSITIVE; }
    terminal, reason := false, NOT_TERMINAL;
    if phase == PROSPECTIVE_VALIDATION {
      if critical && expired {
        terminal, reason, state := true, DATA_QUALITY_TERMINATION, EXPIRED_INCONCLUSIVE;
      } else if state == EXPIRED_INCONCLUSIVE {
        terminal, reason := true, MAXIMUM_WINDOW_EXPIRED;
      } else if IsTerminalState(state) {
        terminal, reason := true, TARGET_REACHED;
      } else {
        state := PROSPECTIVE_COLLECTING;
      }
    }
  }

  /**
   * Whatever the classifier returns, support is never stored for the baseline, and for the prospective phase
   * no state but the four terminal ones and PROSPECTIVE_COLLECTING is; contradictory data past the window
   * override the classifier.
   */
  lemma DecisionsExactly(phase: EvidencePhase, classified: BeliefState, critical: bool, expired: bool)
    ensures var d := Decide(phase, classified, critical, expired);
            && (phase == BASELINE_EXPLORATORY ==>
                  && !d.terminal && d.reason == NOT_TERMINAL && d.state != PROSPECTIVE_SUPPORTED
                  && (classified == PROSPECTIVE_SUPPORTED ==> d.state == EXPLORATORY_POSITIVE)
                  && (classified != PROSPECTIVE_SUPPORTED ==> d.state == classified))
            && (phase == PROSPECTIVE_VALIDATION ==>
                  && (d.terminal <==> d.state != PROSPECTIVE_COLLECTING)
                  && d.state in {PROSPECTIVE_COLLECTING, PROSPECTIVE_SUPPORTED, PROSPECTIVE_WEAKENED,
                                 PROSPECTIVE_INCONCLUSIVE, EXPIRED_INCONCLUSIVE}
                  && (critical && expired ==> d.state == EXPIRED_INCONCLUSIVE)
                  && (!(critical && expired) && d.terminal ==> d.state == classified)
                  && (!(critical && expired) && !d.terminal ==>
                        classified !in {PROSPECTIVE_SUPPORTED, PROSPECTIVE_WEAKENED, PROSPECTIVE_INCONCLUSIVE,
                                        EXPIRED_INCONCLUSIVE}))
  {}

  /**
   * With the real classifier a prospective evaluation is terminal exactly when the window is over, or
   * the data are sound and both the target and the group minima are met; the reason says which.
   */
  lemma EvaluationEndsExactly(sufficient: nat, below: nat, p: Posterior, expired: bool, target: int, critical: bool)
    ensures var met := TargetMet(sufficient, below, target) && GroupsMet(sufficient, below);
            var d := Decide(PROSPECTIVE_VALIDATION,
                            Classify(PROSPECTIVE_VALIDATION, sufficient, below, p, expired, target,
                                     critical), critical, expired);
            && (d.terminal <==> expired || (!critical && met))
            && (d.reason == DATA_QUALITY_TERMINATION <==> critical && expired)
            && (d.reason == MAXIMUM_WINDOW_EXPIRED <==> !critical && expired && !met)
            && (d.reason == TARGET_REACHED <==> !critical && met)
  {}

  /** No effect, however strong, is stored as support before the target and the group minima are met. */
  lemma SupportExactly(phase: EvidencePhase, sufficient: nat, below: nat, p: Posterior, expired: bool, target: int,
                       critical: bool)
    ensures Decide(phase, Classify(phase, sufficient, below, p, expired, target, critical), critical,
                   expired).state.PROSPECTIVE_SUPPORTED?
            <==> && phase.PROSPECTIVE_VALIDATION? && !critical && sufficient + below >= target
                 && sufficient >= 7 && below >= 7 && p.meaningful >= 0.95 && p.interval90Low > 0.0
  {}
}

/**
 * The alert manager (internal/alerting/manager.go): a PASS/FAIL state machine
 * per source that notifies only when a source goes from passing to failing or
 * back. The state collaborator is the manager's `states` map, the notifier its
 * `sent` log; whether the collaborator answers an unknown source with an error
 * (as the Postgres repository does) or with "" (as the in-memory store does) is
 * fixed at construction, and whether a lookup, a send or an update fails is
 * given to each call.
 */
module Alerting {
  import opened Wrappers
  import opened Domain

  type State = string

  const StateOK: State := "PASS"
  const StateFail: State := "FAIL"

  /** Which alert went out; the message texts and colours are not modelled. */
  datatype AlertKind = Failed | Recovered

  datatype Notification = Notification(kind: AlertKind, sourceID: string, rulesFailed: int, timestamp: int)

  /** The errors `ProcessResult` can return or see. */
  datatype AlertError = LookupFailed | NoStateRow | SendFailed | UpdateFailed

  /** The last state as the manager uses it: a failed lookup counts as a first run, that is PASS. */
  function EffectiveLastState(lookup: Result<State, AlertError>): (r: State)
    ensures lookup.Failure? ==> r == StateOK
    ensures lookup.Success? ==> r == lookup.value
  {
    match lookup
    case Failure(_) => StateOK
    case Success(s) => s
  }

  /**
   * The state machine: the alert to send and the state to store, or nothing.
   * Only PASS to FAIL and FAIL to PASS fire.
   */
  function Transition(last: State, current: State): Option<(AlertKind, State)> {
    if last == StateOK && current == StateFail then Some((Failed, StateFail))
    else if last == StateFail && current == StateOK then Some((Recovered, StateOK))
    else None
  }

  /**
   * A transition fires exactly when the state changes between the two
   * recognised states, and the state it stores is the current one.
   */
  lemma TransitionFiresIffStateChanges(last: State, current: State)
    ensures Transition(last, current).Some? <==>
              last != current && last in {StateOK, StateFail} && current in {StateOK, StateFail}
    ensures Transition(last, current).Some? ==> Transition(last, current).value.1 == current
    ensures Transition(last, current).Some? ==>
              (Transition(last, current).value.0 == Failed <==> current == StateFail)
  {
  }

  /** An unrecognised last state, the empty one included, never fires. */
  lemma UnrecognisedLastStateIsSilent(last: State, current: State)
    requires last != StateOK && last != StateFail
    ensures Transition(last, current).None?
  {
  }

  /** Firing is idempotent: once the stored state is the current one, the same result fires nothing. */
  lemma RepeatedResultIsSuppressed(last: State, current: State)
    requires Transition(last, current).Some?
    ensures Transition(Transition(last, current).value.1, current).None?
  {
  }

  class Manager {
    /** The state collaborator's table: source to last alert state. */
    var states: map<string, State>
    /** The notifications delivered, oldest first. */
    var sent: seq<Notification>
    /** Whether a source without a stored state is reported as an error rather than as "". */
    const unknownIsError: bool

    constructor (initial: map<string, State>, unknownIsError: bool)
      ensures states == initial && sent == [] && this.unknownIsError == unknownIsError
    {
      states := initial;
      sent := [];
      this.unknownIsError := unknownIsError;
    }

    /** What `GetLastState` answers for a source. */
    function LastState(sourceID: string, lookupFails: bool): (r: Result<State, AlertError>)
      reads this
      ensures lookupFails ==> r == Failure(LookupFailed)
      ensures !lookupFails && sourceID in states ==> r == Success(states[sourceID])
      ensures !lookupFails && sourceID !in states ==> r == (if unknownIsError then Failure(NoStateRow) else Success(""))
    {
      if lookupFails then Failure(LookupFailed)
      else if sourceID in states then Success(states[sourceID])
      else if unknownIsError then Failure(NoStateRow)
      else Success("")
    }

    /**
     * Reads the last state, and on a transition sends the alert and then stores
     * the new state. A failed send returns its error and stores nothing; a failed
     * update returns its error after the alert went out.
     */
    method ProcessResult(res: ValidationResult, lookupFails: bool, sendFails: bool, updateFails: bool)
      returns (err: Option<AlertError>)
      modifies this
      ensures var t := Transition(EffectiveLastState(old(LastState(res.sourceID, lookupFails))), res.status);
              && (t.None? ==> err.None? && sent == old(sent) && states == old(states))
              && (t.Some? && sendFails ==> err == Some(SendFailed) && sent == old(sent) && states == old(states))
              && (t.Some? && !sendFails ==>
                    sent == old(sent) + [Notification(t.value.0, res.sourceID, res.rulesFailed, res.timestamp)])
              && (t.Some? && !sendFails && updateFails ==> err == Some(UpdateFailed) && states == old(states))
              && (t.Some? && !sendFails && !updateFails ==>
                    err.None? && states == old(states)[res.sourceID := t.value.1])
    {
      var lastState := EffectiveLastState(LastState(res.sourceID, lookupFails));
      var currentState := res.status;
      if lastState == StateOK && currentState == StateFail {
        if sendFails {
          return Some(SendFailed);
        }
        sent := sent + [Notification(Failed, res.sourceID, res.rulesFailed, res.timestamp)];
        if updateFails {
          return Some(UpdateFailed);
        }
        states := states[res.sourceID := StateFail];
        return None;
      }
      if lastState == StateFail && currentState == StateOK {
        if sendFails {
          return Some(SendFailed);
        }
        sent := sent + [Notification(Recovered, res.sourceID, res.rulesFailed, res.timestamp)];
        if updateFails {
          return Some(UpdateFailed);
        }
        states := states[res.sourceID := StateOK];
        return None;
      }
      return None;
    }
  }

  /** Without a failing lookup, a source the collaborator does not know is first-run PASS only when it answers with an error. */
  lemma UnknownSourceOutcome(m: Manager, sourceID: string, current: State)
    requires sourceID !in m.states
    ensures m.unknownIsError ==> EffectiveLastState(m.LastState(sourceID, false)) == StateOK
    ensures !m.unknownIsError ==> Transition(EffectiveLastState(m.LastState(sourceID, false)), current).None?
  {
  }

  /**
   * The manager's test: from PASS, the results FAIL, FAIL, PASS give cumulative
   * alert counts 1, 1, 2 and leave the state PASS.
   */
  method ManagerScenario() returns (counts: seq<int>, finalState: State)
    ensures counts == [1, 1, 2]
    ensures finalState == StateOK
  {
    var m := new Manager(map["src" := StateOK], false);
    var failRes := ValidationResult("src", StatusFail, 0, 1, [], 0);
    var passRes := ValidationResult("src", StatusPass, 0, 0, [], 0);
    var _ := m.ProcessResult(failRes, false, false, false);
    var c1 := |m.sent|;
    var _ := m.ProcessResult(failRes, false, false, false);
    var c2 := |m.sent|;
    var _ := m.ProcessResult(passRes, false, false, false);
    counts := [c1, c2, |m.sent|];
    finalState := m.states["src"];
  }
}

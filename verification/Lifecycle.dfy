/** The order lifecycle of the sandbox path: a table of legal steps, and what every history
    that follows it must look like. */
module Lifecycle {

  datatype Stage =
    | CREATE_INTENT | RISK_CHECK | IDEMPOTENCY_CHECK | SUBMIT | ACK | OPEN_NEW | PARTIAL_FILL | FULL_FILL
    | POSITION_UPDATE | CANCEL | CLOSE | RECONCILIATION | FAILED | BLOCKED

  function Successors(s: Stage): set<Stage> {
    match s
    case CREATE_INTENT => {RISK_CHECK, BLOCKED, FAILED}
    case RISK_CHECK => {IDEMPOTENCY_CHECK, BLOCKED, FAILED}
    case IDEMPOTENCY_CHECK => {SUBMIT, BLOCKED, FAILED}
    case SUBMIT => {ACK, RECONCILIATION, FAILED}
    case ACK => {OPEN_NEW, PARTIAL_FILL, FULL_FILL, CANCEL, FAILED}
    case OPEN_NEW => {PARTIAL_FILL, FULL_FILL, CANCEL, FAILED}
    case PARTIAL_FILL => {FULL_FILL, CANCEL, POSITION_UPDATE, FAILED}
    case FULL_FILL => {POSITION_UPDATE, CLOSE, RECONCILIATION}
    case POSITION_UPDATE => {CLOSE, RECONCILIATION, CANCEL}
    case CANCEL => {CLOSE, RECONCILIATION}
    case CLOSE => {RECONCILIATION}
    case RECONCILIATION => {}
    case FAILED => {RECONCILIATION}
    case BLOCKED => {}
  }

  /** Starts at the creation of the intent and follows the table. */
  ghost predicate Legal(history: seq<Stage>) {
    history != [] && history[0] == CREATE_INTENT
    && forall i :: 0 < i < |history| ==> history[i] in Successors(history[i - 1])
  }

  /** A rank that every legal step raises. */
  function Rank(s: Stage): nat {
    match s
    case CREATE_INTENT => 0
    case RISK_CHECK => 1
    case IDEMPOTENCY_CHECK => 2
    case SUBMIT => 3
    case ACK => 4
    case OPEN_NEW => 5
    case PARTIAL_FILL => 6
    case FULL_FILL => 7
    case POSITION_UPDATE => 8
    case CANCEL => 9
    case CLOSE => 10
    case FAILED => 10
    case RECONCILIATION => 11
    case BLOCKED => 11
  }

  lemma {:induction false} RanksRise(history: seq<Stage>, i: nat, j: nat)
    requires Legal(history) && i < j < |history|
    ensures Rank(history[i]) + (j - i) <= Rank(history[j])
  {
    assert history[j] in Successors(history[j - 1]);
    if i < j - 1 {
      RanksRise(history, i, j - 1);
    }
  }

  /** The table is acyclic: no history visits a stage twice or runs for more than twelve stages. */
  lemma LegalHistoriesEnd(history: seq<Stage>)
    requires Legal(history)
    ensures |history| <= 12
    ensures forall i, j :: 0 <= i < j < |history| ==> history[i] != history[j]
  {
    forall i, j | 0 <= i < j < |history|
      ensures history[i] != history[j]
    {
      RanksRise(history, i, j);
    }
    if |history| > 1 {
      RanksRise(history, 0, |history| - 1);
    }
  }

  /** An acknowledgement comes after the risk check, the idempotency check and the submission,
      in that order and with nothing in between. */
  lemma AckComesLast(history: seq<Stage>, i: nat)
    requires Legal(history) && i < |history| && history[i] == ACK
    ensures history[..i + 1] == [CREATE_INTENT, RISK_CHECK, IDEMPOTENCY_CHECK, SUBMIT, ACK]
  {
    assert history[i - 1] == SUBMIT;
    assert history[i - 2] == IDEMPOTENCY_CHECK;
    assert history[i - 3] == RISK_CHECK;
    assert history[i - 4] == CREATE_INTENT;
    if i > 4 {
      RanksRise(history, i - 5, i - 4);
    }
  }

  class Machine {
    var state: Stage
    var history: seq<Stage>

    ghost predicate Valid()
      reads this
    {
      Legal(history) && history[|history| - 1] == state
    }

    constructor ()
      ensures Valid() && history == [CREATE_INTENT]
    {
      state, history := CREATE_INTENT, [CREATE_INTENT];
    }

    /** Takes the step exactly when the table has it; otherwise raises and stays. */
    method Transition(target: Stage) returns (raised: bool)
      requires Valid()
      modifies this
      ensures Valid()
      ensures raised <==> target !in Successors(old(state))
      ensures history == old(history) + if raised then [] else [target]
    {
      raised := target !in Successors(state);
      if !raised {
        state := target;
        history := history + [target];
      }
    }
  }
}

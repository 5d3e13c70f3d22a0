/** The trading stages: promotion one stage at a time with evidence, demotion at will, and what
    the history then proves about any stage reached. */
module Stages {
  import opened Prelude

  datatype Stage =
    | BACKTEST | LOCAL_PAPER | CLOUD_PAPER | PRODUCTION_READ_ONLY | LIVE_DRY_RUN | CONTROLLED_LIVE | AUTONOMOUS_LIVE

  function Index(s: Stage): nat {
    match s
    case BACKTEST => 0
    case LOCAL_PAPER => 1
    case CLOUD_PAPER => 2
    case PRODUCTION_READ_ONLY => 3
    case LIVE_DRY_RUN => 4
    case CONTROLLED_LIVE => 5
    case AUTONOMOUS_LIVE => 6
  }

  datatype Entry = Entry(from: Stage, to: Stage, operator: string, evidence: string, promotes: bool)

  /** One step up with an operator and evidence, or any number of steps down. */
  predicate Sanctioned(e: Entry) {
    if e.promotes then Index(e.to) == Index(e.from) + 1 && !Blank(e.operator) && !Blank(e.evidence)
    else Index(e.to) < Index(e.from)
  }

  /** The history leads from one stage to another, each entry starting where the one before it
      ended. */
  ghost predicate Leads(history: seq<Entry>, start: Stage, current: Stage) {
    if history == [] then start == current
    else
      var last := history[|history| - 1];
      last.to == current && Sanctioned(last) && Leads(history[..|history| - 1], start, last.from)
  }

  /** A recorded promotion into a stage from the stage before it. */
  ghost predicate PromotedInto(history: seq<Entry>, stage: int) {
    exists i :: 0 <= i < |history| && history[i].promotes
      && Index(history[i].to) == stage && Index(history[i].from) == stage - 1
                && !Blank(history[i].operator) && !Blank(history[i].evidence)
  }

  /** Every stage between the start and the current one was entered by a recorded promotion from
      the stage just below it, each with operator and evidence. */
  lemma {:induction false} NoStageSkipped(history: seq<Entry>, start: Stage, current: Stage, stage: int)
    requires Leads(history, start, current) && Index(start) < stage <= Index(current)
    ensures PromotedInto(history, stage)
  {
    assert history != [];
    var init, last := history[..|history| - 1], history[|history| - 1];
    if last.promotes && Index(last.to) == stage {
      assert history[|history| - 1] == last;
    } else {
      NoStageSkipped(init, start, last.from, stage);
      var i :| 0 <= i < |init| && init[i].promotes && Index(init[i].to) == stage && Index(init[i].from) == stage - 1
               && !Blank(init[i].operator) && !Blank(init[i].evidence);
      assert history[i] == init[i];
    }
  }

  lemma {:induction false} PrefixLeads(history: seq<Entry>, start: Stage, current: Stage, n: nat)
    requires Leads(history, start, current) && n <= |history|
    ensures Leads(history[..n], start, if n == |history| then current else history[n].from)
  {
    if n == |history| {
      assert history[..n] == history;
    } else {
      var init := history[..|history| - 1];
      PrefixLeads(init, start, history[|history| - 1].from, n);
      assert init[..n] == history[..n];
    }
  }

  /** The same for any stage the history ever reached, by the entries up to then. */
  lemma NoStageEverSkipped(history: seq<Entry>, start: Stage, current: Stage, n: nat, stage: int)
    requires Leads(history, start, current) && n < |history| && Index(start) < stage <= Index(history[n].to)
    ensures PromotedInto(history[..n + 1], stage)
  {
    PrefixLeads(history, start, current, n + 1);
    var upTo := history[..n + 1];
    assert upTo[|upTo| - 1] == history[n];
    NoStageSkipped(upTo, start, history[n].to, stage);
  }

  datatype Result = Promoted | Demoted | AlreadyThere | Refused

  class TradingStageManager {
    ghost const start: Stage
    var current: Stage
    var history: seq<Entry>

    ghost predicate Valid()
      reads this
    {
      Leads(history, start, current)
    }

    constructor (current: Stage)
      ensures Valid() && start == current && this.current == current && history == []
    {
      start, this.current, history := current, current, [];
    }

    method Record(e: Entry)
      requires Valid() && Sanctioned(e) && e.from == current
      modifies this
      ensures Valid() && current == e.to && history == old(history) + [e]
    {
      history := history + [e];
      current := e.to;
      assert history[..|history| - 1] == old(history);
    }

    /** Moves exactly when the target is below, or one above with operator and evidence, and
        leaves everything alone otherwise. */
    method Promote(target: Stage, operator: string, evidence: string, forceSkip: bool) returns (r: Result)
      requires Valid()
      modifies this
      ensures Valid()
      ensures r == Promoted <==>
        !forceSkip && Index(target) == Index(old(current)) + 1 && !Blank(operator) && !Blank(evidence)
      ensures r == Demoted <==> !forceSkip && Index(target) < Index(old(current))
      ensures r == AlreadyThere <==> !forceSkip && target == old(current)
      ensures if r == Promoted || r == Demoted
        then current == target
             && history == old(history) + [Entry(old(current), target, operator, evidence, r == Promoted)]
        else current == old(current) && history == old(history)
    {
      if forceSkip {
        return Refused;
      }
      var at, to := Index(current), Index(target);
      if to == at {
        return AlreadyThere;
      }
      if to < at {
        Record(Entry(current, target, operator, evidence, false));
        return Demoted;
      }
      if to > at + 1 || Blank(evidence) || Blank(operator) {
        return Refused;
      }
      Record(Entry(current, target, operator, evidence, true));
      r := Promoted;
    }

    function AllowsLiveOrders(): (allows: bool)
      reads this
      ensures allows <==> Index(current) >= 5
    {
      current == CONTROLLED_LIVE || current == AUTONOMOUS_LIVE
    }

    /** Live orders are allowed only after every promotion above the start up to controlled live
        has been recorded. */
    lemma LiveOrdersAreEarned(stage: int)
      requires Valid() && AllowsLiveOrders() && Index(start) < stage <= 5
      ensures PromotedInto(history, stage)
    {
      NoStageSkipped(history, start, current, stage);
    }
  }
}

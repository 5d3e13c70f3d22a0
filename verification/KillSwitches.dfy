/** The durable kill switch and the runtime it gates: what an activation holds back, across
    restarts, recoveries, failed writes and unauthorised deactivations. */
module KillSwitches {
  import opened Prelude
  import Sandbox
  import SandboxEngine

  /** The stored row. */
  datatype Row = Row(active: bool, reason: string)

  /** The switch as a running process holds it. */
  datatype Memory = Memory(active: bool, reason: string)

  /** `memory` is absent while no process runs. */
  datatype State = State(row: Option<Row>, memory: Option<Memory>, world: Sandbox.World)

  const IDLE := Memory(false, "")

  /** An active row is taken over; an inactive one changes nothing. */
  function Loaded(row: Option<Row>, m: Memory): Memory {
    if row.Some? && row.value.active then Memory(true, if row.value.reason != "" then row.value.reason else "restored")
    else m
  }

  /** The stored row decides, and without one the switch in memory. */
  predicate Active(row: Option<Row>, m: Memory) { if row.Some? then row.value.active else m.active }

  /** One run cycle with the kill switch's answer passed on to the execution gates. */
  function Cycled(s: State, m: Memory, healthy: bool, a: Sandbox.Attempt): Sandbox.World {
    if Active(s.row, m) || !healthy then s.world
    else Sandbox.After(s.world, a.(call := a.call.(gates := a.call.gates.(killed := Active(s.row, m)))))
  }

  /** `stored` says whether the write to the store succeeds; a process can die between any two. */
  datatype Command =
    | Start
    | Die
    | Activate(reason: string, stored: bool)
    | Deactivate(authorized: bool, stored: bool)
    | Recover
    | Cycle(healthy: bool, attempt: Sandbox.Attempt)

  function Step(s: State, c: Command): State {
    if c.Start? then s.(memory := Some(Loaded(s.row, IDLE)))
    else if s.memory.None? then s
    else
      match c
      case Die => s.(memory := None)
      case Activate(reason, stored) =>
        s.(memory := Some(Memory(true, reason)), row := if stored then Some(Row(true, reason)) else s.row)
      case Deactivate(authorized, stored) =>
        if !authorized then s
        else s.(memory := Some(IDLE), row := if stored then Some(Row(false, "")) else s.row)
      case Recover => s.(memory := Some(Loaded(s.row, s.memory.value)))
      case Cycle(healthy, a) => s.(world := Cycled(s, s.memory.value, healthy, a))
      case Start => s
  }

  function Run(s: State, commands: seq<Command>): State {
    if commands == [] then s else Step(Run(s, commands[..|commands| - 1]), commands[|commands| - 1])
  }

  predicate AllowsNewTrades(s: State) { s.memory.Some? && !Active(s.row, s.memory.value) }

  /** The only command that can lift the switch. */
  predicate Lifts(c: Command) { c.Deactivate? && c.authorized && c.stored }

  /** While the row is active nothing but an authorised deactivation changes it, new trades stay
      barred and nothing is submitted. */
  lemma {:induction false} ActiveRowHolds(s: State, commands: seq<Command>)
    requires s.row.Some? && s.row.value.active && forall c :: c in commands ==> !Lifts(c)
    ensures Run(s, commands).row.Some? && Run(s, commands).row.value.active
    ensures !AllowsNewTrades(Run(s, commands))
    ensures Run(s, commands).world == s.world
  {
    if commands != [] {
      assert !Lifts(commands[|commands| - 1]);
      ActiveRowHolds(s, commands[..|commands| - 1]);
    }
  }

  /** After an activation returns, however the process is restarted, recovered, cycled or asked to
      deactivate without authority, no new trade is allowed and no order is submitted until an
      operator's deactivation is stored. */
  lemma ActivationHolds(s: State, reason: string, commands: seq<Command>)
    requires s.memory.Some? && forall c :: c in commands ==> !Lifts(c)
    ensures var held := Run(Step(s, Activate(reason, true)), commands);
            !AllowsNewTrades(held) && held.world == s.world
  {
    ActiveRowHolds(Step(s, Activate(reason, true)), commands);
  }

  /** A cycle reaches the exchange only with the switch off. */
  lemma CycleSubmitsOnlyWhenAllowed(s: State, healthy: bool, a: Sandbox.Attempt)
    ensures Step(s, Cycle(healthy, a)).world != s.world ==> AllowsNewTrades(s) && healthy
  {
  }

  // ----- the protocol under the switch -----

  /** The attempt a cycle makes, if it gets as far as one. */
  function AttemptOf(s: State, c: Command): seq<Sandbox.Attempt> {
    if c.Cycle? && s.memory.Some? && !Active(s.row, s.memory.value) && c.healthy
    then [c.attempt.(call := c.attempt.call.(gates := c.attempt.call.gates.(killed := false)))]
    else []
  }

  /** The attempts of a run, across its restarts. */
  function AttemptsOf(s: State, commands: seq<Command>): seq<Sandbox.Attempt> {
    if commands == [] then []
    else
      var init := commands[..|commands| - 1];
      AttemptsOf(s, init) + AttemptOf(Run(s, init), commands[|commands| - 1])
  }

  /** No cycle reuses the intent id of an earlier one. */
  ghost predicate FreshIds(commands: seq<Command>) {
    forall i, j :: 0 <= i < j < |commands| && commands[i].Cycle? && commands[j].Cycle? ==>
      commands[i].attempt.call.id != commands[j].attempt.call.id
  }

  lemma StepIsAttempt(s: State, c: Command)
    ensures var made := AttemptOf(s, c);
            Step(s, c).world == if made == [] then s.world else Sandbox.After(s.world, made[0])
  {
  }

  lemma OneMoreAttempt(before: seq<Sandbox.Attempt>, a: Sandbox.Attempt)
    ensures Sandbox.Run(before + [a]) == Sandbox.After(Sandbox.Run(before), a)
  {
    assert (before + [a])[..|before|] == before;
  }

  /** Every run of the runtime is, to the tables and the exchange, a run of the protocol. */
  lemma {:induction false} RunsTheProtocol(s: State, commands: seq<Command>)
    requires s.world == Sandbox.NOTHING
    ensures Run(s, commands).world == Sandbox.Run(AttemptsOf(s, commands))
  {
    if commands != [] {
      var init, last := commands[..|commands| - 1], commands[|commands| - 1];
      var before, made := AttemptsOf(s, init), AttemptOf(Run(s, init), last);
      RunsTheProtocol(s, init);
      StepIsAttempt(Run(s, init), last);
      if made == [] {
        assert before + made == before;
      } else {
        assert made == [made[0]];
        OneMoreAttempt(before, made[0]);
      }
    }
  }

  /** Each attempt is that of a cycle, later attempts of later cycles. */
  lemma {:induction false} AttemptsAreCycles(s: State, commands: seq<Command>)
    requires FreshIds(commands)
    ensures Sandbox.FreshIds(AttemptsOf(s, commands))
    ensures forall a :: a in AttemptsOf(s, commands) ==>
      exists i :: 0 <= i < |commands| && commands[i].Cycle? && commands[i].attempt.call.id == a.call.id
  {
    if commands != [] {
      var n := |commands| - 1;
      var before, made := AttemptsOf(s, commands[..n]), AttemptOf(Run(s, commands[..n]), commands[n]);
      AttemptsAreCycles(s, commands[..n]);
      forall a: Sandbox.Attempt | a in before + made
        ensures exists i :: 0 <= i < |commands| && commands[i].Cycle? && commands[i].attempt.call.id == a.call.id
        ensures a in before ==> forall b :: b in made ==> a.call.id != b.call.id
      {
        if a in before {
          var i :| 0 <= i < n && commands[..n][i].Cycle? && commands[..n][i].attempt.call.id == a.call.id;
          assert commands[i].attempt.call.id == a.call.id;
        } else {
          assert commands[n].Cycle?;
        }
      }
      forall i, j | 0 <= i < j < |before + made|
        ensures (before + made)[i].call.id != (before + made)[j].call.id
      {
        assert before[i] in before;
      }
    }
  }

  /** Over every run of cycles, restarts, deaths, recoveries, activations and deactivations: each
      idempotency key reaches the exchange at most once, and nothing that is not on record first. */
  lemma SubmittedAtMostOnce(s: State, commands: seq<Command>)
    requires s.world == Sandbox.NOTHING && FreshIds(commands)
    ensures var w := Run(s, commands).world;
            && (forall i, j :: 0 <= i < j < |w.submissions| ==> w.submissions[i].key != w.submissions[j].key)
            && (forall x :: x in w.submissions ==>
                  x.key in w.keys && w.keys[x.key].id == x.id && x.id in w.intents && w.intents[x.id].key == x.key)
  {
    RunsTheProtocol(s, commands);
    AttemptsAreCycles(s, commands);
    Sandbox.SubmittedAtMostOnce(AttemptsOf(s, commands));
    Sandbox.SubmissionsAreOnRecord(AttemptsOf(s, commands));
  }

  // ----- stored and in-memory states -----

  predicate InStep(s: State) {
    s.memory.Some? ==> s.memory.value.active == (s.row.Some? && s.row.value.active)
  }

  predicate FailsToStore(c: Command) { (c.Activate? || (c.Deactivate? && c.authorized)) && !c.stored }

  /** Row and memory agree after every command of a run in which no write fails. */
  lemma {:induction false} StatesAgree(s: State, commands: seq<Command>)
    requires InStep(s) && forall c :: c in commands ==> !FailsToStore(c)
    ensures InStep(Run(s, commands))
  {
    if commands != [] {
      assert !FailsToStore(commands[|commands| - 1]);
      StatesAgree(s, commands[..|commands| - 1]);
    }
  }

  /** An activation whose write fails raises with the switch set in memory only. It then bars new
      trades except where the store still holds an inactive row. */
  lemma FailedActivationIff(s: State, reason: string)
    requires s.memory.Some?
    ensures var t := Step(s, Activate(reason, false));
            (AllowsNewTrades(t) <==> s.row.Some? && !s.row.value.active)
            && (InStep(t) <==> s.row.Some? && s.row.value.active)
  {
  }

  /** A restart takes over the state of the row, whatever the process before it held. */
  lemma RestartRestores(s: State)
    requires s.memory.Some?
    ensures var t := Run(s, [Die, Start]);
            InStep(t) && (AllowsNewTrades(t) <==> s.row.None? || !s.row.value.active)
  {
    assert [Die, Start][..1] == [Die] && [Die][..0] == [];
    assert Run(s, [Die]) == Step(s, Die);
  }

  /** A start and a recovery both take over an active row, with its reason; an inactive row, or none,
      starts with the switch off and changes nothing on a recovery. */
  lemma RowIsTakenOver(s: State)
    ensures var active := s.row.Some? && s.row.value.active;
            var named := s.row.Some? && s.row.value.reason != "";
            var taken := Memory(true, if named then s.row.value.reason else "restored");
            && Step(s, Start) == s.(memory := Some(if active then taken else Memory(false, "")))
            && (s.memory.Some? ==> Step(s, Recover) == s.(memory := Some(if active then taken else s.memory.value)))
            && (s.memory.None? ==> Step(s, Recover) == s)
  {
  }

  // ----- the program's objects -----

  /** The switch of one process. */
  class KillSwitch {
    var active: bool
    var reason: string

    constructor ()
      ensures Held() == IDLE
    {
      active, reason := false, "";
    }

    function Held(): Memory
      reads this
    {
      Memory(active, reason)
    }

    method Activate(reason: string)
      modifies this
      ensures Held() == Memory(true, reason)
    {
      active, this.reason := true, reason;
    }

    /** Raises without authority. */
    method Deactivate(authorized: bool) returns (raised: bool)
      modifies this
      ensures raised <==> !authorized
      ensures Held() == if raised then old(Held()) else IDLE
    {
      raised := !authorized;
      if !raised {
        active, reason := false, "";
      }
    }
  }

  /** The durable row. A write fails, changing nothing, while the store is down. */
  class StateStore {
    var row: Option<Row>
    var up: bool

    constructor (row: Option<Row>)
      ensures this.row == row && up
    {
      this.row, up := row, true;
    }

    method Put(r: Row) returns (stored: bool)
      modifies `row
      ensures stored == up && row == if stored then Some(r) else old(row)
    {
      stored := up;
      if stored {
        row := Some(r);
      }
    }
  }

  class DurableKillSwitch {
    const store: StateStore
    const base: KillSwitch

    /** A process starts: a fresh switch, then the stored row, which must be readable. */
    constructor (store: StateStore)
      requires store.up
      ensures this.store == store && fresh(base) && base.Held() == Loaded(store.row, IDLE)
    {
      this.store := store;
      base := new KillSwitch();
      new;
      Load();
    }

    method Load()
      modifies base
      ensures base.Held() == Loaded(store.row, old(base.Held()))
    {
      if store.row.Some? && store.row.value.active {
        base.Activate(if store.row.value.reason != "" then store.row.value.reason else "restored");
      }
    }

    method IsActive() returns (active: bool)
      ensures active == Active(store.row, base.Held())
    {
      active := if store.row.None? then base.active else store.row.value.active;
    }

    ghost function Seen(w: Sandbox.World): State
      reads store, base
    {
      State(store.row, Some(base.Held()), w)
    }

    /** Sets the switch in memory first, then the row. */
    method Activate(reason: string) returns (raised: bool)
      modifies base, store`row
      ensures raised <==> !store.up
      ensures forall w :: Seen(w) == Step(old(Seen(w)), Command.Activate(reason, store.up))
    {
      base.Activate(reason);
      var stored := store.Put(Row(true, reason));
      raised := !stored;
    }

    method Deactivate(authorized: bool) returns (raised: bool)
      modifies base, store`row
      ensures raised <==> !authorized || !store.up
      ensures forall w :: Seen(w) == Step(old(Seen(w)), Command.Deactivate(authorized, store.up))
    {
      raised := base.Deactivate(authorized);
      if !raised {
        var stored := store.Put(Row(false, ""));
        raised := !stored;
      }
    }

    /** Fails closed when the store cannot be read. */
    method AllowsNewTrades() returns (allows: bool)
      ensures allows <==> store.up && !Active(store.row, base.Held())
    {
      if !store.up {
        return false;
      }
      allows := if store.row.None? then !base.active else !store.row.value.active;
    }
  }

  class Runtime {
    const killSwitch: DurableKillSwitch
    const execution: SandboxEngine.Service

    constructor (killSwitch: DurableKillSwitch, execution: SandboxEngine.Service)
      ensures this.killSwitch == killSwitch && this.execution == execution
    {
      this.killSwitch, this.execution := killSwitch, execution;
    }

    /** One cycle. `marketOk` is the outcome of the market-data gates; without a healthy store the
        cycle ends first. */
    method RunCycle(marketOk: bool, call: Sandbox.Call) returns (attempted: bool)
      requires execution.ledger.store == execution.store && call.key != ""
      modifies execution.store
      ensures var s := old(killSwitch.Seen(execution.store.Lasting()));
              killSwitch.Seen(execution.store.Lasting())
              == Step(s, Cycle(killSwitch.store.up && marketOk, Sandbox.Attempt(call, old(execution.store.steps))))
      ensures attempted <==> killSwitch.store.up && marketOk && !Active(killSwitch.store.row, killSwitch.base.Held())
    {
      if !killSwitch.store.up {
        return false;
      }
      var allows := killSwitch.AllowsNewTrades();
      if !allows || !marketOk {
        return false;
      }
      var killed := killSwitch.IsActive();
      var result := execution.Execute(call.(gates := call.gates.(killed := killed)));
      attempted := true;
    }

    /** Raises when the row cannot be read. */
    method Recover(reconciled: bool) returns (allows: bool, raised: bool)
      modifies killSwitch.base
      ensures raised <==> !killSwitch.store.up
      ensures forall w ::
        killSwitch.Seen(w) == if raised then old(killSwitch.Seen(w)) else Step(old(killSwitch.Seen(w)), Command.Recover)
      ensures allows <==> reconciled && !raised && !Active(killSwitch.store.row, killSwitch.base.Held())
    {
      allows, raised := false, !killSwitch.store.up;
      if !raised {
        killSwitch.Load();
        allows := killSwitch.AllowsNewTrades();
        allows := allows && reconciled;
      }
    }
  }
}

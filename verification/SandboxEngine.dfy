/** The sandbox path as the program runs it: a ledger over a durable store, a lifecycle machine
    stepped along the way, and an exchange. Every call is proved to leave the prefix of its
    effects that `Sandbox` gives it. */
module SandboxEngine {
  import opened Prelude
  import opened Lifecycle
  import opened Sandbox

  /** The store and the exchange, with the number of steps left before the call is cut short. */
  class Outside {
    var intents: map<string, Row>
    var keys: map<string, Ref>
    var submissions: seq<Submission>
    var steps: nat

    constructor (steps: nat)
      ensures Lasting() == NOTHING && this.steps == steps
    {
      intents, keys, submissions, this.steps := map[], map[], [], steps;
    }

    ghost function Lasting(): World
      reads this
    {
      World(intents, keys, submissions)
    }

    method PutIntent(id: string, row: Row) returns (alive: bool)
      modifies this
      ensures Lasting() == Partial(old(Lasting()), [Effect.PutIntent(id, row)], old(steps))
      ensures alive <==> 0 < old(steps)
      ensures steps == if alive then old(steps) - 1 else 0
    {
      alive := 0 < steps;
      if alive {
        AppliedOne(Lasting(), Effect.PutIntent(id, row));
        intents, steps := intents[id := row], steps - 1;
      }
    }

    method PutKey(key: string, ref: Ref) returns (alive: bool)
      modifies this
      ensures Lasting() == Partial(old(Lasting()), [Effect.PutKey(key, ref)], old(steps))
      ensures alive <==> 0 < old(steps)
      ensures steps == if alive then old(steps) - 1 else 0
    {
      alive := 0 < steps;
      if alive {
        AppliedOne(Lasting(), Effect.PutKey(key, ref));
        keys, steps := keys[key := ref], steps - 1;
      }
    }

    method SubmitOrder(s: Submission) returns (alive: bool)
      modifies this
      ensures Lasting() == Partial(old(Lasting()), [Effect.Submit(s)], old(steps))
      ensures alive <==> 0 < old(steps)
      ensures steps == if alive then old(steps) - 1 else 0
    {
      alive := 0 < steps;
      if alive {
        AppliedOne(Lasting(), Effect.Submit(s));
        submissions, steps := submissions + [s], steps - 1;
      }
    }

    /** A status request or a reconciliation. */
    method Ask() returns (alive: bool)
      modifies this
      ensures Lasting() == Partial(old(Lasting()), [Effect.Consult], old(steps))
      ensures alive <==> 0 < old(steps)
      ensures steps == if alive then old(steps) - 1 else 0
    {
      alive := 0 < steps;
      if alive {
        AppliedOne(Lasting(), Effect.Consult);
        steps := steps - 1;
      }
    }
  }

  datatype Outcome = Done | Died | Refused

  class Ledger {
    const store: Outside

    constructor (store: Outside)
      ensures this.store == store
    {
      this.store := store;
    }

    method WriteBoth(id: string, row: Row) returns (alive: bool)
      modifies store
      ensures store.Lasting() == Partial(old(store.Lasting()), Writes(id, row), old(store.steps))
      ensures alive <==> 2 <= old(store.steps)
      ensures store.steps == if alive then old(store.steps) - 2 else 0
    {
      ghost var first, second := Effect.PutIntent(id, row), Effect.PutKey(row.key, Ref(id, row.status));
      assert Writes(id, row) == [first] + [second];
      PartialAppend(store.Lasting(), [first], [second], store.steps);
      alive := store.PutIntent(id, row);
      if alive {
        alive := store.PutKey(row.key, Ref(id, row.status));
      }
    }

    /** Refuses a key that another intent holds; otherwise records the intent under it. */
    method Persist(id: string, key: string) returns (r: Outcome)
      modifies store
      ensures r == Refused <==> key in old(store.keys) && old(store.keys)[key].id != id
      ensures r == Refused ==> store.Lasting() == old(store.Lasting()) && store.steps == old(store.steps)
      ensures r != Refused ==>
        store.Lasting() == Partial(old(store.Lasting()), Writes(id, Row(key, PERSISTED, None)), old(store.steps))
      ensures r == Done ==> 2 <= old(store.steps) && store.steps == old(store.steps) - 2
      ensures r == Died ==> old(store.steps) < 2
    {
      if key in store.keys && store.keys[key].id != id {
        return Refused;
      }
      var alive := WriteBoth(id, Row(key, PERSISTED, None));
      r := if alive then Done else Died;
    }

    /** An unknown intent raises. */
    method Mark(id: string, status: IntentStatus, order: Option<string>) returns (r: Outcome)
      modifies store
      ensures r == Refused <==> id !in old(store.intents)
      ensures r == Refused ==> store.Lasting() == old(store.Lasting()) && store.steps == old(store.steps)
      ensures r != Refused ==> var row := Marked(old(store.intents)[id], status, order);
        row.key != "" ==>
          store.Lasting() == Partial(old(store.Lasting()), Writes(id, row), old(store.steps))
          && (r == Done <==> 2 <= old(store.steps))
          && store.steps == if r == Done then old(store.steps) - 2 else 0
    {
      if id !in store.intents {
        return Refused;
      }
      var row := Marked(store.intents[id], status, order);
      var alive;
      if row.key != "" {
        alive := WriteBoth(id, row);
      } else {
        alive := store.PutIntent(id, row);
      }
      r := if alive then Done else Died;
    }

    function Marked(row: Row, status: IntentStatus, order: Option<string>): Row {
      Row(row.key, status, if order.Some? then order else row.order)
    }

    method FindByIdempotency(key: string) returns (id: Option<string>)
      ensures id == if key in store.keys && store.keys[key].id in store.intents then Some(store.keys[key].id) else None
    {
      id := if key in store.keys && store.keys[key].id in store.intents then Some(store.keys[key].id) else None;
    }
  }

  /** How a call of execute ends: the key is taken, it is cut short, or it returns a lifecycle. */
  datatype Result = Duplicate | CutShort | Returned(machine: Machine)

  class Service {
    const store: Outside
    const ledger: Ledger

    constructor (store: Outside)
      ensures this.store == store && ledger.store == store
    {
      this.store := store;
      ledger := new Ledger(store);
    }

    /** One call, with the answers of the exchange given. It leaves the world of one attempt of
        the protocol, ends as that attempt ends, and no lifecycle step of it is refused. */
    method Execute(c: Call) returns (r: Result)
      requires ledger.store == store && c.key != ""
      modifies store
      ensures r == Duplicate <==> c.key in old(store.keys) && old(store.keys)[c.key].id != c.id
      ensures store.Lasting() == After(old(store.Lasting()), Attempt(c, old(store.steps)))
      ensures r == Result.CutShort <==> Sandbox.CutShort(old(store.Lasting()), Attempt(c, old(store.steps)))
      ensures r.Returned? ==> fresh(r.machine) && r.machine.history == Path(c)
    {
      var machine := new Machine();
      var persisted := ledger.Persist(c.id, c.key);
      if persisted == Refused {
        return Duplicate;
      }
      ghost var first := Writes(c.id, Row(c.key, PERSISTED, None));
      PartialAppend(old(store.Lasting()), first, if Gated(c.gates) then [] else Sent(c), old(store.steps));
      if persisted == Died {
        return Result.CutShort;
      }
      AppliedWrites(old(store.Lasting()), c.id, Row(c.key, PERSISTED, None));
      var alive := Proceed(c, machine);
      r := if alive then Returned(machine) else Result.CutShort;
    }

    /** The gates, the second look at the key, and the submission. */
    method Proceed(c: Call, machine: Machine) returns (alive: bool)
      requires ledger.store == store && c.key != ""
      requires c.id in store.intents && store.intents[c.id] == Row(c.key, PERSISTED, None)
      requires c.key in store.keys && store.keys[c.key].id == c.id
      requires machine.Valid() && machine.history == [CREATE_INTENT]
      modifies store, machine
      ensures store.Lasting() == Partial(old(store.Lasting()), if Gated(c.gates) then [] else Sent(c), old(store.steps))
      ensures alive <==> Gated(c.gates) || |Sent(c)| <= old(store.steps)
      ensures alive ==> machine.history == Path(c)
    {
      var raised := machine.Transition(RISK_CHECK);
      if c.gates.killed || !c.gates.marketFresh || !c.gates.riskOk {
        raised := machine.Transition(BLOCKED);
        return true;
      }
      raised := machine.Transition(IDEMPOTENCY_CHECK);
      var blocked := Recheck(c, machine);
      if blocked {
        alive := true;
      } else {
        alive := Send(c, machine);
      }
    }

    /** Blocks when the key belongs to another intent. */
    method Recheck(c: Call, machine: Machine) returns (blocked: bool)
      requires ledger.store == store && machine.Valid() && machine.state == IDEMPOTENCY_CHECK
      modifies machine
      ensures machine.Valid()
      ensures blocked <==> c.key in store.keys && store.keys[c.key].id in store.intents && store.keys[c.key].id != c.id
      ensures machine.history == old(machine.history) + if blocked then [BLOCKED] else []
    {
      var existing := ledger.FindByIdempotency(c.key);
      blocked := existing.Some? && existing.value != c.id;
      if blocked {
        var raised := machine.Transition(BLOCKED);
      }
    }

    /** Announces the submission in both tables, then submits. */
    method Send(c: Call, machine: Machine) returns (alive: bool)
      requires ledger.store == store && c.key != "" && !Gated(c.gates)
      requires c.id in store.intents && store.intents[c.id] == Row(c.key, PERSISTED, None)
      requires machine.Valid() && machine.history == [CREATE_INTENT, RISK_CHECK, IDEMPOTENCY_CHECK]
      modifies store, machine
      ensures store.Lasting() == Partial(old(store.Lasting()), Sent(c), old(store.steps))
      ensures alive <==> |Sent(c)| <= old(store.steps)
      ensures alive ==> machine.history == Path(c)
    {
      ghost var submit, announce := [Effect.Submit(Submission(c.key, c.id))],
        Writes(c.id, Row(c.key, SUBMITTING, None));
      PartialAppend(store.Lasting(), announce, submit + Answered(c), store.steps);
      var raised := machine.Transition(SUBMIT);
      var marked := ledger.Mark(c.id, SUBMITTING, None);
      if marked != Done {
        return false;
      }
      AppliedWrites(old(store.Lasting()), c.id, Row(c.key, SUBMITTING, None));
      PartialAppend(store.Lasting(), submit, Answered(c), store.steps);
      AppliedOne(store.Lasting(), submit[0]);
      alive := store.SubmitOrder(Submission(c.key, c.id));
      if alive {
        alive := Answer(c, machine);
      }
    }

    /** What follows the exchange's answer. */
    method Answer(c: Call, machine: Machine) returns (alive: bool)
      requires ledger.store == store && c.key != "" && !Gated(c.gates)
      requires c.id in store.intents && store.intents[c.id] == Row(c.key, SUBMITTING, None)
      requires machine.Valid() && machine.history == [CREATE_INTENT, RISK_CHECK, IDEMPOTENCY_CHECK, SUBMIT]
      modifies store, machine
      ensures store.Lasting() == Partial(old(store.Lasting()), Answered(c), old(store.steps))
      ensures alive <==> |Answered(c)| <= old(store.steps)
      ensures alive ==> machine.history == Path(c)
    {
      var raised, marked;
      if c.reply.ambiguous && !c.reply.accepted {
        PartialAppend(store.Lasting(), [Consult], Writes(c.id, Row(c.key, IntentStatus.FAILED, None)), store.steps);
        AppliedOne(store.Lasting(), Consult);
        raised := machine.Transition(RECONCILIATION);
        alive := store.Ask();
        if alive {
          marked := ledger.Mark(c.id, IntentStatus.FAILED, None);
          alive := marked == Done;
        }
      } else if !c.reply.accepted {
        raised := machine.Transition(Stage.FAILED);
        marked := ledger.Mark(c.id, IntentStatus.FAILED, None);
        alive := marked == Done;
      } else {
        raised := machine.Transition(ACK);
        alive := Accept(c, machine);
      }
    }

    method Accept(c: Call, machine: Machine) returns (alive: bool)
      requires ledger.store == store && c.key != "" && !Gated(c.gates) && c.reply.accepted
      requires c.id in store.intents && store.intents[c.id] == Row(c.key, SUBMITTING, None)
      requires machine.Valid() && machine.history == [CREATE_INTENT, RISK_CHECK, IDEMPOTENCY_CHECK, SUBMIT, ACK]
      modifies store, machine
      ensures store.Lasting() == Partial(old(store.Lasting()), Answered(c), old(store.steps))
      ensures alive <==> |Answered(c)| <= old(store.steps)
      ensures alive ==> machine.history == Path(c)
    {
      ghost var row := Row(c.key, SUBMITTED, Some(c.reply.order));
      PartialAppend(store.Lasting(), Writes(c.id, row), [Consult] + Acknowledged(c), store.steps);
      var marked := ledger.Mark(c.id, SUBMITTED, Some(c.reply.order));
      if marked != Done {
        return false;
      }
      AppliedWrites(old(store.Lasting()), c.id, row);
      PartialAppend(store.Lasting(), [Consult], Acknowledged(c), store.steps);
      AppliedOne(store.Lasting(), Consult);
      var raised := machine.Transition(OPEN_NEW);
      alive := store.Ask();
      if alive {
        alive := Finish(c, machine);
      }
    }

    method Finish(c: Call, machine: Machine) returns (alive: bool)
      requires ledger.store == store && c.key != "" && !Gated(c.gates) && c.reply.accepted
      requires c.id in store.intents && store.intents[c.id] == Row(c.key, SUBMITTED, Some(c.reply.order))
      requires machine.Valid()
      requires machine.history == [CREATE_INTENT, RISK_CHECK, IDEMPOTENCY_CHECK, SUBMIT, ACK, OPEN_NEW]
      modifies store, machine
      ensures store.Lasting() == Partial(old(store.Lasting()), Acknowledged(c), old(store.steps))
      ensures alive <==> |Acknowledged(c)| <= old(store.steps)
      ensures alive ==> machine.history == Path(c)
    {
      ghost var row := Row(c.key, FILLED, Some(c.reply.order));
      PartialAppend(store.Lasting(), if c.reply.resting then [] else Writes(c.id, row), [Consult], store.steps);
      alive := Fill(c, machine);
      if alive {
        var raised := machine.Transition(CLOSE);
        raised := machine.Transition(RECONCILIATION);
        alive := store.Ask();
      }
    }

    method Fill(c: Call, machine: Machine) returns (alive: bool)
      requires ledger.store == store && c.key != ""
      requires c.id in store.intents && store.intents[c.id] == Row(c.key, SUBMITTED, Some(c.reply.order))
      requires machine.Valid()
      requires machine.history == [CREATE_INTENT, RISK_CHECK, IDEMPOTENCY_CHECK, SUBMIT, ACK, OPEN_NEW]
      modifies store, machine
      ensures machine.Valid() && CLOSE in Successors(machine.state)
      ensures var es := if c.reply.resting then [] else Writes(c.id, Row(c.key, FILLED, Some(c.reply.order)));
              store.Lasting() == Partial(old(store.Lasting()), es, old(store.steps))
              && (alive <==> |es| <= old(store.steps)) && store.steps == if alive then old(store.steps) - |es| else 0
      ensures machine.history == old(machine.history)
          + if c.reply.resting then [CANCEL] else [FULL_FILL, POSITION_UPDATE]
    {
      var raised;
      if c.reply.resting {
        raised := machine.Transition(CANCEL);
        return true;
      }
      raised := machine.Transition(FULL_FILL);
      raised := machine.Transition(POSITION_UPDATE);
      var marked := ledger.Mark(c.id, FILLED, Some(c.reply.order));
      alive := marked == Done;
    }
  }
}

/** The sandbox order protocol: an intent is recorded, gated, submitted and settled over two
    durable tables. A call that is cut short at any point leaves a prefix of its effects. */
module Sandbox {
  import opened Prelude
  import opened Lifecycle

  datatype IntentStatus = PERSISTED | SUBMITTING | SUBMITTED | FILLED | FAILED

  datatype Row = Row(key: string, status: IntentStatus, order: Option<string>)

  datatype Ref = Ref(id: string, status: IntentStatus)

  datatype Submission = Submission(key: string, id: string)

  /** What outlives the process: the two tables, and the submissions the exchange has been sent. */
  datatype World = World(intents: map<string, Row>, keys: map<string, Ref>, submissions: seq<Submission>)

  const NOTHING := World(map[], map[], [])

  /** One step that can be cut off from the next: a committed write or a request to the exchange. */
  datatype Effect =
    | PutIntent(id: string, row: Row)
    | PutKey(key: string, ref: Ref)
    | Submit(submission: Submission)
    | Consult

  function One(w: World, e: Effect): World {
    match e
    case PutIntent(id, row) => w.(intents := w.intents[id := row])
    case PutKey(key, ref) => w.(keys := w.keys[key := ref])
    case Submit(s) => w.(submissions := w.submissions + [s])
    case Consult => w
  }

  function Apply(w: World, es: seq<Effect>): World {
    if es == [] then w else One(Apply(w, es[..|es| - 1]), es[|es| - 1])
  }

  /** The first `n` effects, or all of them when there are fewer. */
  function Partial(w: World, es: seq<Effect>, n: nat): World {
    if n < |es| then Apply(w, es[..n]) else Apply(w, es)
  }

  lemma {:induction false} ApplyAppend(w: World, xs: seq<Effect>, ys: seq<Effect>)
    ensures Apply(w, xs + ys) == Apply(Apply(w, xs), ys)
  {
    if ys == [] {
      assert xs + ys == xs;
    } else {
      ApplyAppend(w, xs, ys[..|ys| - 1]);
      assert (xs + ys)[..|xs + ys| - 1] == xs + ys[..|ys| - 1];
    }
  }

  lemma PartialAppend(w: World, xs: seq<Effect>, ys: seq<Effect>, n: nat)
    ensures Partial(w, xs + ys, n) == if n < |xs| then Partial(w, xs, n) else Partial(Apply(w, xs), ys, n - |xs|)
  {
    if n < |xs| {
      assert (xs + ys)[..n] == xs[..n];
    } else if n < |xs + ys| {
      assert (xs + ys)[..n] == xs + ys[..n - |xs|];
      ApplyAppend(w, xs, ys[..n - |xs|]);
    } else {
      ApplyAppend(w, xs, ys);
    }
  }

  // ----- one call of execute -----

  datatype Gates = Gates(killed: bool, marketFresh: bool, riskOk: bool)

  /** What the exchange answers: to the submission, and to the status request that follows. */
  datatype Reply = Reply(accepted: bool, ambiguous: bool, order: string, resting: bool)

  datatype Call = Call(id: string, key: string, gates: Gates, reply: Reply)

  /** A status written to both tables, intent first. */
  function Writes(id: string, row: Row): seq<Effect> {
    [PutIntent(id, row), PutKey(row.key, Ref(id, row.status))]
  }

  predicate Gated(g: Gates) { g.killed || !g.marketFresh || !g.riskOk }

  function Effects(c: Call): seq<Effect> {
    Writes(c.id, Row(c.key, PERSISTED, None)) + if Gated(c.gates) then [] else Sent(c)
  }

  function Sent(c: Call): seq<Effect> {
    Writes(c.id, Row(c.key, SUBMITTING, None)) + ([Submit(Submission(c.key, c.id))] + Answered(c))
  }

  function Answered(c: Call): seq<Effect> {
    var failed := Writes(c.id, Row(c.key, IntentStatus.FAILED, None));
    if c.reply.accepted then Writes(c.id, Row(c.key, SUBMITTED, Some(c.reply.order))) + ([Consult] + Acknowledged(c))
    else if c.reply.ambiguous then [Consult] + failed
    else failed
  }

  /** After the status request: a resting order is let go, anything else counts as filled. */
  function Acknowledged(c: Call): seq<Effect> {
    (if c.reply.resting then [] else Writes(c.id, Row(c.key, FILLED, Some(c.reply.order)))) + [Consult]
  }

  /** A key in use by another intent ends the call before it has any effect. */
  function Execution(w: World, c: Call): seq<Effect> {
    if c.key in w.keys && w.keys[c.key].id != c.id then [] else Effects(c)
  }

  /** The lifecycle of a call that got its intent recorded. */
  function Path(c: Call): (path: seq<Stage>)
    ensures Legal(path)
  {
    if Gated(c.gates) then [CREATE_INTENT, RISK_CHECK, BLOCKED]
    else if !c.reply.accepted then
      [CREATE_INTENT, RISK_CHECK, IDEMPOTENCY_CHECK, SUBMIT, if c.reply.ambiguous then RECONCILIATION else Stage.FAILED]
    else if c.reply.resting then
      [CREATE_INTENT, RISK_CHECK, IDEMPOTENCY_CHECK, SUBMIT, ACK, OPEN_NEW, CANCEL, CLOSE, RECONCILIATION]
    else
      [CREATE_INTENT, RISK_CHECK, IDEMPOTENCY_CHECK, SUBMIT, ACK, OPEN_NEW, FULL_FILL,
       POSITION_UPDATE, CLOSE, RECONCILIATION]
  }

  // ----- how far a call has come -----

  datatype Phase = Fresh | Noted | Indexed | Announced | Submitted

  /** The order the effects of a call must keep to: the intent is noted before its key, the key
      before the announcement, and that before the only submission. */
  function Next(p: Phase, c: Call, e: Effect): Option<Phase> {
    match e
    case PutIntent(id, row) =>
      if id == c.id && row.key == c.key then Some(if p == Fresh then Noted else p) else None
    case PutKey(key, ref) =>
      if key != c.key || ref.id != c.id || p == Fresh then None
      else if p == Submitted then (if ref.status == PERSISTED then None else Some(Submitted))
      else Some(if ref.status == PERSISTED then Indexed else Announced)
    case Submit(s) => if p == Announced && s == Submission(c.key, c.id) then Some(Submitted) else None
    case Consult => Some(p)
  }

  function PhaseAfter(p: Phase, c: Call, es: seq<Effect>): Option<Phase> {
    if es == [] then Some(p)
    else
      var q := PhaseAfter(p, c, es[..|es| - 1]);
      if q.None? then None else Next(q.value, c, es[|es| - 1])
  }

  lemma {:induction false} PhaseAppend(p: Phase, c: Call, xs: seq<Effect>, ys: seq<Effect>)
    requires PhaseAfter(p, c, xs).Some?
    ensures PhaseAfter(p, c, xs + ys) == PhaseAfter(PhaseAfter(p, c, xs).value, c, ys)
  {
    if ys == [] {
      assert xs + ys == xs;
    } else {
      PhaseAppend(p, c, xs, ys[..|ys| - 1]);
      assert (xs + ys)[..|xs + ys| - 1] == xs + ys[..|ys| - 1];
    }
  }

  lemma OnePhase(p: Phase, c: Call, e: Effect)
    ensures PhaseAfter(p, c, [e]) == Next(p, c, e)
  {
    assert [e][..0] == [];
  }

  lemma WritesPhase(p: Phase, c: Call, row: Row)
    requires row.key == c.key && (p == Submitted ==> row.status != PERSISTED)
    ensures PhaseAfter(p, c, Writes(c.id, row))
         == Some(if p == Submitted then Submitted else if row.status == PERSISTED then Indexed else Announced)
  {
    var es := Writes(c.id, row);
    OnePhase(p, c, es[0]);
    assert es[..1] == [es[0]];
  }

  lemma AnsweredKeepsOrder(c: Call)
    ensures PhaseAfter(Submitted, c, Answered(c)) == Some(Submitted)
  {
    OnePhase(Submitted, c, Consult);
    WritesPhase(Submitted, c, Row(c.key, IntentStatus.FAILED, None));
    if c.reply.accepted {
      var row := Row(c.key, SUBMITTED, Some(c.reply.order));
      WritesPhase(Submitted, c, row);
      WritesPhase(Submitted, c, row.(status := FILLED));
      PhaseAppend(Submitted, c, if c.reply.resting then [] else Writes(c.id, row.(status := FILLED)), [Consult]);
      PhaseAppend(Submitted, c, [Consult], Acknowledged(c));
      PhaseAppend(Submitted, c, Writes(c.id, row), [Consult] + Acknowledged(c));
    } else if c.reply.ambiguous {
      PhaseAppend(Submitted, c, [Consult], Writes(c.id, Row(c.key, IntentStatus.FAILED, None)));
    }
  }

  lemma EffectsKeepOrder(c: Call)
    ensures PhaseAfter(Fresh, c, Effects(c)).Some?
  {
    WritesPhase(Fresh, c, Row(c.key, PERSISTED, None));
    if Gated(c.gates) {
      assert Effects(c) == Writes(c.id, Row(c.key, PERSISTED, None));
    } else {
      var submit, announce := Submit(Submission(c.key, c.id)), Writes(c.id, Row(c.key, SUBMITTING, None));
      PhaseAppend(Fresh, c, Writes(c.id, Row(c.key, PERSISTED, None)), Sent(c));
      WritesPhase(Indexed, c, Row(c.key, SUBMITTING, None));
      PhaseAppend(Indexed, c, announce, [submit] + Answered(c));
      OnePhase(Announced, c, submit);
      PhaseAppend(Announced, c, [submit], Answered(c));
      AnsweredKeepsOrder(c);
    }
  }

  /** What a call in a given phase has changed, and all it has changed. */
  ghost predicate At(start: World, w: World, c: Call, p: Phase) {
    && (if p == Fresh then w.intents == start.intents
        else c.id in w.intents && w.intents == start.intents[c.id := w.intents[c.id]] && w.intents[c.id].key == c.key)
    && (if p == Fresh || p == Noted then w.keys == start.keys
        else c.key in w.keys && w.keys == start.keys[c.key := w.keys[c.key]] && w.keys[c.key].id == c.id)
    && (p == Announced || p == Submitted ==> w.keys[c.key].status != PERSISTED)
    && w.submissions == start.submissions + if p == Submitted then [Submission(c.key, c.id)] else []
  }

  lemma {:induction false} PhaseHolds(start: World, c: Call, es: seq<Effect>)
    requires PhaseAfter(Fresh, c, es).Some?
    ensures At(start, Apply(start, es), c, PhaseAfter(Fresh, c, es).value)
  {
    if es != [] {
      PhaseHolds(start, c, es[..|es| - 1]);
    }
  }

  lemma {:induction false} PrefixPhase(c: Call, es: seq<Effect>, n: nat)
    requires n <= |es| && PhaseAfter(Fresh, c, es).Some?
    ensures PhaseAfter(Fresh, c, es[..n]).Some?
  {
    if n < |es| {
      assert es[..|es| - 1][..n] == es[..n];
      PrefixPhase(c, es[..|es| - 1], n);
    } else {
      assert es[..n] == es;
    }
  }

  lemma CutPhase(start: World, c: Call, n: nat) returns (p: Phase)
    ensures At(start, Partial(start, Effects(c), n), c, p)
  {
    EffectsKeepOrder(c);
    var es := Effects(c);
    if n < |es| {
      PrefixPhase(c, es, n);
      PhaseHolds(start, c, es[..n]);
      p := PhaseAfter(Fresh, c, es[..n]).value;
    } else {
      PhaseHolds(start, c, es);
      p := PhaseAfter(Fresh, c, es).value;
    }
  }

  // ----- the two tables agree -----

  ghost predicate AgreesOn(w: World, id: string) {
    id in w.intents && w.intents[id].key in w.keys && w.keys[w.intents[id].key] == Ref(id, w.intents[id].status)
  }

  lemma AppliedWrites(w: World, id: string, row: Row)
    ensures Apply(w, Writes(id, row))
         == World(w.intents[id := row], w.keys[row.key := Ref(id, row.status)], w.submissions)
  {
    var es := Writes(id, row);
    AppliedOne(w, es[0]);
    assert es[..1] == [es[0]];
    assert Apply(w, es) == One(One(w, es[0]), es[1]);
  }

  lemma AppliedOne(w: World, e: Effect)
    ensures Apply(w, [e]) == One(w, e)
  {
    assert [e][..0] == [];
  }

  lemma EndsInWrites(w: World, xs: seq<Effect>, id: string, row: Row)
    ensures AgreesOn(Apply(w, xs + Writes(id, row)), id)
    ensures AgreesOn(Apply(w, xs + Writes(id, row) + [Consult]), id)
  {
    ApplyAppend(w, xs, Writes(id, row));
    AppliedWrites(Apply(w, xs), id, row);
    ApplyAppend(w, xs + Writes(id, row), [Consult]);
    AppliedOne(Apply(w, xs + Writes(id, row)), Consult);
  }

  lemma AnsweredAgrees(w: World, xs: seq<Effect>, c: Call)
    ensures AgreesOn(Apply(w, xs + Answered(c)), c.id)
  {
    var row, none := Row(c.key, SUBMITTED, Some(c.reply.order)), Row(c.key, IntentStatus.FAILED, None);
    if !c.reply.accepted && c.reply.ambiguous {
      EndsInWrites(w, xs + [Consult], c.id, none);
      assert xs + Answered(c) == xs + [Consult] + Writes(c.id, none);
    } else if !c.reply.accepted {
      EndsInWrites(w, xs, c.id, none);
    } else if c.reply.resting {
      EndsInWrites(w, xs, c.id, row);
      var ys := xs + Writes(c.id, row) + [Consult];
      ApplyAppend(w, ys, [Consult]);
      AppliedOne(Apply(w, ys), Consult);
      assert xs + Answered(c) == ys + [Consult];
    } else {
      var ys := xs + Writes(c.id, row) + [Consult];
      EndsInWrites(w, ys, c.id, row.(status := FILLED));
      assert xs + Answered(c) == ys + Writes(c.id, row.(status := FILLED)) + [Consult];
    }
  }

  /** A call that completes leaves its row and its key agreeing. */
  lemma CompletedAgrees(w: World, c: Call)
    ensures AgreesOn(Apply(w, Effects(c)), c.id)
  {
    var first := Writes(c.id, Row(c.key, PERSISTED, None));
    if Gated(c.gates) {
      EndsInWrites(w, [], c.id, Row(c.key, PERSISTED, None));
      assert Effects(c) == [] + first;
    } else {
      var xs := first + Writes(c.id, Row(c.key, SUBMITTING, None)) + [Submit(Submission(c.key, c.id))];
      assert Effects(c) == xs + Answered(c);
      AnsweredAgrees(w, xs, c);
    }
  }

  // ----- runs -----

  /** `torn` are the intents of calls that were cut short. */
  ghost predicate Orderly(w: World, torn: set<string>) {
    && (forall id :: id in w.intents && id !in torn ==> AgreesOn(w, id))
    && (forall k :: k in w.keys ==> w.keys[k].id in w.intents && w.intents[w.keys[k].id].key == k)
    && (forall s :: s in w.submissions ==>
          s.key in w.keys && w.keys[s.key].id == s.id && w.keys[s.key].status != PERSISTED)
    && (forall i, j :: 0 <= i < j < |w.submissions| ==> w.submissions[i].key != w.submissions[j].key)
  }

  /** A call, and how many of its effects happen before the process dies or an adapter raises. */
  datatype Attempt = Attempt(call: Call, steps: nat)

  function After(w: World, a: Attempt): World { Partial(w, Execution(w, a.call), a.steps) }

  predicate CutShort(w: World, a: Attempt) { a.steps < |Execution(w, a.call)| }

  lemma StepKeepsOrder(w: World, torn: set<string>, a: Attempt)
    requires Orderly(w, torn) && a.call.id !in w.intents
    ensures Orderly(After(w, a), if CutShort(w, a) then torn + {a.call.id} else torn)
    ensures After(w, a).intents.Keys <= w.intents.Keys + {a.call.id}
  {
    var c := a.call;
    if c.key !in w.keys {
      var p := CutPhase(w, c, a.steps);
      if !CutShort(w, a) {
        CompletedAgrees(w, c);
      }
      PhaseOrderly(w, torn, After(w, a), c, p, CutShort(w, a));
    }
  }

  lemma PhaseOrderly(start: World, torn: set<string>, w: World, c: Call, p: Phase, cut: bool)
    requires Orderly(start, torn) && c.id !in start.intents && c.key !in start.keys
    requires At(start, w, c, p) && (cut || AgreesOn(w, c.id))
    ensures Orderly(w, if cut then torn + {c.id} else torn)
  {
    forall id | id in w.intents && id !in torn && id != c.id
      ensures AgreesOn(w, id)
    {
      assert AgreesOn(start, id);
    }
  }

  /** Intent ids are new: no call reuses the id of an earlier one. */
  ghost predicate FreshIds(attempts: seq<Attempt>) {
    forall i, j :: 0 <= i < j < |attempts| ==> attempts[i].call.id != attempts[j].call.id
  }

  /** Any sequence of calls, each complete or cut short anywhere; the process keeps nothing else
      between them, so a restart is no step of its own. */
  function Run(attempts: seq<Attempt>): World {
    if attempts == [] then NOTHING else After(Run(attempts[..|attempts| - 1]), attempts[|attempts| - 1])
  }

  /** The intents of the calls of a run that were cut short. */
  function Torn(attempts: seq<Attempt>): set<string> {
    if attempts == [] then {}
    else
      var init, last := attempts[..|attempts| - 1], attempts[|attempts| - 1];
      if CutShort(Run(init), last) then Torn(init) + {last.call.id} else Torn(init)
  }

  lemma {:induction false} RunIsOrderly(attempts: seq<Attempt>)
    requires FreshIds(attempts)
    ensures Orderly(Run(attempts), Torn(attempts))
    ensures forall id :: id in Run(attempts).intents ==> exists i :: 0 <= i < |attempts| && attempts[i].call.id == id
  {
    if attempts != [] {
      var init, last := attempts[..|attempts| - 1], attempts[|attempts| - 1];
      RunIsOrderly(init);
      StepKeepsOrder(Run(init), Torn(init), last);
      forall id | id in Run(attempts).intents
        ensures exists i :: 0 <= i < |attempts| && attempts[i].call.id == id
      {
        if id in Run(init).intents {
          var i :| 0 <= i < |init| && init[i].call.id == id;
          assert attempts[i].call.id == id;
        } else {
          assert attempts[|attempts| - 1].call.id == id;
        }
      }
    }
  }

  /** Each idempotency key reaches the exchange at most once, whatever is retried and wherever
      calls are cut short. */
  lemma SubmittedAtMostOnce(attempts: seq<Attempt>)
    requires FreshIds(attempts)
    ensures forall i, j :: 0 <= i < j < |Run(attempts).submissions| ==>
      Run(attempts).submissions[i].key != Run(attempts).submissions[j].key
  {
    RunIsOrderly(attempts);
  }

  /** Nothing is submitted that is not on record first: a submission's intent is in both tables,
      and an intent whose key still says PERSISTED has not been submitted. */
  lemma SubmissionsAreOnRecord(attempts: seq<Attempt>)
    requires FreshIds(attempts)
    ensures var w := Run(attempts);
            forall s :: s in w.submissions ==>
              s.key in w.keys && w.keys[s.key].id == s.id && w.keys[s.key].status != PERSISTED
              && s.id in w.intents && w.intents[s.id].key == s.key
  {
    RunIsOrderly(attempts);
  }

  /** The tables agree on every intent whose call was not cut short. */
  lemma TablesAgree(attempts: seq<Attempt>)
    requires FreshIds(attempts)
    ensures forall id :: id in Run(attempts).intents && id !in Torn(attempts) ==> AgreesOn(Run(attempts), id)
  {
    RunIsOrderly(attempts);
  }
}

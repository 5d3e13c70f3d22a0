/** What the gates of the sandbox protocol decide: which calls are submitted, how they end, and what
    their lifecycle says of it. */
module SandboxGates {
  import opened Prelude
  import opened Lifecycle
  import opened Sandbox
  import KillSwitches

  /** Not killed, on fresh market data, approved by risk. */
  predicate Cleared(g: Gates) { !g.killed && g.marketFresh && g.riskOk }

  // ----- effects without a submission -----

  predicate Silent(es: seq<Effect>) { forall e :: e in es ==> !e.Submit? }

  lemma {:induction false} SilentApply(w: World, es: seq<Effect>)
    requires Silent(es)
    ensures Apply(w, es).submissions == w.submissions
  {
    if es != [] {
      SilentApply(w, es[..|es| - 1]);
      assert es[|es| - 1] in es;
    }
  }

  lemma AnsweredIsSilent(c: Call)
    ensures Silent(Answered(c))
  {
  }

  /** The effects before the submission of a call that is cleared: its row, and the announcement. */
  function Announcing(c: Call): seq<Effect> {
    Writes(c.id, Row(c.key, PERSISTED, None)) + Writes(c.id, Row(c.key, SUBMITTING, None))
  }

  lemma EffectsAre(c: Call)
    ensures Cleared(c.gates) ==> Effects(c) == Announcing(c) + ([Submit(Submission(c.key, c.id))] + Answered(c))
    ensures !Cleared(c.gates) ==> Effects(c) == Writes(c.id, Row(c.key, PERSISTED, None))
  {
  }

  /** The fifth effect of a cleared call is its submission, and its only one. */
  lemma SubmissionsOf(w: World, c: Call, n: nat)
    ensures Partial(w, Effects(c), n).submissions
         == w.submissions + if Cleared(c.gates) && 5 <= n then [Submission(c.key, c.id)] else []
  {
    EffectsAre(c);
    if !Cleared(c.gates) {
      SilentPartial(w, Effects(c), n);
    } else {
      AnsweredIsSilent(c);
      SubmittedBetween(w, Announcing(c), Submission(c.key, c.id), Answered(c), n);
    }
  }

  /** One submission among effects without any comes when it is reached. */
  lemma SubmittedBetween(w: World, xs: seq<Effect>, s: Submission, ys: seq<Effect>, n: nat)
    requires Silent(xs) && Silent(ys)
    ensures Partial(w, xs + ([Submit(s)] + ys), n).submissions == w.submissions + if |xs| < n then [s] else []
  {
    PartialAppend(w, xs, [Submit(s)] + ys, n);
    if n < |xs| {
      SilentPartial(w, xs, n);
    } else {
      SilentApply(w, xs);
      SubmittedFirst(Apply(w, xs), s, ys, n - |xs|);
    }
  }

  lemma SubmittedFirst(w: World, s: Submission, ys: seq<Effect>, n: nat)
    requires Silent(ys)
    ensures Partial(w, [Submit(s)] + ys, n).submissions == w.submissions + if 0 < n then [s] else []
  {
    PartialAppend(w, [Submit(s)], ys, n);
    AppliedOne(w, Submit(s));
    if n == 0 {
      assert [Submit(s)][..0] == [];
    } else {
      SilentPartial(Apply(w, [Submit(s)]), ys, n - 1);
    }
  }

  lemma SilentPartial(w: World, es: seq<Effect>, n: nat)
    requires Silent(es)
    ensures Partial(w, es, n).submissions == w.submissions
  {
    if n < |es| {
      SilentApply(w, es[..n]);
    } else {
      SilentApply(w, es);
    }
  }

  // ----- attempts -----

  /** The key is free for the call: in no use by another intent. */
  predicate KeyFree(w: World, c: Call) { c.key in w.keys ==> w.keys[c.key].id == c.id }

  /** An attempt submits exactly when its gates are clear, its key is free, and it gets past the four
      writes that come first. */
  lemma AttemptSubmitsIff(w: World, a: Attempt)
    ensures After(w, a).submissions
         == w.submissions
            + if Cleared(a.call.gates) && KeyFree(w, a.call) && 5 <= a.steps
              then [Submission(a.call.key, a.call.id)] else []
  {
    SubmissionsOf(w, a.call, a.steps);
  }

  /** A call that is not cut short gets past them. */
  lemma UncutSubmits(w: World, a: Attempt)
    requires Cleared(a.call.gates) && KeyFree(w, a.call) && !CutShort(w, a)
    ensures After(w, a).submissions == w.submissions + [Submission(a.call.key, a.call.id)]
  {
    EffectsAre(a.call);
    AttemptSubmitsIff(w, a);
  }

  /** A submission is that of an attempt. */
  predicate IsOf(s: Submission, c: Call) { s == Submission(c.key, c.id) }

  /** Over every run, each submission is that of a call that was not killed, saw a fresh market and
      was approved by risk. */
  lemma {:induction false} SubmissionsAreCleared(attempts: seq<Attempt>)
    ensures forall s :: s in Run(attempts).submissions ==>
      exists i :: 0 <= i < |attempts| && IsOf(s, attempts[i].call) && Cleared(attempts[i].call.gates)
  {
    if attempts != [] {
      var n := |attempts| - 1;
      var before := Run(attempts[..n]);
      SubmissionsAreCleared(attempts[..n]);
      AttemptSubmitsIff(before, attempts[n]);
      forall s | s in Run(attempts).submissions
        ensures exists i :: 0 <= i < |attempts| && IsOf(s, attempts[i].call) && Cleared(attempts[i].call.gates)
      {
        if s in before.submissions {
          var i :| 0 <= i < n && IsOf(s, attempts[..n][i].call) && Cleared(attempts[..n][i].call.gates);
          assert IsOf(s, attempts[i].call);
        } else {
          assert IsOf(s, attempts[n].call);
        }
      }
    }
  }

  // ----- how a call ends -----

  /** What a call that completes leaves on record: never submitted, failed, open, or filled. */
  lemma CompletedStatus(w: World, c: Call)
    ensures var t := Apply(w, Effects(c));
            c.id in t.intents && t.intents[c.id]
              == if !Cleared(c.gates) then Row(c.key, PERSISTED, None)
                 else if !c.reply.accepted then Row(c.key, IntentStatus.FAILED, None)
                 else if c.reply.resting then Row(c.key, SUBMITTED, Some(c.reply.order))
                 else Row(c.key, FILLED, Some(c.reply.order))
  {
    EffectsAre(c);
    if !Cleared(c.gates) {
      LastWrite(w, [], c.id, Row(c.key, PERSISTED, None));
      assert Effects(c) == [] + Writes(c.id, Row(c.key, PERSISTED, None));
    } else {
      AnsweredStatus(w, Announcing(c) + [Submit(Submission(c.key, c.id))], c);
      assert Effects(c) == Announcing(c) + [Submit(Submission(c.key, c.id))] + Answered(c);
    }
  }

  lemma LastWrite(w: World, xs: seq<Effect>, id: string, row: Row)
    ensures var t := Apply(w, xs + Writes(id, row)); id in t.intents && t.intents[id] == row
    ensures var t := Apply(w, xs + Writes(id, row) + [Consult]); id in t.intents && t.intents[id] == row
  {
    ApplyAppend(w, xs, Writes(id, row));
    AppliedWrites(Apply(w, xs), id, row);
    ApplyAppend(w, xs + Writes(id, row), [Consult]);
    AppliedOne(Apply(w, xs + Writes(id, row)), Consult);
  }

  lemma AnsweredStatus(w: World, xs: seq<Effect>, c: Call)
    ensures var t := Apply(w, xs + Answered(c));
            c.id in t.intents && t.intents[c.id]
              == if !c.reply.accepted then Row(c.key, IntentStatus.FAILED, None)
                 else if c.reply.resting then Row(c.key, SUBMITTED, Some(c.reply.order))
                 else Row(c.key, FILLED, Some(c.reply.order))
  {
    var row, none := Row(c.key, SUBMITTED, Some(c.reply.order)), Row(c.key, IntentStatus.FAILED, None);
    if !c.reply.accepted && c.reply.ambiguous {
      LastWrite(w, xs + [Consult], c.id, none);
      assert xs + Answered(c) == xs + [Consult] + Writes(c.id, none);
    } else if !c.reply.accepted {
      LastWrite(w, xs, c.id, none);
    } else if c.reply.resting {
      var ys := xs + Writes(c.id, row) + [Consult];
      LastWrite(w, xs, c.id, row);
      ApplyAppend(w, ys, [Consult]);
      AppliedOne(Apply(w, ys), Consult);
      assert xs + Answered(c) == ys + [Consult];
    } else {
      var ys := xs + Writes(c.id, row) + [Consult];
      LastWrite(w, ys, c.id, row.(status := FILLED));
      assert xs + Answered(c) == ys + Writes(c.id, row.(status := FILLED)) + [Consult];
    }
  }

  /** The lifecycle tells the truth: a call is seen submitted, acknowledged, filled, let go, failed or
      blocked exactly when it was. */
  lemma PathTellsTruth(c: Call)
    ensures var path, accepted := Path(c), Cleared(c.gates) && c.reply.accepted;
            && (BLOCKED in path <==> !Cleared(c.gates))
            && (SUBMIT in path <==> Cleared(c.gates))
            && (ACK in path <==> accepted)
            && (FULL_FILL in path <==> accepted && !c.reply.resting)
            && (CANCEL in path <==> accepted && c.reply.resting)
            && (Stage.FAILED in path <==> Cleared(c.gates) && !c.reply.accepted && !c.reply.ambiguous)
  {
  }

  // ----- under the switch -----

  /** A cycle of a running process that may trade, healthy, on a fresh market and approved by risk. */
  predicate MaySubmit(s: KillSwitches.State, c: KillSwitches.Command) {
    && c.Cycle? && KillSwitches.AllowsNewTrades(s) && c.healthy
    && c.attempt.call.gates.marketFresh && c.attempt.call.gates.riskOk
  }

  /** A cycle submits exactly when it may, its key is free, and it gets past the first four writes. */
  lemma CycleSubmitsIff(s: KillSwitches.State, c: KillSwitches.Command)
    ensures KillSwitches.Step(s, c).world.submissions
         == s.world.submissions
            + if MaySubmit(s, c) && KeyFree(s.world, c.attempt.call) && 5 <= c.attempt.steps
              then [Submission(c.attempt.call.key, c.attempt.call.id)] else []
  {
    KillSwitches.StepIsAttempt(s, c);
    var made := KillSwitches.AttemptOf(s, c);
    if made != [] {
      AttemptSubmitsIff(s.world, made[0]);
    }
  }

  /** Over every run of cycles, restarts, recoveries and switching, each submission is that of a cycle
      that might. */
  lemma {:induction false} RunSubmitsOnlyWhatItMay(s: KillSwitches.State, commands: seq<KillSwitches.Command>)
    requires s.world == NOTHING
    ensures forall x :: x in KillSwitches.Run(s, commands).world.submissions ==>
      exists i ::
        && 0 <= i < |commands| && MaySubmit(KillSwitches.Run(s, commands[..i]), commands[i])
        && IsOf(x, commands[i].attempt.call)
  {
    if commands != [] {
      var n := |commands| - 1;
      var before := KillSwitches.Run(s, commands[..n]);
      RunSubmitsOnlyWhatItMay(s, commands[..n]);
      CycleSubmitsIff(before, commands[n]);
      forall x | x in KillSwitches.Run(s, commands).world.submissions
        ensures exists i ::
          && 0 <= i < |commands| && MaySubmit(KillSwitches.Run(s, commands[..i]), commands[i])
          && IsOf(x, commands[i].attempt.call)
      {
        if x in before.world.submissions {
          var i :| 0 <= i < n && MaySubmit(KillSwitches.Run(s, commands[..n][..i]), commands[..n][i])
            && IsOf(x, commands[..n][i].attempt.call);
          assert commands[..n][..i] == commands[..i];
          assert IsOf(x, commands[i].attempt.call);
        } else {
          assert IsOf(x, commands[n].attempt.call);
        }
      }
    }
  }
}

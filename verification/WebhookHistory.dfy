/** What the webhook lets through, in terms of everything that has come before: its expiring tables
    forget nothing that still counts, and remember nothing that never was. */
module WebhookHistory {
  import opened Webhook

  // ----- the tables hold nothing but history -----

  ghost predicate Known(table: seq<Seen>, history: seq<Seen>) { forall e :: e in table ==> e in history }

  lemma {:induction false} PruneKnown(table: seq<Seen>, cutoff: int)
    ensures Known(Prune(table, cutoff), table)
  {
    if table != [] && table[0].at < cutoff {
      PruneKnown(table[1..], cutoff);
    }
  }

  lemma StepKnown(c: Limits, t: Tables, log: Log, a: Arrival)
    requires Known(t.nonces, NoncesOf(log.messages)) && Known(t.keys, log.intents)
    ensures var u, grown := Handled(c, t, a.at, a.request), Logged(c, t, log, a);
            Known(u.nonces, NoncesOf(grown.messages)) && Known(u.keys, grown.intents)
  {
    var m := if Passed(c, t, a.at, a.request) then a.request.message.value else Message("", Unreadable);
    TableStaysKnown(t.nonces, NoncesOf(log.messages), a.at - c.ttl, Seen(m.nonce, a.at));
    TableStaysKnown(t.keys, log.intents, a.at - c.ttl, Seen(a.request.key, a.at));
    NoncesGrow(log.messages, m, a.at);
  }

  /** Pruned, and with the same entry added to both or to neither, a table stays within its history. */
  lemma TableStaysKnown(table: seq<Seen>, history: seq<Seen>, cutoff: int, e: Seen)
    requires Known(table, history)
    ensures Known(Prune(table, cutoff), history)
    ensures Known(Prune(table, cutoff) + [e], history + [e])
  {
    PruneKnown(table, cutoff);
  }

  lemma {:induction false} TablesAreKnown(c: Limits, arrivals: seq<Arrival>)
    ensures var (t, log) := Run(c, arrivals); Known(t.nonces, NoncesOf(log.messages)) && Known(t.keys, log.intents)
  {
    if arrivals != [] {
      var init := arrivals[..|arrivals| - 1];
      var (t, log) := Run(c, init);
      TablesAreKnown(c, init);
      StepKnown(c, t, log, arrivals[|arrivals| - 1]);
    }
  }

  // ----- what the history says -----

  /** The key was used, and not longer ago than the time to live. */
  ghost predicate UsedSince(history: seq<Seen>, key: string, since: int) {
    exists i :: 0 <= i < |history| && history[i].key == key && since <= history[i].at
  }

  /** An entry that has not expired is still in the table. */
  lemma StillThere(table: seq<Seen>, history: seq<Seen>, ttl: int, last: int, now: int, i: nat)
    requires Remembers(table, history, ttl, last) && last <= now && i < |history| && now - ttl <= history[i].at
    ensures Has(Prune(table, now - ttl), history[i].key)
  {
    PruneIsExact(table, now - ttl);
    assert history[i] in history && history[i] in Prune(table, now - ttl);
  }

  /** What is in the table was used, and has not expired. */
  lemma WasThere(table: seq<Seen>, history: seq<Seen>, cutoff: int, i: nat)
    requires TimeSorted(table) && Known(table, history) && i < |Prune(table, cutoff)|
    ensures UsedSince(history, Prune(table, cutoff)[i].key, cutoff)
  {
    PruneIsExact(table, cutoff);
    var e := Prune(table, cutoff)[i];
    assert e in Prune(table, cutoff) && e in history;
    var j :| 0 <= j < |history| && history[j] == e;
  }

  lemma TableTells(table: seq<Seen>, history: seq<Seen>, ttl: int, last: int, now: int, key: string)
    requires Remembers(table, history, ttl, last) && Known(table, history) && last <= now
    ensures Has(Prune(table, now - ttl), key) <==> UsedSince(history, key, now - ttl)
  {
    if Has(Prune(table, now - ttl), key) {
      var i :| 0 <= i < |Prune(table, now - ttl)| && Prune(table, now - ttl)[i].key == key;
      WasThere(table, history, now - ttl, i);
    }
    if UsedSince(history, key, now - ttl) {
      var i :| 0 <= i < |history| && history[i].key == key && now - ttl <= history[i].at;
      StillThere(table, history, ttl, last, now, i);
    }
  }

  ghost predicate Behind(times: seq<int>, now: int) { forall i :: 0 <= i < |times| ==> times[i] <= now }

  lemma {:induction false} CountIsRecent(times: seq<int>, low: int, high: int)
    requires Behind(times, high)
    ensures CountIn(times, low, high) == |Recent(times, low)|
  {
    if times != [] {
      CountIsRecent(times[..|times| - 1], low, high);
    }
  }

  lemma {:induction false} TimesBehind(c: Limits, arrivals: seq<Arrival>, now: int)
    requires forall i :: 0 <= i < |arrivals| ==> arrivals[i].at <= now
    ensures Behind(Run(c, arrivals).1.times, now)
  {
    if arrivals != [] {
      TimesBehind(c, arrivals[..|arrivals| - 1], now);
    }
  }

  /** Admitted: not barred by the configuration, and fewer requests than the rate in the minute up to
      now. */
  ghost predicate MayEnter(c: Limits, log: Log, a: Arrival) {
    a.request.blocked.None? && CountIn(log.times, a.at - 60, a.at) < c.ratePerMinute
  }

  /** Past the replay check: authentic, stamped within the skew (or with what is not a number), and with
      a nonce that has not passed within the time to live. */
  ghost predicate MayPass(c: Limits, log: Log, a: Arrival) {
    && MayEnter(c, log, a) && a.request.unauthentic.None? && a.request.message.Some?
    && var m := a.request.message.value;
       && !m.stamp.Unreadable?
       && (m.stamp.At? ==> a.at - m.stamp.time <= c.maxSkew && m.stamp.time - a.at <= c.maxSkew)
       && !UsedSince(NoncesOf(log.messages), m.nonce, a.at - c.ttl)
  }

  /** An intent: sound in content, and with a key that has made none within the time to live. */
  ghost predicate MayCreate(c: Limits, log: Log, a: Arrival) {
    MayPass(c, log, a) && a.request.content.None? && !UsedSince(log.intents, a.request.key, a.at - c.ttl)
  }

  /** The log after a request, by what the log before it says. */
  ghost function NextLog(c: Limits, log: Log, a: Arrival): Log {
    Log(if MayEnter(c, log, a) then log.times + [a.at] else log.times,
        if MayPass(c, log, a) then log.messages + [Pass(a.request.message.value, a.at)] else log.messages,
        if MayCreate(c, log, a) then log.intents + [Seen(a.request.key, a.at)] else log.intents)
  }

  lemma EntersIff(c: Limits, arrivals: seq<Arrival>)
    requires ClockAdvances(arrivals) && arrivals != []
    ensures var a := arrivals[|arrivals| - 1];
            var (t, log) := Run(c, arrivals[..|arrivals| - 1]);
            Admitted(c, t, a.at, a.request) <==> MayEnter(c, log, a)
  {
    var init, a := arrivals[..|arrivals| - 1], arrivals[|arrivals| - 1];
    AdmittedSeesRecent(c, arrivals);
    assert forall i :: 0 <= i < |init| ==> init[i].at == arrivals[i].at;
    TimesBehind(c, init, a.at);
    CountIsRecent(Run(c, init).1.times, a.at - 60, a.at);
  }

  lemma NoncesTell(c: Limits, t: Tables, log: Log, last: int, now: int, nonce: string)
    requires Faithful(c, t, log, last) && Known(t.nonces, NoncesOf(log.messages)) && last <= now
    ensures Has(Prune(t.nonces, now - c.ttl), nonce) <==> UsedSince(NoncesOf(log.messages), nonce, now - c.ttl)
  {
    TableTells(t.nonces, NoncesOf(log.messages), c.ttl, last, now, nonce);
  }

  lemma KeysTell(c: Limits, t: Tables, log: Log, last: int, now: int, key: string)
    requires Faithful(c, t, log, last) && Known(t.keys, log.intents) && last <= now
    ensures Has(Prune(t.keys, now - c.ttl), key) <==> UsedSince(log.intents, key, now - c.ttl)
  {
    TableTells(t.keys, log.intents, c.ttl, last, now, key);
  }

  lemma RunRemembers(c: Limits, arrivals: seq<Arrival>, t: Tables, log: Log)
    requires ClockAdvances(arrivals) && arrivals != [] && (t, log) == Run(c, arrivals)
    ensures Faithful(c, t, log, arrivals[|arrivals| - 1].at)
    ensures Known(t.nonces, NoncesOf(log.messages)) && Known(t.keys, log.intents)
  {
    RunIsFaithful(c, arrivals);
    TablesAreKnown(c, arrivals);
  }

  lemma NothingTells(since: int, nonce: string, key: string)
    ensures !Has(Prune([], since), nonce) && !UsedSince(NoncesOf([]), nonce, since)
    ensures !Has(Prune([], since), key) && !UsedSince([], key, since)
  {
  }

  /** The tables agree with the log on what one request asks of them. */
  ghost predicate TablesTell(c: Limits, t: Tables, log: Log, a: Arrival) {
    && (Admitted(c, t, a.at, a.request) <==> MayEnter(c, log, a))
    && (a.request.message.Some? ==>
          var nonce := a.request.message.value.nonce;
          Has(Prune(t.nonces, a.at - c.ttl), nonce) <==> UsedSince(NoncesOf(log.messages), nonce, a.at - c.ttl))
    && (Has(Prune(t.keys, a.at - c.ttl), a.request.key) <==> UsedSince(log.intents, a.request.key, a.at - c.ttl))
  }

  lemma FaithfulTellsAll(c: Limits, t: Tables, log: Log, last: int, a: Arrival)
    requires Faithful(c, t, log, last) && last <= a.at
    requires Known(t.nonces, NoncesOf(log.messages)) && Known(t.keys, log.intents)
    requires Admitted(c, t, a.at, a.request) <==> MayEnter(c, log, a)
    ensures TablesTell(c, t, log, a)
  {
    var nonce := if a.request.message.Some? then a.request.message.value.nonce else "";
    NoncesTell(c, t, log, last, a.at, nonce);
    KeysTell(c, t, log, last, a.at, a.request.key);
  }

  lemma FreshTells(c: Limits, a: Arrival)
    ensures var t, log := Tables([], [], []), Log([], [], []);
            (Admitted(c, t, a.at, a.request) <==> MayEnter(c, log, a)) ==> TablesTell(c, t, log, a)
  {
    NothingTells(a.at - c.ttl, if a.request.message.Some? then a.request.message.value.nonce else "", a.request.key);
  }

  lemma TellingDecides(c: Limits, t: Tables, log: Log, a: Arrival)
    requires TablesTell(c, t, log, a)
    ensures Passed(c, t, a.at, a.request) <==> MayPass(c, log, a)
    ensures Creates(c, t, a.at, a.request) <==> MayCreate(c, log, a)
    ensures Logged(c, t, log, a) == NextLog(c, log, a)
  {
  }

  /** Over every run whose clock does not go back, what a request does is decided by the log alone: it
      enters, passes and creates exactly when the history up to it says that it may. The tables the
      program keeps, and prunes, make no difference. */
  lemma HistoryDecides(c: Limits, arrivals: seq<Arrival>)
    requires ClockAdvances(arrivals) && arrivals != []
    ensures Run(c, arrivals).1 == NextLog(c, Run(c, arrivals[..|arrivals| - 1]).1, arrivals[|arrivals| - 1])
  {
    var init, a := arrivals[..|arrivals| - 1], arrivals[|arrivals| - 1];
    var (t, log) := Run(c, init);
    EntersIff(c, arrivals);
    if init == [] {
      FreshTells(c, a);
    } else {
      RunRemembers(c, init, t, log);
      FaithfulTellsAll(c, t, log, init[|init| - 1].at, a);
    }
    TellingDecides(c, t, log, a);
  }

  /** The intent is that of a request that was let through. */
  ghost predicate IsSound(c: Limits, arrivals: seq<Arrival>, e: Seen) {
    exists i ::
      && 0 <= i < |arrivals| && e == Seen(arrivals[i].request.key, arrivals[i].at)
      && MayCreate(c, Run(c, arrivals[..i]).1, arrivals[i])
  }

  lemma StaysSound(c: Limits, arrivals: seq<Arrival>, n: nat, e: Seen)
    requires n <= |arrivals| && IsSound(c, arrivals[..n], e)
    ensures IsSound(c, arrivals, e)
  {
    var i :|
      && 0 <= i < n && e == Seen(arrivals[..n][i].request.key, arrivals[..n][i].at)
      && MayCreate(c, Run(c, arrivals[..n][..i]).1, arrivals[..n][i]);
    assert arrivals[..n][..i] == arrivals[..i];
    assert e == Seen(arrivals[i].request.key, arrivals[i].at);
  }

  /** So every intent there is came with a request that no check would have stopped. */
  lemma {:induction false} IntentsAreSound(c: Limits, arrivals: seq<Arrival>)
    requires ClockAdvances(arrivals)
    ensures forall e :: e in Run(c, arrivals).1.intents ==> IsSound(c, arrivals, e)
  {
    if arrivals != [] {
      var n := |arrivals| - 1;
      IntentsAreSound(c, arrivals[..n]);
      HistoryDecides(c, arrivals);
      forall e | e in Run(c, arrivals).1.intents
        ensures IsSound(c, arrivals, e)
      {
        if e in Run(c, arrivals[..n]).1.intents {
          StaysSound(c, arrivals, n, e);
        } else {
          assert e == Seen(arrivals[n].request.key, arrivals[n].at);
        }
      }
    }
  }
}

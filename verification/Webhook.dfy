/** The webhook's memory: tables of nonces and idempotency keys that expire from the front, and a
    list of recent arrivals that limits the rate. Over any run whose clock does not go back. */
module Webhook {
  import opened Prelude

  datatype Seen = Seen(key: string, at: int)

  datatype Limits = Limits(ttl: int, maxSkew: int, ratePerMinute: int)

  datatype Tables = Tables(nonces: seq<Seen>, keys: seq<Seen>, bucket: seq<int>)

  /** A timestamp as it parses: not at all, as the value that is not a number, or as a number. */
  datatype Stamp = Unreadable | NotANumber | At(time: int)

  /** A message that carries replay protection. */
  datatype Message = Message(nonce: string, stamp: Stamp)

  /** The checks that look only at the request and the configuration have their outcomes here:
      `blocked` before the rate limit, `unauthentic` after it, `content` after the replay check. */
  datatype Request = Request(
    blocked: Option<string>, unauthentic: Option<string>, message: Option<Message>,
    content: Option<string>, key: string)

  datatype Reason =
    | Gate(code: string) | RATE_LIMIT | REPLAY_PROTECTION_REQUIRED | TIMESTAMP_INVALID
    | TIMESTAMP_SKEW | REPLAY_DETECTED
    | IDEMPOTENT_REPLAY | INTENT_CREATED

  datatype Verdict = Verdict(accepted: bool, reason: Reason, created: bool)

  function Refuse(reason: Reason): Verdict { Verdict(false, reason, false) }

  // ----- one request -----

  /** Entries leave from the front while they are older than the cutoff. */
  function Prune(table: seq<Seen>, cutoff: int): seq<Seen> {
    if table != [] && table[0].at < cutoff then Prune(table[1..], cutoff) else table
  }

  function Recent(times: seq<int>, cutoff: int): seq<int> {
    if times == [] then []
    else
      var rest, last := Recent(times[..|times| - 1], cutoff), times[|times| - 1];
      if last >= cutoff then rest + [last] else rest
  }

  function Pruned(c: Limits, t: Tables, now: int): Tables {
    Tables(Prune(t.nonces, now - c.ttl), Prune(t.keys, now - c.ttl), Recent(t.bucket, now - 60))
  }

  predicate Has(table: seq<Seen>, key: string) { exists i :: 0 <= i < |table| && table[i].key == key }

  /** Past the rate limit. */
  predicate Admitted(c: Limits, t: Tables, now: int, r: Request) {
    r.blocked.None? && |Recent(t.bucket, now - 60)| < c.ratePerMinute
  }

  /** Not skewed. No comparison with the value that is not a number finds it skewed. */
  predicate Timely(c: Limits, now: int, m: Message) {
    m.stamp.NotANumber? || (m.stamp.At? && -c.maxSkew <= now - m.stamp.time <= c.maxSkew)
  }

  /** Past the replay check: admitted, authentic, timely, and with a nonce not in the table. */
  predicate Passed(c: Limits, t: Tables, now: int, r: Request) {
    Admitted(c, t, now, r) && r.unauthentic.None? && r.message.Some? && Timely(c, now, r.message.value)
    && !Has(Prune(t.nonces, now - c.ttl), r.message.value.nonce)
  }

  /** An intent is created. */
  predicate Creates(c: Limits, t: Tables, now: int, r: Request) {
    Passed(c, t, now, r) && r.content.None? && !Has(Prune(t.keys, now - c.ttl), r.key)
  }

  /** The tables after a request. */
  function Handled(c: Limits, t: Tables, now: int, r: Request): Tables {
    var p := Pruned(c, t, now);
    Tables(if Passed(c, t, now, r) then p.nonces + [Seen(r.message.value.nonce, now)] else p.nonces,
           if Creates(c, t, now, r) then p.keys + [Seen(r.key, now)] else p.keys,
           if Admitted(c, t, now, r) then p.bucket + [now] else p.bucket)
  }

  // ----- runs -----

  datatype Arrival = Arrival(at: int, request: Request)

  ghost predicate ClockAdvances(arrivals: seq<Arrival>) {
    forall i, j :: 0 <= i < j < |arrivals| ==> arrivals[i].at <= arrivals[j].at
  }

  /** What a run has let through so far: times past the rate limit, messages past the replay
      check, intents created. */
  datatype Log = Log(times: seq<int>, messages: seq<Pass>, intents: seq<Seen>)

  datatype Pass = Pass(message: Message, at: int)

  function Logged(c: Limits, t: Tables, log: Log, a: Arrival): Log {
    Log(if Admitted(c, t, a.at, a.request) then log.times + [a.at] else log.times,
        if Passed(c, t, a.at, a.request) then log.messages + [Pass(a.request.message.value, a.at)] else log.messages,
        if Creates(c, t, a.at, a.request) then log.intents + [Seen(a.request.key, a.at)] else log.intents)
  }

  function Run(c: Limits, arrivals: seq<Arrival>): (Tables, Log) {
    if arrivals == [] then (Tables([], [], []), Log([], [], []))
    else
      var (t, log) := Run(c, arrivals[..|arrivals| - 1]);
      var a := arrivals[|arrivals| - 1];
      (Handled(c, t, a.at, a.request), Logged(c, t, log, a))
  }

  // ----- the rate limit is a sliding window -----

  /** How many of the times fall in a closed interval. */
  function CountIn(times: seq<int>, low: int, high: int): nat {
    if times == [] then 0
    else CountIn(times[..|times| - 1], low, high) + if low <= times[|times| - 1] <= high then 1 else 0
  }

  lemma {:induction false} RecentOfRecent(times: seq<int>, early: int, late: int)
    requires early <= late
    ensures Recent(Recent(times, early), late) == Recent(times, late)
  {
    if times != [] {
      var init := times[..|times| - 1];
      RecentOfRecent(init, early, late);
      if times[|times| - 1] >= early {
        assert (Recent(init, early) + [times[|times| - 1]])[..|Recent(init, early)|] == Recent(init, early);
      }
    }
  }

  lemma {:induction false} CountAtMostRecent(times: seq<int>, low: int, high: int, cutoff: int)
    requires cutoff <= low
    ensures CountIn(times, low, high) <= |Recent(times, cutoff)|
  {
    if times != [] {
      CountAtMostRecent(times[..|times| - 1], low, high, cutoff);
    }
  }

  /** The bucket is the part of the log that the latest arrival can still see. */
  lemma {:induction false} BucketIsRecent(c: Limits, arrivals: seq<Arrival>)
    requires ClockAdvances(arrivals) && arrivals != []
    ensures var (t, log) := Run(c, arrivals);
            t.bucket == Recent(log.times, arrivals[|arrivals| - 1].at - 60)
  {
    var init, a := arrivals[..|arrivals| - 1], arrivals[|arrivals| - 1];
    var (t, log) := Run(c, init);
    if init != [] {
      BucketIsRecent(c, init);
      assert arrivals[|init| - 1].at <= a.at;
      RecentOfRecent(log.times, init[|init| - 1].at - 60, a.at - 60);
    }
    assert (log.times + [a.at])[..|log.times|] == log.times;
  }

  /** The last request of a run is admitted exactly when the log has room in the sixty seconds up
      to it. */
  lemma AdmittedSeesRecent(c: Limits, arrivals: seq<Arrival>)
    requires ClockAdvances(arrivals) && arrivals != []
    ensures var a := arrivals[|arrivals| - 1];
            var (t, log) := Run(c, arrivals[..|arrivals| - 1]);
            Admitted(c, t, a.at, a.request)
            <==> a.request.blocked.None? && |Recent(log.times, a.at - 60)| < c.ratePerMinute
  {
    var init, now := arrivals[..|arrivals| - 1], arrivals[|arrivals| - 1].at;
    var (t, log) := Run(c, init);
    if init != [] {
      BucketIsRecent(c, init);
      assert init[|init| - 1].at <= now;
      RecentOfRecent(log.times, init[|init| - 1].at - 60, now - 60);
      assert Recent(t.bucket, now - 60) == Recent(log.times, now - 60);
    }
  }

  lemma CountSnoc(times: seq<int>, x: int, low: int, high: int)
    ensures CountIn(times + [x], low, high) == CountIn(times, low, high) + if low <= x <= high then 1 else 0
  {
    assert (times + [x])[..|times|] == times;
  }

  lemma AddWithin(times: seq<int>, now: int, start: int, limit: int)
    requires CountIn(times, start, start + 60) <= MaxInt(limit, 0) && |Recent(times, now - 60)| < limit
    ensures CountIn(times + [now], start, start + 60) <= MaxInt(limit, 0)
  {
    CountSnoc(times, now, start, start + 60);
    if start <= now <= start + 60 {
      CountAtMostRecent(times, start, start + 60, now - 60);
    }
  }

  /** Every closed interval of sixty seconds holds at most the configured number of admissions. */
  lemma {:induction false} RateIsLimited(c: Limits, arrivals: seq<Arrival>, start: int)
    requires ClockAdvances(arrivals)
    ensures CountIn(Run(c, arrivals).1.times, start, start + 60) <= MaxInt(c.ratePerMinute, 0)
  {
    if arrivals != [] {
      var init, a := arrivals[..|arrivals| - 1], arrivals[|arrivals| - 1];
      RateIsLimited(c, init, start);
      AdmittedSeesRecent(c, arrivals);
      var (t, log) := Run(c, init);
      if Admitted(c, t, a.at, a.request) {
        AddWithin(log.times, a.at, start, c.ratePerMinute);
      }
    }
  }

  // ----- the expiring tables -----

  ghost predicate TimeSorted(table: seq<Seen>) {
    forall i, j :: 0 <= i < j < |table| ==> table[i].at <= table[j].at
  }

  /** Front pruning of a time-sorted table removes exactly the expired entries. */
  lemma {:induction false} PruneIsExact(table: seq<Seen>, cutoff: int)
    requires TimeSorted(table)
    ensures TimeSorted(Prune(table, cutoff))
    ensures forall e :: e in Prune(table, cutoff) <==> e in table && e.at >= cutoff
  {
    if table != [] && table[0].at < cutoff {
      PruneIsExact(table[1..], cutoff);
      assert table == [table[0]] + table[1..];
    } else {
      assert forall i :: 0 <= i < |table| ==> table[0].at <= table[i].at;
    }
  }

  /** Entries of the same key are more than the time to live apart. */
  ghost predicate Spaced(history: seq<Seen>, ttl: int) {
    forall i, j :: 0 <= i < j < |history| && history[i].key == history[j].key ==> history[j].at - history[i].at > ttl
  }

  /** A table as it stands after pruning at `last`, against everything ever put into it. */
  ghost predicate Remembers(table: seq<Seen>, history: seq<Seen>, ttl: int, last: int) {
    && TimeSorted(table)
    && (forall e :: e in table ==> e.at <= last)
    && (forall e :: e in history ==> e.at <= last && (e.at >= last - ttl ==> e in table))
    && Spaced(history, ttl)
  }

  lemma PrunedRemembers(table: seq<Seen>, history: seq<Seen>, ttl: int, last: int, now: int)
    requires Remembers(table, history, ttl, last) && last <= now
    ensures Remembers(Prune(table, now - ttl), history, ttl, now)
  {
    PruneIsExact(table, now - ttl);
  }

  lemma NotedRemembers(table: seq<Seen>, history: seq<Seen>, ttl: int, now: int, key: string)
    requires Remembers(table, history, ttl, now) && !Has(table, key)
    ensures Remembers(table + [Seen(key, now)], history + [Seen(key, now)], ttl, now)
  {
    var grown := history + [Seen(key, now)];
    forall i | 0 <= i < |history| && history[i].key == key
      ensures now - history[i].at > ttl
    {
      assert history[i] in history;
    }
    assert forall e :: e in grown <==> e in history || e == Seen(key, now);
  }

  /** The messages past the replay check, as entries of the nonce table. */
  function NoncesOf(messages: seq<Pass>): (s: seq<Seen>)
    ensures |s| == |messages|
    ensures forall i :: 0 <= i < |s| ==> s[i] == Seen(messages[i].message.nonce, messages[i].at)
  {
    if messages == [] then []
    else
      NoncesOf(messages[..|messages| - 1])
      + [Seen(messages[|messages| - 1].message.nonce, messages[|messages| - 1].at)]
  }

  ghost predicate Faithful(c: Limits, t: Tables, log: Log, last: int) {
    && Remembers(t.nonces, NoncesOf(log.messages), c.ttl, last)
    && Remembers(t.keys, log.intents, c.ttl, last)
    && forall p :: p in log.messages ==> Timely(c, p.at, p.message)
  }

  /** One request's worth of a table: pruned, and with a new entry when there is one. */
  lemma StepRemembers(table: seq<Seen>, history: seq<Seen>, ttl: int, last: int, now: int, key: string, noted: bool)
    requires Remembers(table, history, ttl, last) && last <= now
    requires noted ==> !Has(Prune(table, now - ttl), key)
    ensures var kept, entry := Prune(table, now - ttl), Seen(key, now);
            if noted then Remembers(kept + [entry], history + [entry], ttl, now) else Remembers(kept, history, ttl, now)
  {
    PrunedRemembers(table, history, ttl, last, now);
    if noted {
      NotedRemembers(Prune(table, now - ttl), history, ttl, now, key);
    }
  }

  lemma NoncesGrow(messages: seq<Pass>, m: Message, now: int)
    ensures NoncesOf(messages + [Pass(m, now)]) == NoncesOf(messages) + [Seen(m.nonce, now)]
  {
    assert (messages + [Pass(m, now)])[..|messages|] == messages;
  }

  lemma NoncesFaithful(c: Limits, t: Tables, log: Log, last: int, a: Arrival)
    requires Remembers(t.nonces, NoncesOf(log.messages), c.ttl, last) && last <= a.at
    ensures Remembers(Handled(c, t, a.at, a.request).nonces, NoncesOf(Logged(c, t, log, a).messages), c.ttl, a.at)
  {
    var passed := Passed(c, t, a.at, a.request);
    var m := if passed then a.request.message.value else Message("", Unreadable);
    StepRemembers(t.nonces, NoncesOf(log.messages), c.ttl, last, a.at, m.nonce, passed);
    NoncesGrow(log.messages, m, a.at);
  }

  lemma KeysFaithful(c: Limits, t: Tables, log: Log, last: int, a: Arrival)
    requires Remembers(t.keys, log.intents, c.ttl, last) && last <= a.at
    ensures Remembers(Handled(c, t, a.at, a.request).keys, Logged(c, t, log, a).intents, c.ttl, a.at)
  {
    StepRemembers(t.keys, log.intents, c.ttl, last, a.at, a.request.key, Creates(c, t, a.at, a.request));
  }

  lemma HandledFaithful(c: Limits, t: Tables, log: Log, last: int, a: Arrival)
    requires Faithful(c, t, log, last) && last <= a.at
    ensures Faithful(c, Handled(c, t, a.at, a.request), Logged(c, t, log, a), a.at)
  {
    NoncesFaithful(c, t, log, last, a);
    KeysFaithful(c, t, log, last, a);
  }

  lemma {:induction false} RunIsFaithful(c: Limits, arrivals: seq<Arrival>)
    requires ClockAdvances(arrivals) && arrivals != []
    ensures var (t, log) := Run(c, arrivals);
            Faithful(c, t, log, arrivals[|arrivals| - 1].at)
  {
    var init, a := arrivals[..|arrivals| - 1], arrivals[|arrivals| - 1];
    var (t, log) := Run(c, init);
    if init == [] {
      HandledFaithful(c, t, log, a.at, a);
    } else {
      RunIsFaithful(c, init);
      assert arrivals[|init| - 1].at <= a.at;
      HandledFaithful(c, t, log, init[|init| - 1].at, a);
    }
  }

  /** Two passes of a nonce, or two intents of a key, are more than the time to live apart. */
  lemma RepeatsAreSpaced(c: Limits, arrivals: seq<Arrival>)
    requires ClockAdvances(arrivals)
    ensures Spaced(NoncesOf(Run(c, arrivals).1.messages), c.ttl)
    ensures Spaced(Run(c, arrivals).1.intents, c.ttl)
  {
    if arrivals != [] {
      RunIsFaithful(c, arrivals);
    }
  }

  /** No message stamped with a time has passed twice. */
  ghost predicate NoReplay(log: Log) {
    forall i, j :: 0 <= i < j < |log.messages| && log.messages[i].message == log.messages[j].message ==>
      !log.messages[i].message.stamp.At?
  }

  /** Two passes of a message stamped with a time are more than the time to live apart, and at
      most twice the skew. */
  lemma RepeatedPasses(c: Limits, arrivals: seq<Arrival>, i: nat, j: nat)
    requires ClockAdvances(arrivals)
    requires var messages := Run(c, arrivals).1.messages;
             i < j < |messages| && messages[i].message == messages[j].message && messages[i].message.stamp.At?
    ensures var messages := Run(c, arrivals).1.messages;
            0 <= c.maxSkew && c.ttl < messages[j].at - messages[i].at <= 2 * c.maxSkew
  {
    RunIsFaithful(c, arrivals);
    var messages := Run(c, arrivals).1.messages;
    var nonces := NoncesOf(messages);
    assert Spaced(nonces, c.ttl) && nonces[i].key == nonces[j].key;
    assert Timely(c, messages[i].at, messages[i].message) && Timely(c, messages[j].at, messages[j].message);
  }

  /** No such message passes twice, even after its nonce has been pruned. */
  lemma MessagesPassOnce(c: Limits, arrivals: seq<Arrival>)
    requires ClockAdvances(arrivals) && (c.ttl >= 2 * c.maxSkew || c.maxSkew < 0)
    ensures NoReplay(Run(c, arrivals).1)
  {
    var messages := Run(c, arrivals).1.messages;
    forall i, j | 0 <= i < j < |messages| && messages[i].message == messages[j].message
      ensures !messages[i].message.stamp.At?
    {
      if messages[i].message.stamp.At? {
        RepeatedPasses(c, arrivals, i, j);
      }
    }
  }

  // ----- replay protection by the rate alone -----

  lemma {:induction false} CountGrowsWithInterval(times: seq<int>, low: int, high: int, higher: int)
    requires high <= higher
    ensures CountIn(times, low, high) <= CountIn(times, low, higher)
  {
    if times != [] {
      CountGrowsWithInterval(times[..|times| - 1], low, high, higher);
    }
  }

  /** The passes of a log are among its admissions, each with its own. */
  ghost predicate PassesAdmitted(log: Log, last: int) {
    && (forall i :: 0 <= i < |log.messages| ==>
          log.messages[i].at <= last && 1 <= CountIn(log.times, log.messages[i].at, last))
    && forall i, j :: 0 <= i < j < |log.messages| ==> 2 <= CountIn(log.times, log.messages[i].at, log.messages[j].at)
  }

  lemma LaterStillAdmitted(log: Log, last: int, now: int, admitted: bool)
    requires PassesAdmitted(log, last) && last <= now
    ensures PassesAdmitted(log.(times := if admitted then log.times + [now] else log.times), now)
    ensures admitted ==> forall i :: 0 <= i < |log.messages| ==>
      2 <= CountIn(log.times + [now], log.messages[i].at, now)
  {
    forall i | 0 <= i < |log.messages|
      ensures 1 <= CountIn(log.times, log.messages[i].at, now)
      ensures CountIn(log.times + [now], log.messages[i].at, now) == CountIn(log.times, log.messages[i].at, now) + 1
    {
      CountGrowsWithInterval(log.times, log.messages[i].at, last, now);
      CountSnoc(log.times, now, log.messages[i].at, now);
    }
    forall i, j | 0 <= i < j < |log.messages|
      ensures CountIn(log.times, log.messages[i].at, log.messages[j].at)
           <= CountIn(log.times + [now], log.messages[i].at, log.messages[j].at)
    {
      CountSnoc(log.times, now, log.messages[i].at, log.messages[j].at);
    }
  }

  lemma {:induction false} PassesAreAdmitted(c: Limits, arrivals: seq<Arrival>)
    requires ClockAdvances(arrivals) && arrivals != []
    ensures PassesAdmitted(Run(c, arrivals).1, arrivals[|arrivals| - 1].at)
  {
    var init, a := arrivals[..|arrivals| - 1], arrivals[|arrivals| - 1];
    var (t, log) := Run(c, init);
    var last := if init == [] then a.at else init[|init| - 1].at;
    if init != [] {
      PassesAreAdmitted(c, init);
    }
    OnePassAdmitted(c, t, log, last, a);
  }

  lemma OnePassAdmitted(c: Limits, t: Tables, log: Log, last: int, a: Arrival)
    requires PassesAdmitted(log, last) && last <= a.at
    ensures PassesAdmitted(Logged(c, t, log, a), a.at)
  {
    LaterStillAdmitted(log, last, a.at, Admitted(c, t, a.at, a.request));
    CountSnoc(log.times, a.at, a.at, a.at);
  }

  lemma PassesShareAMinute(c: Limits, arrivals: seq<Arrival>, i: nat, j: nat)
    requires ClockAdvances(arrivals)
    requires var messages := Run(c, arrivals).1.messages; i < j < |messages| && messages[j].at <= messages[i].at + 60
    ensures 2 <= c.ratePerMinute
  {
    var log := Run(c, arrivals).1;
    PassesAreAdmitted(c, arrivals);
    CountGrowsWithInterval(log.times, log.messages[i].at, log.messages[j].at, log.messages[i].at + 60);
    RateIsLimited(c, arrivals, log.messages[i].at);
  }

  /** At one request a minute a message cannot even be sent again within its window when that is
      no longer than the minute. */
  lemma OneAMinutePassesOnce(c: Limits, arrivals: seq<Arrival>)
    requires ClockAdvances(arrivals) && c.ratePerMinute <= 1 && (c.ratePerMinute <= 0 || 2 * c.maxSkew <= 60)
    ensures NoReplay(Run(c, arrivals).1)
  {
    var messages := Run(c, arrivals).1.messages;
    forall i, j | 0 <= i < j < |messages| && messages[i].message == messages[j].message
      ensures !messages[i].message.stamp.At?
    {
      if messages[i].message.stamp.At? {
        if c.ratePerMinute <= 0 {
          NothingAdmitted(c, arrivals);
        } else {
          RepeatedPasses(c, arrivals, i, j);
          PassesShareAMinute(c, arrivals, i, j);
        }
      }
    }
  }

  lemma {:induction false} NothingAdmitted(c: Limits, arrivals: seq<Arrival>)
    requires c.ratePerMinute <= 0
    ensures Run(c, arrivals).1.messages == []
  {
    if arrivals != [] {
      NothingAdmitted(c, arrivals[..|arrivals| - 1]);
    }
  }

  // ----- where protection fails -----

  lemma RunSnoc(c: Limits, init: seq<Arrival>, a: Arrival)
    ensures var (t, log) := Run(c, init);
            Run(c, init + [a]) == (Handled(c, t, a.at, a.request), Logged(c, t, log, a))
  {
    assert (init + [a])[..|init|] == init;
  }

  function Bare(m: Message): Request { Request(None, None, Some(m), None, "k") }

  function SentTwice(m: Message, first: int, second: int): seq<Arrival> {
    [Arrival(first, Bare(m)), Arrival(second, Bare(m))]
  }

  lemma FirstPasses(c: Limits, m: Message, first: int)
    requires Timely(c, first, m) && 1 <= c.ratePerMinute
    ensures var (t, log) := Run(c, [Arrival(first, Bare(m))]);
            t.nonces == [Seen(m.nonce, first)] && t.bucket == [first] && log.messages == [Pass(m, first)]
  {
    RunSnoc(c, [], Arrival(first, Bare(m)));
    assert [] + [Arrival(first, Bare(m))] == [Arrival(first, Bare(m))];
    assert Passed(c, Tables([], [], []), first, Bare(m));
  }

  lemma SecondPasses(c: Limits, t: Tables, m: Message, first: int, second: int)
    requires t.nonces == [Seen(m.nonce, first)] && t.bucket == [first]
    requires Timely(c, second, m) && first < second - c.ttl
    requires 2 <= c.ratePerMinute || (1 <= c.ratePerMinute && first < second - 60)
    ensures Passed(c, t, second, Bare(m))
  {
    assert t.nonces[1..] == [] && t.bucket[..0] == [];
    assert Prune(t.nonces, second - c.ttl) == [];
    assert |Recent(t.bucket, second - 60)| == if first < second - 60 then 0 else 1;
  }

  /** A message timely at two moments passes at both when its nonce has expired in between and the
      rate has room. */
  lemma PassesTwice(c: Limits, m: Message, first: int, second: int)
    requires Timely(c, first, m) && Timely(c, second, m) && first <= second && first < second - c.ttl
    requires 2 <= c.ratePerMinute || (1 <= c.ratePerMinute && first < second - 60)
    ensures ClockAdvances(SentTwice(m, first, second))
    ensures Run(c, SentTwice(m, first, second)).1.messages == [Pass(m, first), Pass(m, second)]
  {
    FirstPasses(c, m, first);
    var init := [Arrival(first, Bare(m))];
    SecondPasses(c, Run(c, init).0, m, first, second);
    RunSnoc(c, init, Arrival(second, Bare(m)));
    assert init + [Arrival(second, Bare(m))] == SentTwice(m, first, second);
  }

  /** The time to live covers the window of timestamps accepted, or the window is empty, or the
      rate leaves no room for a second request within it. */
  predicate ReplayProof(c: Limits) {
    c.ttl >= 2 * c.maxSkew || c.maxSkew < 0 || c.ratePerMinute <= 0 || (c.ratePerMinute == 1 && 2 * c.maxSkew <= 60)
  }

  /** Otherwise a message can pass twice: once at each end of its window. */
  lemma ShortLivedNoncesReplay(c: Limits)
    requires !ReplayProof(c)
    ensures var arrivals := SentTwice(Message("n", At(0)), -c.maxSkew, c.maxSkew);
            ClockAdvances(arrivals) && !NoReplay(Run(c, arrivals).1)
  {
    var m := Message("n", At(0));
    PassesTwice(c, m, -c.maxSkew, c.maxSkew);
    var messages := Run(c, SentTwice(m, -c.maxSkew, c.maxSkew)).1.messages;
    assert messages[0].message == messages[1].message;
  }

  /** So over every run each message stamped with a time passes at most once exactly then. */
  lemma ReplayProtectionIff(c: Limits)
    ensures (forall arrivals :: ClockAdvances(arrivals) ==> NoReplay(Run(c, arrivals).1)) <==> ReplayProof(c)
  {
    if ReplayProof(c) {
      forall arrivals | ClockAdvances(arrivals)
        ensures NoReplay(Run(c, arrivals).1)
      {
        if c.ttl >= 2 * c.maxSkew || c.maxSkew < 0 {
          MessagesPassOnce(c, arrivals);
        } else {
          OneAMinutePassesOnce(c, arrivals);
        }
      }
    } else {
      ShortLivedNoncesReplay(c);
    }
  }

  /** A message whose timestamp is not a number is never too old: wherever any request is admitted
      it passes again once its nonce has expired. */
  lemma NotANumberReplays(c: Limits, nonce: string)
    requires 1 <= c.ratePerMinute
    ensures var m, later := Message(nonce, NotANumber), MaxInt(MaxInt(c.ttl, 60), 0) + 1;
            ClockAdvances(SentTwice(m, 0, later))
            && Run(c, SentTwice(m, 0, later)).1.messages == [Pass(m, 0), Pass(m, later)]
  {
    PassesTwice(c, Message(nonce, NotANumber), 0, MaxInt(MaxInt(c.ttl, 60), 0) + 1);
  }

  // ----- the program's handler -----

  class Handler {
    const limits: Limits
    var nonces: seq<Seen>
    var keys: seq<Seen>
    var bucket: seq<int>

    constructor (limits: Limits)
      ensures this.limits == limits && Memory() == Tables([], [], [])
    {
      this.limits := limits;
      nonces, keys, bucket := [], [], [];
    }

    function Memory(): Tables
      reads this
    {
      Tables(nonces, keys, bucket)
    }

    method ForgetExpired(now: int)
      modifies this
      ensures Memory() == Pruned(limits, old(Memory()), now)
    {
      var cutoff := now - limits.ttl;
      while nonces != [] && nonces[0].at < cutoff
        invariant Prune(nonces, cutoff) == Prune(old(nonces), cutoff)
        invariant keys == old(keys) && bucket == old(bucket)
        decreases |nonces|
      {
        nonces := nonces[1..];
      }
      while keys != [] && keys[0].at < cutoff
        invariant Prune(keys, cutoff) == Prune(old(keys), cutoff)
        invariant nonces == Prune(old(nonces), cutoff) && bucket == old(bucket)
        decreases |keys|
      {
        keys := keys[1..];
      }
      var kept: seq<int> := [];
      for i := 0 to |bucket|
        invariant kept == Recent(bucket[..i], now - 60)
      {
        assert bucket[..i + 1][..i] == bucket[..i];
        if bucket[i] >= now - 60 {
          kept := kept + [bucket[i]];
        }
      }
      assert bucket[..|bucket|] == bucket;
      bucket := kept;
    }

    /** One request: the tables move as specified, and the verdict tells admission, replay
        protection and idempotency apart. */
    method Handle(now: int, r: Request) returns (v: Verdict)
      modifies this
      ensures Memory() == Handled(limits, old(Memory()), now, r)
      ensures v.created <==> Creates(limits, old(Memory()), now, r)
      ensures v.accepted <==> Passed(limits, old(Memory()), now, r) && r.content.None?
      ensures v.reason == RATE_LIMIT <==> r.blocked.None? && !Admitted(limits, old(Memory()), now, r)
      ensures v.reason == REPLAY_DETECTED <==>
        Admitted(limits, old(Memory()), now, r) && r.unauthentic.None? && r.message.Some?
        && Timely(limits, now, r.message.value) && !Passed(limits, old(Memory()), now, r)
      ensures v.reason == IDEMPOTENT_REPLAY <==> v.accepted && !v.created
      ensures v.reason == INTENT_CREATED <==> v.created
    {
      ForgetExpired(now);
      if r.blocked.Some? {
        return Refuse(Gate(r.blocked.value));
      }
      if |bucket| >= limits.ratePerMinute {
        return Refuse(RATE_LIMIT);
      }
      bucket := bucket + [now];
      if r.unauthentic.Some? {
        return Refuse(Gate(r.unauthentic.value));
      }
      if r.message.None? {
        return Refuse(REPLAY_PROTECTION_REQUIRED);
      }
      var m := r.message.value;
      if m.stamp.Unreadable? {
        return Refuse(TIMESTAMP_INVALID);
      }
      if m.stamp.At? {
        var age := now - m.stamp.time;
        if (if age < 0 then -age else age) > limits.maxSkew {
          return Refuse(TIMESTAMP_SKEW);
        }
      }
      if Has(nonces, m.nonce) {
        return Refuse(REPLAY_DETECTED);
      }
      nonces := nonces + [Seen(m.nonce, now)];
      if r.content.Some? {
        return Refuse(Gate(r.content.value));
      }
      if Has(keys, r.key) {
        return Verdict(true, IDEMPOTENT_REPLAY, false);
      }
      keys := keys + [Seen(r.key, now)];
      v := Verdict(true, INTENT_CREATED, true);
    }
  }
}

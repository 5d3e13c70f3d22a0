/** Trailing stops: where the stop of a position should stand for a price, and the
    ratchet that keeps it from giving ground. */
module Trailing {
  import opened Prelude

  datatype TrailingMode = ATR | PERCENTAGE | FIXED_DISTANCE

  datatype TrailingRule = TrailingRule(
    mode: TrailingMode, atr: real, multiplier: real, percentage: real, distance: real, allowWiden: bool)

  /** Distance kept behind the price; absent while an ATR or a distance is not positive. */
  function Margin(r: TrailingRule, price: real): Option<real> {
    match r.mode
    case ATR => if r.atr <= 0.0 then None else Some(r.atr * r.multiplier)
    case PERCENTAGE => Some(price * r.percentage)
    case FIXED_DISTANCE => if r.distance <= 0.0 then None else Some(r.distance)
  }

  function Candidate(r: TrailingRule, long: bool, price: real): Option<real> {
    var m := Margin(r, price);
    if m.None? then None else Some(if long then price - m.value else price + m.value)
  }

  function Ratchet(long: bool, current: Option<real>, candidate: real, allowWiden: bool): real {
    if current.None? || allowWiden then candidate
    else if long then Max(current.value, candidate)
    else Min(current.value, candidate)
  }

  function Trailed(rules: map<string, TrailingRule>, symbol: string, long: bool, price: real, current: Option<real>)
    : Option<real>
  {
    if symbol !in rules then current
    else
      var c := Candidate(rules[symbol], long, price);
      if c.None? then current else Some(Ratchet(long, current, c.value, rules[symbol].allowWiden))
  }

  /** Whether `after` protects a position no worse than `before` did. */
  predicate NoWider(long: bool, before: Option<real>, after: Option<real>) {
    before.Some? ==> after.Some? && if long then before.value <= after.value else after.value <= before.value
  }

  /** A stop on the losing side of the price. */
  predicate Behind(long: bool, stop: Option<real>, price: real) {
    stop.Some? ==> if long then stop.value < price else price < stop.value
  }

  /** The rule trails at a positive distance, or not at all. */
  predicate TrailsBehind(rules: map<string, TrailingRule>, symbol: string, price: real) {
    symbol in rules && Margin(rules[symbol], price).Some? ==> Margin(rules[symbol], price).value > 0.0
  }

  /** The stop never widens where widening is off, and where it stood behind the price it stays
      behind it exactly when the rule's distance is positive. */
  lemma TrailedStop(rules: map<string, TrailingRule>, symbol: string, long: bool, price: real, current: Option<real>)
    ensures !(symbol in rules && rules[symbol].allowWiden)
            ==> NoWider(long, current, Trailed(rules, symbol, long, price, current))
    ensures Behind(long, current, price)
            ==> (Behind(long, Trailed(rules, symbol, long, price, current), price)
                 <==> TrailsBehind(rules, symbol, price))
  {
  }

  class TrailingStopEngine {
    var rules: map<string, TrailingRule>

    constructor ()
      ensures rules == map[]
    {
      rules := map[];
    }

    method Configure(symbol: string, rule: TrailingRule)
      modifies this
      ensures rules == old(rules)[symbol := rule]
    {
      rules := rules[symbol := rule];
    }

    method Update(symbol: string, long: bool, price: real, current: Option<real>) returns (stop: Option<real>)
      ensures stop == Trailed(rules, symbol, long, price, current)
    {
      if symbol !in rules {
        return current;
      }
      var rule := rules[symbol];
      var candidate: real;
      if rule.mode == ATR {
        if rule.atr <= 0.0 {
          return current;
        }
        candidate := if long then price - rule.atr * rule.multiplier else price + rule.atr * rule.multiplier;
      } else if rule.mode == PERCENTAGE {
        candidate := if long then price * (1.0 - rule.percentage) else price * (1.0 + rule.percentage);
      } else {
        if rule.distance <= 0.0 {
          return current;
        }
        candidate := if long then price - rule.distance else price + rule.distance;
      }
      if current.None? || rule.allowWiden {
        return Some(candidate);
      }
      stop := Some(if long then Max(current.value, candidate) else Min(current.value, candidate));
    }
  }
}

/** The compliance policy that a plan passes before the risk engine sees it. */
module Compliance {
  import opened Costs

  datatype Config = Config(
    enabled: bool, requirePaper: bool, blockedStrategies: set<string>, blockedAssets: set<AssetClass>,
    predictions: bool, futures: bool, maxTurnover: real)

  datatype Reason =
    | PAPER_MODE_REQUIRED | STRATEGY_BLOCKED | ASSET_CLASS_BLOCKED | PREDICTION_MARKETS_DISABLED | FUTURES_DISABLED
    | TURNOVER_LIMIT

  /** What is asked: `paper` is whether the settings are those of paper trading, `turnover` the value
      of the day's entries so far. */
  datatype Query = Query(paper: bool, strategy: string, asset: AssetClass, notional: real, turnover: real)

  predicate Blocks(c: Config, r: Reason, q: Query) {
    match r
    case PAPER_MODE_REQUIRED => c.requirePaper && !q.paper
    case STRATEGY_BLOCKED => q.strategy != "" && q.strategy in c.blockedStrategies
    case ASSET_CLASS_BLOCKED => q.asset in c.blockedAssets
    case PREDICTION_MARKETS_DISABLED => q.asset == PREDICTION && !c.predictions
    case FUTURES_DISABLED => q.asset == FUTURE && !c.futures
    case TURNOVER_LIMIT => q.turnover + q.notional > c.maxTurnover
  }

  /** A policy that is switched off lets everything through. */
  predicate Approves(c: Config, q: Query) {
    c.enabled ==> forall r: Reason :: !Blocks(c, r, q)
  }

  /** What an enabled policy lets through: paper trading where it is required, strategies and assets that
      are not barred, prediction contracts and futures where they are allowed, and entries within the
      day's limit. */
  lemma ApprovesIff(c: Config, q: Query)
    ensures Approves(c, q) <==>
      (c.enabled ==>
        && (c.requirePaper ==> q.paper)
        && (q.strategy == "" || q.strategy !in c.blockedStrategies) && q.asset !in c.blockedAssets
        && (q.asset == PREDICTION ==> c.predictions) && (q.asset == FUTURE ==> c.futures)
        && q.turnover + q.notional <= c.maxTurnover)
  {
    if Approves(c, q) && c.enabled {
      assert !Blocks(c, PAPER_MODE_REQUIRED, q) && !Blocks(c, STRATEGY_BLOCKED, q);
      assert !Blocks(c, ASSET_CLASS_BLOCKED, q);
      assert !Blocks(c, PREDICTION_MARKETS_DISABLED, q) && !Blocks(c, FUTURES_DISABLED, q);
      assert !Blocks(c, TURNOVER_LIMIT, q);
    }
  }

  class Policy {
    const config: Config

    constructor (config: Config)
      ensures this.config == config
    {
      this.config := config;
    }

    /** Approves exactly what nothing blocks, and lists exactly the reasons that block. */
    method Evaluate(q: Query) returns (approved: bool, reasons: set<Reason>)
      ensures approved <==> Approves(config, q)
      ensures forall r :: r in reasons <==> config.enabled && Blocks(config, r, q)
    {
      reasons := {};
      if config.requirePaper && !q.paper {
        reasons := reasons + {PAPER_MODE_REQUIRED};
      }
      if !config.enabled {
        return true, {};
      }
      if q.strategy != "" && q.strategy in config.blockedStrategies {
        reasons := reasons + {STRATEGY_BLOCKED};
      }
      if q.asset in config.blockedAssets {
        reasons := reasons + {ASSET_CLASS_BLOCKED};
      }
      if q.asset == PREDICTION && !config.predictions {
        reasons := reasons + {PREDICTION_MARKETS_DISABLED};
      }
      if q.asset == FUTURE && !config.futures {
        reasons := reasons + {FUTURES_DISABLED};
      }
      if q.turnover + q.notional > config.maxTurnover {
        reasons := reasons + {TURNOVER_LIMIT};
      }
      approved := reasons == {};
      if !approved {
        var r :| r in reasons;
        assert Blocks(config, r, q);
      }
    }
  }
}

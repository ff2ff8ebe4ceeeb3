/** The per-observation trading signal: first match over four RSI/Bollinger rules. */
module Signal {
  import opened Records

  /** Number of signal rules tested before falling through to flat. */
  const RuleCount: nat := 4

  /** Condition of rule `k` (0-based, in the order the rules are tested). */
  predicate RuleFires(k: nat, close: real, ind: IndicatorValues)
  {
    match k
    case 0 => ind.rsi < 25.0 && close < ind.bbLower
    case 1 => ind.rsi < 30.0 && close < (ind.bbMid + ind.bbLower) / 2.0
    case 2 => ind.rsi > 75.0 && close > ind.bbUpper
    case 3 => ind.rsi > 70.0 && close > (ind.bbMid + ind.bbUpper) / 2.0
    case _ => false
  }

  /** Signal produced by rule `k`: the first two go long, the next two go short. */
  function RuleSignal(k: nat): int
  {
    if k < 2 then 1 else -1
  }

  /** Reference reading of the rule table: the signal of the first rule at or
      after `k` that fires, or flat when none does. */
  function FirstMatch(k: nat, close: real, ind: IndicatorValues): int
    decreases RuleCount - k
  {
    if k >= RuleCount then 0
    else if RuleFires(k, close, ind) then RuleSignal(k)
    else FirstMatch(k + 1, close, ind)
  }

  /** `getSignal`: +1 long, -1 short, 0 flat. */
  function GetSignal(close: real, ind: IndicatorValues): (r: int)
    ensures r == -1 || r == 0 || r == 1
    // the RSI dependence: flat inside the neutral band, short only when
    // overbought, long only when oversold
    ensures 30.0 <= ind.rsi <= 70.0 ==> r == 0
    ensures ind.rsi <= 70.0 ==> r != -1
    ensures ind.rsi >= 30.0 ==> r != 1
  {
    var rsi := ind.rsi;
    var bbUpper := ind.bbUpper;
    var bbLower := ind.bbLower;
    var bbMid := ind.bbMid;
    if rsi < 25.0 && close < bbLower then 1
    else if rsi < 30.0 && close < (bbMid + bbLower) / 2.0 then 1
    else if rsi > 75.0 && close > bbUpper then -1
    else if rsi > 70.0 && close > (bbMid + bbUpper) / 2.0 then -1
    else 0
  }

  /** GetSignal agrees with the reference first-match reading of the rule
      table: the first rule that fires decides, and none firing means flat. */
  lemma GetSignalIsFirstMatch(close: real, ind: IndicatorValues)
    ensures GetSignal(close, ind) == FirstMatch(0, close, ind)
    ensures forall k :: 0 <= k < RuleCount && RuleFires(k, close, ind) ==>
              (forall j :: 0 <= j < k ==> !RuleFires(j, close, ind)) ==>
                GetSignal(close, ind) == RuleSignal(k)
    ensures (forall k :: 0 <= k < RuleCount ==> !RuleFires(k, close, ind)) ==>
              GetSignal(close, ind) == 0
  {
    assert FirstMatch(4, close, ind) == 0;
    assert RuleFires(0, close, ind) || RuleFires(1, close, ind) ||
           RuleFires(2, close, ind) || RuleFires(3, close, ind) || GetSignal(close, ind) == 0;
  }

  /** With ordered bands, rule 1 is contained in rule 2 and rule 3 in rule 4,
      so the two long rules (and the two short rules) can never disagree. */
  lemma EarlierRuleSubsumed(close: real, ind: IndicatorValues)
    requires ind.bbLower <= ind.bbMid <= ind.bbUpper
    ensures RuleFires(0, close, ind) ==> RuleFires(1, close, ind)
    ensures RuleFires(2, close, ind) ==> RuleFires(3, close, ind)
    ensures GetSignal(close, ind) == 1 <==> RuleFires(1, close, ind)
    ensures GetSignal(close, ind) == -1 <==> !RuleFires(1, close, ind) && RuleFires(3, close, ind)
  {
  }
}

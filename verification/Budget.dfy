/** The spend of one agent step against its limits. */
module Budget {
  import opened Wrappers

  /** A limit of 0 (or none given) means no limit. */
  datatype Spec = Spec(tokens: nat, usd: real)

  datatype Reason = Tokens | Usd

  function Exhausted(spec: Spec, tokens: nat, usd: real): Option<Reason> {
    if spec.tokens != 0 && tokens >= spec.tokens then Some(Tokens)
    else if spec.usd != 0.0 && usd >= spec.usd then Some(Usd)
    else None
  }

  class BudgetTracker {
    const spec: Spec
    var tokens: nat
    var usd: real

    constructor (spec: Spec)
      ensures this.spec == spec && tokens == 0 && usd == 0.0
    {
      this.spec, tokens, usd := spec, 0, 0.0;
    }

    method Add(totalTokens: nat, usdEstimate: real)
      modifies this
      ensures tokens == old(tokens) + totalTokens && usd == old(usd) + usdEstimate
    {
      tokens := tokens + totalTokens;
      usd := usd + usdEstimate;
    }

    /** Tokens are reported before dollars; a limit is reached, not only passed, when spending stops. */
    method CheckExhausted() returns (r: Option<Reason>)
      ensures r == Exhausted(spec, tokens, usd)
      ensures r == Some(Tokens) <==> spec.tokens > 0 && tokens >= spec.tokens
      ensures r.None? <==> (spec.tokens == 0 || tokens < spec.tokens) && (spec.usd == 0.0 || usd < spec.usd)
    {
      if spec.tokens != 0 && tokens >= spec.tokens {
        return Some(Tokens);
      }
      if spec.usd != 0.0 && usd >= spec.usd {
        return Some(Usd);
      }
      return None;
    }
  }
}

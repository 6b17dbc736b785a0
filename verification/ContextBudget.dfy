/** Request budgets, the usage projection, and the trigger for proactive compaction. */
module ContextBudget {
  import opened Prelude

  datatype Strategy = Off | SummarizeOnDiscard | ElideThenSummarize

  type U8 = n: nat | n < 0x100

  datatype Compaction = Compaction(
    strategy: Strategy, triggerRatio: U8, retainRatio: U8,
    promptIsBlank: bool,           // summary_prompt_id is empty or white space
    maxSummarySourceBytes: U64)

  datatype Policy = Policy(
    maxRequestBytes: U64, maxInputBytes: U64, reservedOutputBytes: U64, contextCapBytes: U64,
    maxToolRounds: Option<nat>, providerTimeoutMs: U64, compaction: Compaction, bytesPerToken: U64)

  datatype Usage = Usage(
    budget: U64, used: U64, remaining: U64, contextCap: U64,
    usedTokens: U64, budgetTokens: U64, remainingTokens: U64,
    discarded: U64, strategy: Strategy, triggerRatio: U8, due: bool)

  datatype Complaint =
    | Budgets | Timeout | ToolRounds | BytesPerToken | TriggerRatio | RetainRatio | SummarySource | SummaryPrompt

  function Validate(p: Policy): Result<(), Complaint> {
    if p.maxRequestBytes == 0 || p.maxInputBytes == 0 || p.reservedOutputBytes >= p.maxInputBytes
       || p.contextCapBytes == 0 then Err(Budgets)
    else if p.providerTimeoutMs == 0 then Err(Timeout)
    else if p.maxToolRounds == Some(0) then Err(ToolRounds)
    else if p.bytesPerToken == 0 then Err(BytesPerToken)
    else if p.compaction.strategy == Off then Ok(())
    else if p.compaction.triggerRatio == 0 || p.compaction.triggerRatio > 100 then Err(TriggerRatio)
    else if p.compaction.retainRatio == 0 || p.compaction.retainRatio > 80 then Err(RetainRatio)
    else if p.compaction.maxSummarySourceBytes == 0 then Err(SummarySource)
    else if p.compaction.promptIsBlank then Err(SummaryPrompt)
    else Ok(())
  }

  function SaturatingSub(a: U64, b: U64): U64 {
    if a < b then 0 else a - b
  }

  function RequestBudget(p: Policy): U64 {
    Min(p.maxRequestBytes, SaturatingSub(p.maxInputBytes, p.reservedOutputBytes))
  }

  // `div_ceil`
  function Tokens(bytes: U64, bytesPerToken: U64): (n: U64)
    requires bytesPerToken > 0
    ensures bytes <= n * bytesPerToken < bytes + bytesPerToken
  {
    var whole := bytes / bytesPerToken;
    assert whole * bytesPerToken + bytes % bytesPerToken == bytes;
    if bytes % bytesPerToken == 0 then whole
    else
      RoundingUpFits(bytes, bytesPerToken);
      whole + 1
  }

  lemma RoundingUpFits(bytes: U64, b: U64)
    requires b > 0 && bytes % b != 0
    ensures bytes / b + 1 < U64_LIMIT
    ensures bytes <= (bytes / b + 1) * b < bytes + b
  {
    assert (bytes / b + 1) * b == (bytes / b) * b + b;
    assert b > 1;
    Scale(2, b, bytes / b);
    assert (bytes / b) * 2 <= bytes;
  }

  lemma Scale(x: int, y: int, k: nat)
    requires x <= y
    ensures x * k <= y * k && k * x <= k * y
  {}

  // A 64-bit product; a release build wraps.
  function Product(a: U64, b: U64): U64 {
    (a * b) % U64_LIMIT
  }

  function Due(p: Policy, used: U64): bool
    requires p.bytesPerToken > 0
  {
    && p.compaction.strategy != Off && p.compaction.triggerRatio > 0
    && Product(Tokens(used, p.bytesPerToken), 100)
       >= Product(Tokens(RequestBudget(p), p.bytesPerToken), p.compaction.triggerRatio)
  }

  function UsageOf(p: Policy, used: U64, discarded: U64): Usage
    requires p.bytesPerToken > 0
  {
    var budget := RequestBudget(p);
    var remaining := SaturatingSub(budget, used);
    Usage(budget, used, remaining, p.contextCapBytes,
          Tokens(used, p.bytesPerToken), Tokens(budget, p.bytesPerToken), Tokens(remaining, p.bytesPerToken),
          discarded, p.compaction.strategy, p.compaction.triggerRatio, Due(p, used))
  }

  // ---------- the books balance ----------

  lemma SplitTokens(x: U64, y: U64, b: U64)
    requires b > 0 && x + y < U64_LIMIT
    ensures Tokens(x, b) + Tokens(y, b) ==
            Tokens(x + y, b) + if x % b != 0 && y % b != 0 && x % b + y % b <= b then 1 else 0
  {
    var r, s := x % b, y % b;
    var q := x / b + y / b;
    assert x + y == q * b + (r + s) by {
      assert x == (x / b) * b + r && y == (y / b) * b + s;
      assert (x / b) * b + (y / b) * b == q * b;
    }
    var t := Tokens(x + y, b);
    if r + s == 0 {
      Quotient(t, q, b, x + y);
    } else if r + s <= b {
      assert (q + 1) * b == q * b + b;
      Quotient(t, q + 1, b, x + y);
    } else {
      assert (q + 2) * b == q * b + 2 * b;
      Quotient(t, q + 2, b, x + y);
    }
  }

  // The only multiple count in a window as wide as one token.
  lemma Quotient(t: int, u: int, b: nat, x: int)
    requires b > 0 && x <= t * b < x + b && x <= u * b < x + b
    ensures t == u
  {
    if t < u {
      Scale(t + 1, u, b);
    } else if u < t {
      Scale(u + 1, t, b);
    }
  }

  /** A policy is valid exactly when its budgets leave room for a request and its limits are
      positive, and an active compaction is triggered and retains within bounds. */
  lemma ValidExactlyWhen(p: Policy)
    ensures Validate(p).Ok? <==>
              && p.maxRequestBytes > 0 && p.maxInputBytes > p.reservedOutputBytes && p.contextCapBytes > 0
              && p.providerTimeoutMs > 0 && p.bytesPerToken > 0 && p.maxToolRounds != Some(0)
              && (p.compaction.strategy != Off ==>
                    && 1 <= p.compaction.triggerRatio <= 100 && 1 <= p.compaction.retainRatio <= 80
                    && p.compaction.maxSummarySourceBytes > 0 && !p.compaction.promptIsBlank)
  {}

  /** A complaint names something that is wrong. */
  lemma ComplaintHasItsCause(p: Policy)
    requires Validate(p).Err?
    ensures match Validate(p).error
            case Budgets =>
              || p.maxRequestBytes == 0 || p.maxInputBytes <= p.reservedOutputBytes || p.contextCapBytes == 0
            case Timeout => p.providerTimeoutMs == 0
            case ToolRounds => p.maxToolRounds == Some(0)
            case BytesPerToken => p.bytesPerToken == 0
            case TriggerRatio => p.compaction.strategy != Off && !(1 <= p.compaction.triggerRatio <= 100)
            case RetainRatio => p.compaction.strategy != Off && !(1 <= p.compaction.retainRatio <= 80)
            case SummarySource => p.compaction.strategy != Off && p.compaction.maxSummarySourceBytes == 0
            case SummaryPrompt => p.compaction.strategy != Off && p.compaction.promptIsBlank
  {}

  /** The budget of a valid policy is the greatest size that a request may have and that
      leaves the reserved output its room in the input. */
  lemma BudgetIsTheGreatest(p: Policy, size: U64)
    requires Validate(p).Ok?
    ensures size <= RequestBudget(p) <==>
              size <= p.maxRequestBytes && size + p.reservedOutputBytes <= p.maxInputBytes
  {}

  /**
   A validated policy has a positive budget. What is used and what remains add up to the
   budget, or to what is used when that is more; in tokens to the estimate of the budget,
   or one more exactly when both parts end in a partial token and one would hold the two.
   */
  lemma UsageBalances(p: Policy, used: U64, discarded: U64)
    requires Validate(p).Ok?
    ensures p.bytesPerToken > 0
    ensures var u := UsageOf(p, used, discarded);
            var b := p.bytesPerToken;
            && u.budget > 0
            && u.used + u.remaining == Max(used, u.budget)
            && (used <= u.budget ==>
                  u.usedTokens + u.remainingTokens == u.budgetTokens +
                    if used % b != 0 && u.remaining % b != 0 && used % b + u.remaining % b <= b then 1 else 0)
            && (used > u.budget ==> u.remainingTokens == 0 && u.usedTokens >= u.budgetTokens)
            && u.contextCap == p.contextCapBytes && u.discarded == discarded && u.strategy == p.compaction.strategy
            && (u.due <==> Due(p, used)) && (p.compaction.strategy != Off ==> 1 <= u.triggerRatio <= 100)
  {
    var budget := RequestBudget(p);
    if used <= budget {
      SplitTokens(used, budget - used, p.bytesPerToken);
    } else {
      TokensGrow(budget, used, p.bytesPerToken);
      Quotient(Tokens(0, p.bytesPerToken), 0, p.bytesPerToken, 0);
    }
  }

  lemma TokensGrow(x: U64, y: U64, b: U64)
    requires b > 0 && x <= y
    ensures Tokens(x, b) <= Tokens(y, b)
  {
    if Tokens(y, b) < Tokens(x, b) {
      Scale(Tokens(y, b) + 1, Tokens(x, b), b);
    }
  }

  // ---------- the trigger ----------

  predicate Active(p: Policy) {
    p.compaction.strategy != Off
  }

  // The comparison the trigger is meant to make.
  predicate RatioReached(p: Policy, used: U64)
    requires p.bytesPerToken > 0
  {
    Tokens(used, p.bytesPerToken) * 100 >= Tokens(RequestBudget(p), p.bytesPerToken) * p.compaction.triggerRatio
  }

  // Neither product leaves 64 bits.
  predicate Small(p: Policy, used: U64)
    requires p.bytesPerToken > 0
  {
    && Tokens(used, p.bytesPerToken) * 100 < U64_LIMIT
    && Tokens(RequestBudget(p), p.bytesPerToken) * p.compaction.triggerRatio < U64_LIMIT
  }

  // Without wrapping the comparison is the one meant.
  lemma DueWhenSmall(p: Policy, used: U64)
    requires p.bytesPerToken > 0 && Small(p, used)
    ensures Due(p, used) <==> Active(p) && p.compaction.triggerRatio > 0 && RatioReached(p, used)
  {
    Fits(Tokens(used, p.bytesPerToken), 100);
    Fits(Tokens(RequestBudget(p), p.bytesPerToken), p.compaction.triggerRatio);
  }

  lemma Fits(a: U64, b: U64)
    requires a * b < U64_LIMIT
    ensures Product(a, b) == a * b
  {
    NotNegative(a, b);
    SmallRemainder(a * b);
  }

  lemma NotNegative(x: nat, y: nat)
    ensures 0 <= x * y
  {}

  lemma SmallRemainder(x: nat)
    requires x < U64_LIMIT
    ensures x % U64_LIMIT == x
  {}

  /** More use never disarms the trigger, however large the budget. */
  lemma TriggerIsMonotone(p: Policy, used: U64, more: U64)
    requires Validate(p).Ok? && used <= more && Tokens(more, p.bytesPerToken) * 100 < U64_LIMIT
    ensures Due(p, used) ==> Due(p, more)
  {
    TokensGrow(used, more, p.bytesPerToken);
    Fits(Tokens(used, p.bytesPerToken), 100);
    Fits(Tokens(more, p.bytesPerToken), 100);
  }

  /** The trigger is within one token of the byte ratio, both ways. */
  lemma TriggerTracksTheRatio(p: Policy, used: U64)
    requires Validate(p).Ok? && Active(p) && Small(p, used)
    ensures var budget, b, ratio := RequestBudget(p), p.bytesPerToken, p.compaction.triggerRatio;
            && (Due(p, used) ==> 100 * (used + b - 1) >= ratio * budget)
            && (100 * used >= ratio * (budget + b - 1) ==> Due(p, used))
  {
    var budget, b, ratio := RequestBudget(p), p.bytesPerToken, p.compaction.triggerRatio;
    DueWhenSmall(p, used);
    if RatioReached(p, used) {
      ReachedInBytes(used, budget, b, ratio, Tokens(used, b), Tokens(budget, b));
    } else {
      MissedInBytes(used, budget, b, ratio, Tokens(used, b), Tokens(budget, b));
    }
  }

  lemma ReachedInBytes(used: nat, budget: nat, b: nat, ratio: nat, u: nat, v: nat)
    requires u * b < used + b && budget <= v * b && u * 100 >= v * ratio
    ensures 100 * (used + b - 1) >= ratio * budget
  {
    Scale(budget, v * b, ratio);
    Regroup(v, ratio, b);
    Scale(v * ratio, u * 100, b);
    Regroup(u, 100, b);
  }

  lemma MissedInBytes(used: nat, budget: nat, b: nat, ratio: nat, u: nat, v: nat)
    requires b > 0 && used <= u * b && v * b < budget + b && u * 100 < v * ratio
    ensures 100 * used < ratio * (budget + b - 1)
  {
    Scale(v * b, budget + b - 1, ratio);
    Regroup(v, ratio, b);
    Scale(u * 100 + 1, v * ratio, b);
    Regroup(u, 100, b);
    assert (u * 100 + 1) * b == (u * 100) * b + b;
  }

  lemma Regroup(x: int, k: int, b: int)
    ensures k * (x * b) == (x * k) * b
  {}

  // The largest multiple of 100 below the 64-bit limit.
  const LAST_HUNDRED: int := U64_LIMIT - 16

  // Every use whose own product fits is compared as meant.
  ghost predicate TriggerSound(p: Policy)
    requires p.bytesPerToken > 0
  {
    forall used: U64 :: Tokens(used, p.bytesPerToken) * 100 < U64_LIMIT ==> (Due(p, used) <==> RatioReached(p, used))
  }

  /**
   Nothing bounds the budget a policy may ask for. The trigger compares as meant exactly
   when the budget's own product fits 64 bits, or wraps onto one of the last fifteen
   values, which no use reaches.
   */
  lemma TriggerSoundExactlyWhen(p: Policy)
    requires Validate(p).Ok? && Active(p)
    ensures TriggerSound(p) <==>
              var product: nat := Tokens(RequestBudget(p), p.bytesPerToken) * p.compaction.triggerRatio;
              product < U64_LIMIT || product % U64_LIMIT > LAST_HUNDRED
  {
    var product: nat := Tokens(RequestBudget(p), p.bytesPerToken) * p.compaction.triggerRatio;
    if product < U64_LIMIT {
      forall used: U64 | Tokens(used, p.bytesPerToken) * 100 < U64_LIMIT
        ensures Due(p, used) <==> RatioReached(p, used)
      {
        DueWhenSmall(p, used);
      }
    } else if product % U64_LIMIT > LAST_HUNDRED {
      forall used: U64 | Tokens(used, p.bytesPerToken) * 100 < U64_LIMIT
        ensures Due(p, used) <==> RatioReached(p, used)
      {
        DueWhenWrapped(p, used);
      }
    } else {
      var used := Fullest(p);
      DueWhenWrapped(p, used);
      assert !(Due(p, used) <==> RatioReached(p, used));
    }
  }

  // With the budget's product wrapped, the ratio is out of reach and the code compares
  // against the remainder.
  lemma DueWhenWrapped(p: Policy, used: U64)
    requires Validate(p).Ok? && Active(p)
    requires Tokens(used, p.bytesPerToken) * 100 < U64_LIMIT
    requires Tokens(RequestBudget(p), p.bytesPerToken) * p.compaction.triggerRatio >= U64_LIMIT
    ensures !RatioReached(p, used)
    ensures Tokens(used, p.bytesPerToken) * 100 <= LAST_HUNDRED
    ensures Due(p, used) <==>
              Tokens(used, p.bytesPerToken) * 100 >=
              (Tokens(RequestBudget(p), p.bytesPerToken) * p.compaction.triggerRatio) % U64_LIMIT
  {
    Fits(Tokens(used, p.bytesPerToken), 100);
  }

  // A use whose estimate is the most that can be multiplied.
  lemma Fullest(p: Policy) returns (used: U64)
    requires Validate(p).Ok? && Active(p)
    requires Tokens(RequestBudget(p), p.bytesPerToken) * p.compaction.triggerRatio >= U64_LIMIT
    ensures Tokens(used, p.bytesPerToken) * 100 == LAST_HUNDRED
  {
    var n: nat := LAST_HUNDRED / 100;
    FullestFits(Tokens(RequestBudget(p), p.bytesPerToken), p.compaction.triggerRatio, n);
    used := WholeTokens(RequestBudget(p), p.bytesPerToken, n);
  }

  // A budget whose product wraps is of more tokens than can be multiplied by 100.
  lemma FullestFits(v: nat, ratio: nat, n: nat)
    requires v * ratio >= U64_LIMIT && ratio <= 100 && n * 100 < U64_LIMIT
    ensures n < v
  {
    Scale(ratio, 100, v);
  }

  // Any number of whole tokens below a budget's estimate is a use.
  lemma WholeTokens(budget: U64, b: U64, n: nat) returns (used: U64)
    requires b > 0 && n < Tokens(budget, b)
    ensures Tokens(used, b) == n
  {
    var v: int := Tokens(budget, b);
    Scale(n, v - 1, b);
    assert (v - 1) * b == v * b - b;
    NotNegative(n, b);
    used := n * b;
    Quotient(Tokens(used, b), n, b, used);
  }

  // ---------- every use a 64-bit count can name ----------

  function MostTokens(p: Policy): U64
    requires p.bytesPerToken > 0
  {
    Tokens(U64_LIMIT - 1, p.bytesPerToken)
  }

  ghost predicate TriggerSoundForAll(p: Policy)
    requires p.bytesPerToken > 0
  {
    forall used: U64 :: Due(p, used) <==> RatioReached(p, used)
  }

  // The least a product of 100 leaves when it wraps for the k-th time.
  function LeastLeft(k: nat): nat {
    (84 * k) % 100
  }

  // A budget's product no larger than what any use's product may wrap to.
  ghost predicate BelowEveryWrap(product: nat, most: nat) {
    forall k: nat :: 1 <= k && k * U64_LIMIT <= most * 100 ==> product <= LeastLeft(k)
  }

  // Every number of tokens up to the most is some use's estimate.
  lemma TokensReach(p: Policy, n: nat) returns (used: U64)
    requires p.bytesPerToken > 0 && n <= MostTokens(p)
    ensures Tokens(used, p.bytesPerToken) == n
  {
    if n == MostTokens(p) {
      used := U64_LIMIT - 1;
    } else {
      used := WholeTokens(U64_LIMIT - 1, p.bytesPerToken, n);
    }
  }

  lemma WrappedIs(x: nat, k: nat)
    requires k * U64_LIMIT <= x < k * U64_LIMIT + U64_LIMIT
    ensures x % U64_LIMIT == x - k * U64_LIMIT
  {}

  lemma HundredsDropOut(m: int, y: int)
    ensures (100 * m + y) % 100 == y % 100
  {}

  lemma RemainderIsNoMore(x: nat)
    ensures x % 100 <= x
  {}

  // What a product of 100 leaves is, up to hundreds, what its wraps take away.
  lemma LeftOver(n: nat, k: nat)
    requires k * U64_LIMIT <= n * 100
    ensures (n * 100 - k * U64_LIMIT) % 100 == LeastLeft(k)
    ensures LeastLeft(k) <= n * 100 - k * U64_LIMIT
  {
    var m: int := n - k * 184467440737095517;
    HundredsDropOut(m, 84 * k);
    assert 100 * m + 84 * k == n * 100 - k * U64_LIMIT;
    RemainderIsNoMore(n * 100 - k * U64_LIMIT);
  }

  // The first multiple of 100 behind the k-th wrap leaves the least.
  lemma FirstBehindWrap(k: nat, most: nat) returns (n: nat)
    requires k * U64_LIMIT <= most * 100
    ensures n <= most && k * U64_LIMIT <= n * 100 && n * 100 - k * U64_LIMIT == LeastLeft(k) < 100
  {
    n := (k * U64_LIMIT + 99) / 100;
    LeftOver(n, k);
  }

  // A use that wraps is judged right if the budget's product is below what it leaves.
  lemma WrappingUse(p: Policy, used: U64, k: nat)
    requires Validate(p).Ok? && Active(p)
    requires Tokens(RequestBudget(p), p.bytesPerToken) * p.compaction.triggerRatio < U64_LIMIT
    requires 1 <= k
    requires var x := Tokens(used, p.bytesPerToken) * 100; k * U64_LIMIT <= x < k * U64_LIMIT + U64_LIMIT
    ensures RatioReached(p, used)
    ensures Due(p, used) <==>
              Tokens(RequestBudget(p), p.bytesPerToken) * p.compaction.triggerRatio <=
              Tokens(used, p.bytesPerToken) * 100 - k * U64_LIMIT
  {
    WrappedIs(Tokens(used, p.bytesPerToken) * 100, k);
    Fits(Tokens(RequestBudget(p), p.bytesPerToken), p.compaction.triggerRatio);
  }

  lemma SmallBudgetSound(p: Policy)
    requires Validate(p).Ok? && Active(p)
    requires Tokens(RequestBudget(p), p.bytesPerToken) * p.compaction.triggerRatio < U64_LIMIT
    requires BelowEveryWrap(Tokens(RequestBudget(p), p.bytesPerToken) * p.compaction.triggerRatio, MostTokens(p))
    ensures TriggerSoundForAll(p)
  {
    forall used: U64 ensures Due(p, used) <==> RatioReached(p, used) {
      var n: nat := Tokens(used, p.bytesPerToken);
      TokensGrow(used, U64_LIMIT - 1, p.bytesPerToken);
      if n * 100 < U64_LIMIT {
        DueWhenSmall(p, used);
      } else {
        var k: nat := n * 100 / U64_LIMIT;
        LeftOver(n, k);
        WrappingUse(p, used, k);
      }
    }
  }

  lemma SoundIsSmall(p: Policy, k: nat)
    requires Validate(p).Ok? && Active(p) && TriggerSoundForAll(p)
    requires Tokens(RequestBudget(p), p.bytesPerToken) * p.compaction.triggerRatio < U64_LIMIT
    requires 1 <= k && k * U64_LIMIT <= MostTokens(p) * 100
    ensures Tokens(RequestBudget(p), p.bytesPerToken) * p.compaction.triggerRatio <= LeastLeft(k)
  {
    var n := FirstBehindWrap(k, MostTokens(p));
    var used := TokensReach(p, n);
    WrappingUse(p, used, k);
    assert Due(p, used);
  }

  // The most tokens leave nothing in the last fifteen values.
  lemma MostLeavesLittle(p: Policy)
    requires p.bytesPerToken > 0
    ensures MostTokens(p) * 100 < U64_LIMIT || (MostTokens(p) * 100) % U64_LIMIT <= LAST_HUNDRED
  {
    var b: nat, most: nat := p.bytesPerToken, MostTokens(p);
    if b > 100 {
      FewTokens(b, most);
    } else if most * 100 >= U64_LIMIT {
      var q: nat, left: nat := most * 100 / U64_LIMIT, most * 100 % U64_LIMIT;
      LateWrap(b, most, q, U64_LIMIT - left);
    }
  }

  lemma FewTokens(b: nat, most: nat)
    requires b > 100 && U64_LIMIT - 1 <= most * b < U64_LIMIT - 1 + b
    ensures most * 100 < U64_LIMIT
  {
    if most > 0 {
      assert (most - 1) * b == most * b - b;
      Scale(101, b, most - 1);
    }
  }

  // Were `short` at most fifteen, b * short would be 100 and b would divide 2^64 - 1.
  lemma LateWrap(b: nat, most: nat, q: nat, short: nat)
    requires 1 <= b <= 100 && U64_LIMIT - 1 <= most * b < U64_LIMIT - 1 + b
    requires most * 100 == q * U64_LIMIT + U64_LIMIT - short && 1 <= short
    ensures short >= 16
  {
    var over: int := most * b - (U64_LIMIT - 1);
    var x: int := b * (q + 1) - 100;
    var y: int := b * short;
    assert x * U64_LIMIT == y - 100 + 100 * over by {
      assert (most * 100) * b == (most * b) * 100 by { Regroup(most, 100, b); }
      assert (most * 100) * b == (q * U64_LIMIT + U64_LIMIT - short) * b;
      Expand(b, q, short);
    }
    if short < 16 {
      Scale(short, 15, b);
      NotNegative(b, short);
      assert x == 0;
      NoDivisor(b, short, over, most);
    }
  }

  lemma Expand(b: int, q: int, short: int)
    ensures (q * U64_LIMIT + U64_LIMIT - short) * b == (b * (q + 1)) * U64_LIMIT - b * short
  {}

  lemma NoDivisor(b: nat, short: nat, over: int, most: nat)
    requires 1 <= short < 16 && 1 <= b <= 100 && over >= 0 && over == most * b - (U64_LIMIT - 1)
    ensures b * short != 100 - 100 * over
  {
    NotNegative(b, short);
  }

  // A budget whose own product wraps is misjudged for some use, even where every use whose
  // product fits is compared as meant.
  lemma WrappedBudgetUnsound(p: Policy)
    requires Validate(p).Ok? && Active(p)
    requires Tokens(RequestBudget(p), p.bytesPerToken) * p.compaction.triggerRatio >= U64_LIMIT
    ensures !TriggerSoundForAll(p)
  {
    TriggerSoundExactlyWhen(p);
    var product: nat := Tokens(RequestBudget(p), p.bytesPerToken) * p.compaction.triggerRatio;
    if product % U64_LIMIT > LAST_HUNDRED {
      var n := Misjudged(p, product, product / U64_LIMIT);
      var used := TokensReach(p, n);
      assert RatioReached(p, used) && !Due(p, used);
    }
  }

  // The first estimate at the ratio, or the next, wraps once more than the budget did.
  lemma Misjudged(p: Policy, product: nat, q: nat) returns (n: nat)
    requires Validate(p).Ok? && Active(p)
    requires product == Tokens(RequestBudget(p), p.bytesPerToken) * p.compaction.triggerRatio
    requires q >= 1 && q * U64_LIMIT + LAST_HUNDRED < product < q * U64_LIMIT + U64_LIMIT
    ensures n <= MostTokens(p) && product <= n * 100 && (n * 100) % U64_LIMIT < 100
  {
    var v: nat := Tokens(RequestBudget(p), p.bytesPerToken);
    Scale(p.compaction.triggerRatio, 100, v);
    TokensGrow(RequestBudget(p), U64_LIMIT - 1, p.bytesPerToken);
    MostLeavesLittle(p);
    n := (product + 99) / 100;
    if n * 100 < q * U64_LIMIT + U64_LIMIT {
      if n == MostTokens(p) {
        WrappedIs(n * 100, q);
      }
      n := n + 1;
    }
    WrappedIs(n * 100, q + 1);
  }

  /**
   For every use at all: the trigger compares as meant exactly when the budget's product
   fits 64 bits and is no more than any use's product can wrap to. Where tokens are of more
   than a hundred bytes no use wraps, and only the first part is left.
   */
  lemma TriggerSoundForAllExactlyWhen(p: Policy)
    requires Validate(p).Ok? && Active(p)
    ensures TriggerSoundForAll(p) <==>
              var product: nat := Tokens(RequestBudget(p), p.bytesPerToken) * p.compaction.triggerRatio;
              product < U64_LIMIT && BelowEveryWrap(product, MostTokens(p))
    ensures p.bytesPerToken > 100 ==> MostTokens(p) * 100 < U64_LIMIT
  {
    var product: nat := Tokens(RequestBudget(p), p.bytesPerToken) * p.compaction.triggerRatio;
    if p.bytesPerToken > 100 {
      FewTokens(p.bytesPerToken, MostTokens(p));
    }
    if product >= U64_LIMIT {
      WrappedBudgetUnsound(p);
    } else if BelowEveryWrap(product, MostTokens(p)) {
      SmallBudgetSound(p);
    } else if TriggerSoundForAll(p) {
      forall k: nat | 1 <= k && k * U64_LIMIT <= MostTokens(p) * 100 ensures product <= LeastLeft(k) {
        SoundIsSmall(p, k);
      }
    }
  }

  /** A policy that passes validation and whose trigger is armed by an empty window. */
  lemma HugeBudgetMisfires()
    ensures var p := Policy(0x8000_0000_0000_0000, 0x8000_0000_0000_0001, 1, 1, None, 1,
                            Compaction(SummarizeOnDiscard, 2, 20, false, 1), 1);
            Validate(p).Ok? && Due(p, 0) && !RatioReached(p, 0)
  {
    assert Tokens(0, 1) == 0 && Tokens(0x8000_0000_0000_0000, 1) == 0x8000_0000_0000_0000;
  }
}

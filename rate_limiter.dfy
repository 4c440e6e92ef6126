/** The application's rate-limiter configuration and its token estimate
    (convex/rateLimiter.ts). The limiter engine itself is not part of this model: a
    `limit` or `check` call is described only by its arguments (`LimiterCall`), and whether
    it succeeds is left to the caller of the model. */
module RateLimiter {
  import opened Wrappers
  import Users

  /** Durations in milliseconds. */
  const SECOND: nat := 1000
  const MINUTE: nat := 60 * SECOND

  datatype Kind = FixedWindow | TokenBucket

  /** `rate` units are granted per `period` milliseconds, up to `capacity` in store. */
  datatype LimiterConfig = LimiterConfig(kind: Kind, period: nat, rate: nat, capacity: nat)

  /** The four limiters the application registers. */
  datatype LimiterName = SendMessage | GlobalSendMessage | TokenUsage | GlobalTokenUsage {
    /** Limiters keyed on the calling user; the others share one global counter. */
    predicate IsPerUser() {
      this == SendMessage || this == TokenUsage
    }

    /** Limiters that count prompts; the others count tokens. */
    predicate CountsPrompts() {
      this == SendMessage || this == GlobalSendMessage
    }
  }

  /** The configuration registered for each limiter. */
  function Config(name: LimiterName): (c: LimiterConfig)
    ensures 0 < c.rate <= c.capacity && c.period > 0
    ensures c.kind == FixedWindow <==> name == SendMessage
    ensures c.kind == FixedWindow ==> c.rate == c.capacity
    ensures name == SendMessage ==> c.rate == 1 && c.capacity == 1 && c.period == 5 * SECOND
    ensures !name.IsPerUser() ==> c.kind == TokenBucket && c.period == MINUTE
    ensures name.CountsPrompts() ==> c.capacity <= 15
    ensures !name.CountsPrompts() ==> c.capacity >= 10000
  {
    match name
    case SendMessage => LimiterConfig(FixedWindow, 5 * SECOND, 1, 1)
    case GlobalSendMessage => LimiterConfig(TokenBucket, MINUTE, 11, 15)
    case TokenUsage => LimiterConfig(TokenBucket, MINUTE, 2000, 10000)
    case GlobalTokenUsage => LimiterConfig(TokenBucket, MINUTE, 187500, 250000)
  }

  /** The per-user token budget is below the global one in both rate and capacity, whereas a
      single user sending at the per-user limit (12 prompts a minute) outpaces the global
      send refill (11 a minute). */
  lemma PerUserAgainstGlobal()
    ensures Config(TokenUsage).rate <= Config(GlobalTokenUsage).rate
    ensures Config(TokenUsage).capacity <= Config(GlobalTokenUsage).capacity
    ensures Config(SendMessage).rate * (MINUTE / Config(SendMessage).period) > Config(GlobalSendMessage).rate
  {
  }

  /** `limit` records a consumption; `check` only asks. */
  datatype Op = Limit | Check

  /** The counter a call addresses: a user's own, or the limiter's single global one. */
  datatype Key = UserKey(user: Users.UserId) | GlobalKey

  /** One call `rateLimiter.<op>(ctx, name, { key, count, reserve, throws: true })`. */
  datatype LimiterCall = LimiterCall(op: Op, name: LimiterName, key: Key, count: real, reserve: bool)

  // ---------------------------------------------------------------------------------
  // estimateTokens

  /** A message's usage record; only the total is read. */
  datatype Usage = Usage(totalTokens: int)

  /** A message fetched as context; only whether it carries a usage record matters here. */
  datatype MessageDoc = MessageDoc(usage: Option<Usage>)

  /** `Array.prototype.reverse`. */
  function Reversed<T>(s: seq<T>): (r: seq<T>)
    ensures |r| == |s|
    ensures forall i :: 0 <= i < |s| ==> r[i] == s[|s| - 1 - i]
  {
    if s == [] then [] else Reversed(s[1..]) + [s[0]]
  }

  /** `Array.prototype.find` with the test "the message has a usage record": the first such
      message, or None. */
  function FindWithUsage(s: seq<MessageDoc>): (r: Option<MessageDoc>)
    ensures r.None? <==> forall j :: 0 <= j < |s| ==> s[j].usage.None?
    ensures r.Some? ==> exists i :: 0 <= i < |s| && s[i] == r.value && r.value.usage.Some?
                                    && forall j :: 0 <= j < i ==> s[j].usage.None?
  {
    if s == [] then None
    else if s[0].usage.Some? then Some(s[0])
    else
      var r := FindWithUsage(s[1..]);
      assert r.Some? ==> exists i :: 0 <= i < |s| && s[i] == r.value && r.value.usage.Some?
                                     && forall j :: 0 <= j < i ==> s[j].usage.None? by {
        if r.Some? {
          var i :| 0 <= i < |s[1..]| && s[1..][i] == r.value && r.value.usage.Some?
                   && forall j :: 0 <= j < i ==> s[1..][j].usage.None?;
          assert s[i + 1] == r.value;
          assert forall j :: 0 <= j < i + 1 ==> s[j].usage.None? by {
            forall j | 0 <= j < i + 1 ensures s[j].usage.None? {
              if j > 0 { assert s[j] == s[1..][j - 1]; }
            }
          }
        }
      }
      r
  }

  /** Reference definition: the position of the last message, in fetched order, that carries
      a usage record. */
  function LastUsageIndex(s: seq<MessageDoc>): (r: Option<nat>)
    ensures r.None? <==> forall j :: 0 <= j < |s| ==> s[j].usage.None?
    ensures r.Some? ==> r.value < |s| && s[r.value].usage.Some?
                        && forall j :: r.value < j < |s| ==> s[j].usage.None?
  {
    if s == [] then None
    else if s[|s| - 1].usage.Some? then Some(|s| - 1)
    else LastUsageIndex(s[..|s| - 1])
  }

  /** Reversing the fetched messages and taking the first with a usage record selects the
      last one with a usage record in fetched order. */
  lemma ReverseFindSelectsLast(fetched: seq<MessageDoc>)
    ensures FindWithUsage(Reversed(fetched))
            == (match LastUsageIndex(fetched)
                case Some(k) => Some(fetched[k])
                case None => None)
  {
    var rev := Reversed(fetched);
    var n := |fetched|;
    match FindWithUsage(rev)
    case None =>
      forall j | 0 <= j < n ensures fetched[j].usage.None? {
        assert fetched[j] == rev[n - 1 - j];
      }
    case Some(m) =>
      var i :| 0 <= i < n && rev[i] == m && m.usage.Some? && forall j :: 0 <= j < i ==> rev[j].usage.None?;
      var p := n - 1 - i;
      assert fetched[p] == m;
      assert LastUsageIndex(fetched).Some?;
      var k := LastUsageIndex(fetched).value;
      assert p <= k;
      assert k <= p by {
        assert rev[n - 1 - k] == fetched[k];
      }
  }

  /** `lastUsageMessage?.usage?.totalTokens ?? 1`. */
  function LastTotalTokens(fetched: seq<MessageDoc>): (t: int)
    ensures LastUsageIndex(fetched).None? ==> t == 1
    ensures LastUsageIndex(fetched).Some? ==> t == fetched[LastUsageIndex(fetched).value].usage.value.totalTokens
  {
    ReverseFindSelectsLast(fetched);
    match FindWithUsage(Reversed(fetched))
    case Some(m) => m.usage.value.totalTokens
    case None => 1
  }

  /** `estimateTokens`: a quarter token per prompt character, three times that plus one for the
      reply, plus the total of the last exchange that reported usage. The prompt length is the
      count of its code units. */
  function EstimateTokens(prompt: string, fetched: seq<MessageDoc>): (r: real)
    ensures r == LastTotalTokens(fetched) as real + |prompt| as real + 1.0
  {
    var promptTokens := |prompt| as real / 4.0;
    var estimatedOutputTokens := promptTokens * 3.0 + 1.0;
    LastTotalTokens(fetched) as real + promptTokens + estimatedOutputTokens
  }

  /** With no usage record in the fetched messages, the estimate is the prompt length plus 2. */
  lemma EstimateWithoutUsage(prompt: string, fetched: seq<MessageDoc>)
    requires forall j :: 0 <= j < |fetched| ==> fetched[j].usage.None?
    ensures EstimateTokens(prompt, fetched) == |prompt| as real + 2.0
  {
  }

  /** When recorded totals are not negative, the estimate is at least the prompt length plus
      one, and so at least 1 for an empty prompt. */
  lemma EstimateLowerBound(prompt: string, fetched: seq<MessageDoc>)
    requires forall j :: 0 <= j < |fetched| && fetched[j].usage.Some? ==> fetched[j].usage.value.totalTokens >= 0
    ensures EstimateTokens(prompt, fetched) >= |prompt| as real + 1.0
    ensures EstimateTokens(prompt, fetched) >= 1.0
  {
  }

  /** Over the same history, a longer prompt never gets a smaller estimate. */
  lemma EstimateMonotone(shorter: string, longer: string, fetched: seq<MessageDoc>)
    requires |shorter| <= |longer|
    ensures EstimateTokens(shorter, fetched) <= EstimateTokens(longer, fetched)
  {
  }
}

/** Token accounting: reading cumulative counts from a notification, and the increase since
    the previous report. */
module Usage {
  import opened Prelude
  import opened Json

  datatype TokenSnapshot = TokenSnapshot(input: int, output: int, total: int)

  datatype RateLimitSnapshot = RateLimitSnapshot(limit: Option<int>, remaining: Option<int>, resetAt: Option<string>)

  const ZERO_TOKENS := TokenSnapshot(0, 0, 0)
  const METHOD_TOKEN_USAGE_UPDATED := "thread/tokenUsage/updated"
  const INPUT_KEYS := ["inputTokens", "input_tokens"]
  const OUTPUT_KEYS := ["outputTokens", "output_tokens"]
  const TOTAL_KEYS := ["totalTokens", "total_tokens"]
  const TOKEN_USAGE_KEYS := ["tokenUsage", "token_usage"]
  const TOTAL_BREAKDOWN_KEYS := ["total"]
  const RATE_LIMIT_KEYS := ["rate_limit", "rateLimit"]

  function Plus(a: TokenSnapshot, b: TokenSnapshot): TokenSnapshot {
    TokenSnapshot(a.input + b.input, a.output + b.output, a.total + b.total)
  }

  predicate AtMost(a: TokenSnapshot, b: TokenSnapshot) {
    a.input <= b.input && a.output <= b.output && a.total <= b.total
  }

  /** The first of the aliases present in the object. */
  function FirstPresent(d: Object, keys: seq<string>): Option<Json> {
    if keys == [] then None
    else if keys[0] in d then Some(d[keys[0]])
    else FirstPresent(d, keys[1..])
  }

  function CoerceTokenInt(j: Json): Option<int> {
    if j.Int? then Some(j.n) else None
  }

  datatype FieldRead = Ok(value: int) | Absent | Invalid

  function ReadIntField(d: Object, keys: seq<string>): FieldRead {
    match FirstPresent(d, keys)
    case None => Absent
    case Some(j) => match CoerceTokenInt(j) case None => Invalid case Some(n) => Ok(n)
  }

  function ReadTokenObject(d: Object): Option<TokenSnapshot> {
    var input := ReadIntField(d, INPUT_KEYS);
    var output := ReadIntField(d, OUTPUT_KEYS);
    var total := ReadIntField(d, TOTAL_KEYS);
    if input.Invalid? || output.Invalid? || total.Invalid? then None
    else if input.Absent? && output.Absent? && total.Absent? then None
    else
      var i := if input.Ok? then input.value else 0;
      var o := if output.Ok? then output.value else 0;
      Some(TokenSnapshot(i, o, if total.Ok? then total.value else i + o))
  }

  function ExtractCumulativeTokens(event: string, payload: Object): Option<TokenSnapshot> {
    if event != METHOD_TOKEN_USAGE_UPDATED then None
    else
      match FirstPresent(payload, TOKEN_USAGE_KEYS)
      case Some(Obj(usage)) =>
        (match FirstPresent(usage, TOTAL_BREAKDOWN_KEYS)
         case Some(Obj(total)) => ReadTokenObject(total)
         case _ => None)
      case _ => None
  }

  function ComputeTokenDelta(previous: Option<TokenSnapshot>, current: TokenSnapshot): TokenSnapshot {
    match previous
    case None => current
    case Some(p) =>
      TokenSnapshot(Max(current.input - p.input, 0), Max(current.output - p.output, 0), Max(current.total - p.total, 0))
  }

  function ExtractRateLimits(payload: Object): Option<RateLimitSnapshot> {
    match FirstPresent(payload, RATE_LIMIT_KEYS)
    case Some(Obj(raw)) =>
      var limit := match FirstPresent(raw, ["limit"]) case None => None case Some(j) => CoerceTokenInt(j);
      var remaining := match FirstPresent(raw, ["remaining"]) case None => None case Some(j) => CoerceTokenInt(j);
      var resetAt := match FirstPresent(raw, ["reset_at", "resetAt"]) case Some(Str(s)) => Some(s) case _ => None;
      if limit == None && remaining == None && resetAt == None then None
      else Some(RateLimitSnapshot(limit, remaining, resetAt))
    case _ => None
  }

  /** The usage map attached to an event: the snapshot's fields by name. */
  function UsageMap(t: TokenSnapshot): Object {
    map["input_tokens" := Int(t.input), "output_tokens" := Int(t.output), "total_tokens" := Int(t.total)]
  }

  /** What a consumer reads out of a usage map; None unless all three counts are ints. */
  function ReadUsage(usage: Option<Object>): Option<TokenSnapshot> {
    match usage
    case None => None
    case Some(u) =>
      var i, o, t := Get(u, "input_tokens"), Get(u, "output_tokens"), Get(u, "total_tokens");
      if IsInt(i) && IsInt(o) && IsInt(t) then Some(TokenSnapshot(IntValue(i), IntValue(o), IntValue(t))) else None
  }

  lemma ReadUsageMap(t: TokenSnapshot)
    ensures ReadUsage(Some(UsageMap(t))) == Some(t)
  {
    var u := UsageMap(t);
    assert "input_tokens" in u && "output_tokens" in u && "total_tokens" in u;
  }
}

// Token usage of a chat completion, in the OpenAI, Claude and Gemini spellings.
module ChatUsage {
  import opened Common

  /** The usage object of a chunk or message: each field may be absent. */
  datatype Usage = Usage(
    promptTokens: Option<int>,
    completionTokens: Option<int>,
    totalTokens: Option<int>,
    promptCachedTokens: Option<int>,
    reasoningTokens: Option<int>,
    inputTokens: Option<int>,
    outputTokens: Option<int>,
    cacheRead: Option<int>,
    cacheCreation: Option<int>,
    cacheCreation5m: Option<int>,
    cacheCreation1h: Option<int>,
    geminiPrompt: Option<int>,
    geminiCached: Option<int>,
    geminiCandidates: Option<int>)

  datatype TTL = NoTTL | FiveMinutes | OneHour | Mixed

  /** What the converter remembers of it. */
  datatype Tally = Tally(
    input: int,
    includesCache: bool,
    output: int,
    total: int,
    cached: int,
    reasoning: int,
    creation: int,
    creation5m: int,
    creation1h: int,
    ttl: TTL,
    claudeFields: bool,
    cacheDetails: bool)

  const NO_TALLY := Tally(0, false, 0, 0, 0, 0, 0, 0, 0, NoTTL, false, false)

  /** The usage reported with the response; 0 also stands for an absent detail. */
  datatype Report = Report(
    input: int,
    output: int,
    total: int,
    cachedDetail: int,
    reasoningDetail: int,
    creation: int,
    creation5m: int,
    creation1h: int,
    cacheRead: int,
    ttl: TTL)

  const NO_REPORT := Report(0, 0, 0, 0, 0, 0, 0, 0, 0, NoTTL)

  function Cleared(t: Tally): Tally {
    t.(input := 0, output := 0, cached := 0, reasoning := 0, creation := 0, creation5m := 0, creation1h := 0, ttl := NoTTL)
  }

  function Or(o: Option<int>, otherwise: int): int {
    if o.Some? then o.value else otherwise
  }

  function TTLOf(creation5m: int, creation1h: int, otherwise: TTL): TTL {
    if creation5m > 0 && creation1h > 0 then Mixed
    else if creation1h > 0 then OneHour
    else if creation5m > 0 then FiveMinutes
    else otherwise
  }

  function WithOpenAI(t: Tally, u: Usage): Tally {
    t.(input := Or(u.promptTokens, t.input),
       includesCache := u.promptTokens.Some? || t.includesCache,
       output := Or(u.completionTokens, t.output),
       total := Or(u.totalTokens, t.total),
       cached := Or(u.promptCachedTokens, t.cached),
       cacheDetails := t.cacheDetails || u.promptCachedTokens.Some?,
       reasoning := Or(u.reasoningTokens, t.reasoning))
  }

  /** Claude's counts override the OpenAI ones. */
  function WithClaude(t: Tally, u: Usage): Tally {
    t.(input := Or(u.inputTokens, t.input),
       includesCache := t.includesCache && u.inputTokens.None?,
       output := Or(u.outputTokens, t.output),
       cached := Or(u.cacheRead, t.cached),
       cacheDetails := t.cacheDetails || u.cacheRead.Some?,
       claudeFields := t.claudeFields || u.cacheRead.Some?)
  }

  function WithCreation(t: Tally, u: Usage): Tally {
    var creation5m, creation1h := Or(u.cacheCreation5m, t.creation5m), Or(u.cacheCreation1h, t.creation1h);
    t.(creation := Or(u.cacheCreation, t.creation),
       creation5m := creation5m,
       creation1h := creation1h,
       ttl := TTLOf(creation5m, creation1h, t.ttl),
       claudeFields := t.claudeFields || u.cacheCreation.Some? || u.cacheCreation5m.Some? || u.cacheCreation1h.Some?)
  }

  /** The Gemini fields, whose prompt count includes the cached tokens. */
  function WithGemini(t: Tally, u: Usage): Tally {
    var cached := Or(u.geminiCached, 0);
    var g :=
      if u.geminiPrompt.Some? then
        t.(input := if u.geminiPrompt.value - cached < 0 then 0 else u.geminiPrompt.value - cached,
           includesCache := false, cached := cached, cacheDetails := cached > 0)
      else t;
    g.(output := Or(u.geminiCandidates, g.output))
  }

  function Taken(t: Tally, u: Usage): Tally {
    WithGemini(WithCreation(WithClaude(WithOpenAI(t, u), u), u), u)
  }

  function EffectiveCacheCreation(creation: int, creation5m: int, creation1h: int): int {
    if creation > 0 then creation else creation5m + creation1h
  }

  function NormalizedInput(input: int, cached: int, creation: int): int {
    if cached + creation <= 0 then input
    else if input - (cached + creation) < 0 then 0
    else input - (cached + creation)
  }

  function Reported(t: Tally, reasoningBytes: nat): Report {
    var creation := EffectiveCacheCreation(t.creation, t.creation5m, t.creation1h);
    var input := if t.includesCache then NormalizedInput(t.input, t.cached, creation) else t.input;
    Report(
      input,
      t.output,
      if t.total == 0 || t.cached > 0 || creation > 0 then input + t.output + t.cached + creation else t.total,
      if !t.claudeFields && t.cacheDetails && t.cached > 0 then t.cached else 0,
      if t.reasoning == 0 && reasoningBytes > 0 then reasoningBytes / 4 else if t.reasoning > 0 then t.reasoning else 0,
      if t.creation > 0 then t.creation else 0,
      if t.creation5m > 0 then t.creation5m else 0,
      if t.creation1h > 0 then t.creation1h else 0,
      if t.claudeFields && t.cached > 0 then t.cached else 0,
      t.ttl)
  }

  // ---------- What the report says of the usage object ----------

  /** The cached tokens that were read: Gemini's count with its prompt, else Claude's, else OpenAI's. */
  predicate ReadsCache(u: Usage, read: int) {
    if u.geminiPrompt.Some? then
      match u.geminiCached { case Some(n) => read == n case None => read == 0 }
    else
      match (u.cacheRead, u.promptCachedTokens) {
        case (Some(n), _) => read == n
        case (None, Some(n)) => read == n
        case (None, None) => read == 0
      }
  }

  /** The cached tokens that were written: the sum where it is given, else its two parts. */
  predicate WritesCache(u: Usage, written: int) {
    if u.cacheCreation.Some? && u.cacheCreation.value > 0 then written == u.cacheCreation.value
    else
      match (u.cacheCreation5m, u.cacheCreation1h) {
        case (Some(m), Some(n)) => written == m + n
        case (Some(m), None) => written == m
        case (None, Some(n)) => written == n
        case (None, None) => written == 0
      }
  }

  /** Counts are not reported below zero. */
  predicate NotBelowZero(n: int, exact: int) {
    if exact < 0 then n == 0 else n == exact
  }

  /**
   * The fresh input. Gemini's prompt count includes the tokens read from the
   * cache, Claude's input count includes no cached tokens, and OpenAI's prompt
   * count includes those read and those written.
   */
  predicate FreshInput(u: Usage, read: int, written: int, input: int) {
    match (u.geminiPrompt, u.inputTokens, u.promptTokens) {
      case (Some(n), _, _) => NotBelowZero(input, n - read)
      case (None, Some(n), _) => input == n
      case (None, None, Some(n)) => if read + written <= 0 then input == n else NotBelowZero(input, n - read - written)
      case (None, None, None) => input == 0
    }
  }

  predicate GivenOutput(u: Usage, output: int) {
    match (u.geminiCandidates, u.outputTokens, u.completionTokens) {
      case (Some(n), _, _) => output == n
      case (None, Some(n), _) => output == n
      case (None, None, Some(n)) => output == n
      case (None, None, None) => output == 0
    }
  }

  /** The given total stands only without cached tokens; otherwise the parts are added up. */
  predicate GivenTotal(u: Usage, read: int, written: int, r: Report) {
    if u.totalTokens.Some? && u.totalTokens.value != 0 && read <= 0 && written <= 0
    then r.total == u.totalTokens.value
    else r.total == r.input + r.output + read + written
  }

  /** A detail is reported when it is given and positive. */
  predicate Detail(given: Option<int>, reported: int) {
    match given
    case Some(n) => NotBelowZero(reported, n)
    case None => reported == 0
  }

  /** The reasoning tokens, or an estimate of four bytes each where none are counted. */
  predicate ReasoningDetail(u: Usage, reasoningBytes: nat, reported: int) {
    if u.reasoningTokens.Some? && u.reasoningTokens.value != 0 then NotBelowZero(reported, u.reasoningTokens.value)
    else 4 * reported <= reasoningBytes < 4 * (reported + 1)
  }

  /** Tokens read from the cache are a Claude field once any Claude cache field is given, and else an input detail. */
  predicate CacheDetails(u: Usage, read: int, r: Report) {
    if u.cacheRead.Some? || u.cacheCreation.Some? || u.cacheCreation5m.Some? || u.cacheCreation1h.Some?
    then r.cachedDetail == 0 && NotBelowZero(r.cacheRead, read)
    else r.cacheRead == 0 && NotBelowZero(r.cachedDetail, read)
  }

  /** The report describes the usage object. */
  ghost predicate Tells(u: Usage, reasoningBytes: nat, r: Report) {
    && (exists read, written :: ReadsCache(u, read) && WritesCache(u, written)
          && FreshInput(u, read, written, r.input) && GivenTotal(u, read, written, r) && CacheDetails(u, read, r))
    && GivenOutput(u, r.output)
    && ReasoningDetail(u, reasoningBytes, r.reasoningDetail)
    && Detail(u.cacheCreation, r.creation)
    && Detail(u.cacheCreation5m, r.creation5m)
    && Detail(u.cacheCreation1h, r.creation1h)
    && (r.ttl == (if r.creation5m > 0 && r.creation1h > 0 then Mixed
                  else if r.creation1h > 0 then OneHour
                  else if r.creation5m > 0 then FiveMinutes
                  else NoTTL))
  }

  /** The cached tokens the converter remembers are those read and written. */
  lemma CacheCounts(u: Usage)
    ensures var t := Taken(NO_TALLY, u);
      && ReadsCache(u, t.cached) && WritesCache(u, EffectiveCacheCreation(t.creation, t.creation5m, t.creation1h))
  {
  }

  /** For every usage object, in whatever spelling, the report describes it. */
  lemma ReportTells(u: Usage, reasoningBytes: nat)
    ensures Tells(u, reasoningBytes, Reported(Taken(NO_TALLY, u), reasoningBytes))
  {
    var t, r := Taken(NO_TALLY, u), Reported(Taken(NO_TALLY, u), reasoningBytes);
    var read, written := t.cached, EffectiveCacheCreation(t.creation, t.creation5m, t.creation1h);
    CacheCounts(u);
    assert FreshInput(u, read, written, r.input);
    assert GivenTotal(u, read, written, r);
    assert CacheDetails(u, read, r);
    assert ReasoningDetail(u, reasoningBytes, r.reasoningDetail);
  }

  /** A new response starts counting afresh: once cleared, counts on which nothing else was noted are as new. */
  lemma ClearedIsNew(t: Tally)
    requires !t.includesCache && !t.cacheDetails && !t.claudeFields && t.total == 0
    ensures Cleared(t) == NO_TALLY
  {
  }

  /** What a later usage object does not mention stays as it was counted. */
  lemma AbsentFieldsKeep(t: Tally, u: Usage)
    requires u.geminiPrompt.None?
    ensures u.inputTokens.None? && u.promptTokens.None? ==>
      Taken(t, u).input == t.input && Taken(t, u).includesCache == t.includesCache
    ensures u.geminiCandidates.None? && u.outputTokens.None? && u.completionTokens.None? ==> Taken(t, u).output == t.output
    ensures u.cacheRead.None? && u.promptCachedTokens.None? ==>
      Taken(t, u).cached == t.cached && Taken(t, u).cacheDetails == t.cacheDetails
    ensures u.totalTokens.None? ==> Taken(t, u).total == t.total
    ensures u.reasoningTokens.None? ==> Taken(t, u).reasoning == t.reasoning
    ensures u.cacheCreation.None? ==> Taken(t, u).creation == t.creation
    ensures u.cacheCreation5m.None? ==> Taken(t, u).creation5m == t.creation5m
    ensures u.cacheCreation1h.None? ==> Taken(t, u).creation1h == t.creation1h
    ensures t.claudeFields ==> Taken(t, u).claudeFields
  {
  }

  // ---------- What the counts mean ----------

  /** With OpenAI counting, input and cache together are the prompt again, unless the cache claims more than it. */
  lemma InputAndCacheAreThePrompt(prompt: int, cached: int, creation: int)
    requires 0 <= cached && 0 <= creation && 0 <= prompt
    ensures var input := NormalizedInput(prompt, cached, creation);
      0 <= input && (input + cached + creation == prompt <==> cached + creation <= prompt)
  {
  }

  /** When any cache count is present the total is exactly input, output and cache. */
  lemma TotalIsTheSum(t: Tally, reasoningBytes: nat)
    requires t.cached >= 0
    ensures var r := Reported(t, reasoningBytes); var creation := EffectiveCacheCreation(t.creation, t.creation5m, t.creation1h);
      t.total == 0 || t.cached > 0 || creation > 0 ==> r.total == r.input + r.output + t.cached + creation
    ensures var r := Reported(t, reasoningBytes); var creation := EffectiveCacheCreation(t.creation, t.creation5m, t.creation1h);
      t.includesCache && 0 < t.cached + creation <= t.input && (t.cached > 0 || creation > 0) ==> r.total == t.input + t.output
  {
  }

  // ---------- The tally of the streaming state, updated in place ----------

  class Counters {
    var inputTokens: int
    var inputTokensIncludeCache: bool
    var outputTokens: int
    var totalTokens: int
    var cachedTokens: int
    var reasoningTokens: int
    var cacheCreationTokens: int
    var cacheCreation5mTokens: int
    var cacheCreation1hTokens: int
    var cacheTTL: TTL
    var hasClaudeCacheFields: bool
    var hasCacheDetails: bool

    ghost function Current(): Tally
      reads this
    {
      Tally(inputTokens, inputTokensIncludeCache, outputTokens, totalTokens, cachedTokens, reasoningTokens,
        cacheCreationTokens, cacheCreation5mTokens, cacheCreation1hTokens, cacheTTL, hasClaudeCacheFields, hasCacheDetails)
    }

    constructor ()
      ensures Current() == NO_TALLY
    {
      inputTokens, inputTokensIncludeCache, outputTokens, totalTokens := 0, false, 0, 0;
      cachedTokens, reasoningTokens := 0, 0;
      cacheCreationTokens, cacheCreation5mTokens, cacheCreation1hTokens := 0, 0, 0;
      cacheTTL, hasClaudeCacheFields, hasCacheDetails := NoTTL, false, false;
    }

    /** What the first chunk resets. */
    method Reset()
      modifies this`inputTokens, this`outputTokens, this`cachedTokens, this`reasoningTokens, this`cacheCreationTokens,
        this`cacheCreation5mTokens, this`cacheCreation1hTokens, this`cacheTTL
      ensures Current() == Cleared(old(Current()))
    {
      inputTokens, outputTokens, cachedTokens, reasoningTokens := 0, 0, 0, 0;
      cacheCreationTokens, cacheCreation5mTokens, cacheCreation1hTokens := 0, 0, 0;
      cacheTTL := NoTTL;
    }

    method TakeOpenAI(u: Usage)
      modifies this`inputTokens, this`inputTokensIncludeCache, this`outputTokens, this`totalTokens, this`cachedTokens,
        this`hasCacheDetails, this`reasoningTokens
      ensures Current() == WithOpenAI(old(Current()), u)
    {
      if u.promptTokens.Some? {
        inputTokens := u.promptTokens.value;
        inputTokensIncludeCache := true;
      }
      if u.completionTokens.Some? {
        outputTokens := u.completionTokens.value;
      }
      if u.totalTokens.Some? {
        totalTokens := u.totalTokens.value;
      }
      if u.promptCachedTokens.Some? {
        cachedTokens := u.promptCachedTokens.value;
        hasCacheDetails := true;
      }
      if u.reasoningTokens.Some? {
        reasoningTokens := u.reasoningTokens.value;
      }
    }

    method TakeClaude(u: Usage)
      modifies this`inputTokens, this`inputTokensIncludeCache, this`outputTokens, this`cachedTokens, this`hasCacheDetails,
        this`hasClaudeCacheFields
      ensures Current() == WithClaude(old(Current()), u)
    {
      if u.inputTokens.Some? {
        inputTokens := u.inputTokens.value;
        inputTokensIncludeCache := false;
      }
      if u.outputTokens.Some? {
        outputTokens := u.outputTokens.value;
      }
      if u.cacheRead.Some? {
        cachedTokens := u.cacheRead.value;
        hasClaudeCacheFields, hasCacheDetails := true, true;
      }
    }

    method TakeCreation(u: Usage)
      modifies this`cacheCreationTokens, this`cacheCreation5mTokens, this`cacheCreation1hTokens, this`cacheTTL,
        this`hasClaudeCacheFields
      ensures Current() == WithCreation(old(Current()), u)
    {
      hide TTLOf;
      if u.cacheCreation.Some? {
        cacheCreationTokens := u.cacheCreation.value;
        hasClaudeCacheFields := true;
      }
      if u.cacheCreation5m.Some? {
        cacheCreation5mTokens := u.cacheCreation5m.value;
        hasClaudeCacheFields := true;
      }
      if u.cacheCreation1h.Some? {
        cacheCreation1hTokens := u.cacheCreation1h.value;
        hasClaudeCacheFields := true;
      }
      SetTTL();
    }

    method SetTTL()
      modifies this`cacheTTL
      ensures cacheTTL == TTLOf(cacheCreation5mTokens, cacheCreation1hTokens, old(cacheTTL))
    {
      var has5m, has1h := cacheCreation5mTokens > 0, cacheCreation1hTokens > 0;
      if has5m && has1h {
        cacheTTL := Mixed;
      } else if has1h {
        cacheTTL := OneHour;
      } else if has5m {
        cacheTTL := FiveMinutes;
      }
    }

    method TakeGemini(u: Usage)
      modifies this`inputTokens, this`inputTokensIncludeCache, this`outputTokens, this`cachedTokens, this`hasCacheDetails
      ensures Current() == WithGemini(old(Current()), u)
    {
      if u.geminiPrompt.Some? {
        var cached := if u.geminiCached.Some? then u.geminiCached.value else 0;
        var actualInput := u.geminiPrompt.value - cached;
        if actualInput < 0 {
          actualInput := 0;
        }
        inputTokens := actualInput;
        inputTokensIncludeCache := false;
        cachedTokens := cached;
        hasCacheDetails := cached > 0;
      }
      if u.geminiCandidates.Some? {
        outputTokens := u.geminiCandidates.value;
      }
    }

    /** The usage part of a streaming chunk. */
    method Take(u: Usage)
      modifies this
      ensures Current() == Taken(old(Current()), u)
    {
      hide WithOpenAI, WithClaude, WithCreation, WithGemini;
      TakeOpenAI(u);
      TakeClaude(u);
      TakeCreation(u);
      TakeGemini(u);
    }

    /** The usage of response.completed. */
    method Summarize(reasoningBytes: nat) returns (r: Report)
      ensures r == Reported(Current(), reasoningBytes)
    {
      var reasoning := reasoningTokens;
      if reasoning == 0 && reasoningBytes > 0 {
        reasoning := reasoningBytes / 4;
      }
      var creation := EffectiveCacheCreation(cacheCreationTokens, cacheCreation5mTokens, cacheCreation1hTokens);
      var input := inputTokens;
      if inputTokensIncludeCache {
        input := NormalizedInput(inputTokens, cachedTokens, creation);
      }
      var total := totalTokens;
      if total == 0 || cachedTokens > 0 || creation > 0 {
        total := input + outputTokens + cachedTokens + creation;
      }
      r := Report(input, outputTokens, total, 0, 0, 0, 0, 0, 0, cacheTTL);
      if !hasClaudeCacheFields && hasCacheDetails && cachedTokens > 0 {
        r := r.(cachedDetail := cachedTokens);
      }
      if reasoning > 0 {
        r := r.(reasoningDetail := reasoning);
      }
      if cacheCreationTokens > 0 {
        r := r.(creation := cacheCreationTokens);
      }
      if cacheCreation5mTokens > 0 {
        r := r.(creation5m := cacheCreation5mTokens);
      }
      if cacheCreation1hTokens > 0 {
        r := r.(creation1h := cacheCreation1hTokens);
      }
      if hasClaudeCacheFields && cachedTokens > 0 {
        r := r.(cacheRead := cachedTokens);
      }
    }
  }

  // ---------- The usage part of the non-streaming conversion ----------

  /** The same fields, kept in locals. */
  method NonStreamTally(u: Usage) returns (t: Tally)
    ensures t == Taken(NO_TALLY, u)
  {
    var inputTokens, outputTokens, totalTokens, cachedTokens := 0, 0, 0, 0;
    var includesCache, claudeFields, cacheDetails := false, false, false;
    if u.promptTokens.Some? {
      inputTokens, includesCache := u.promptTokens.value, true;
    }
    outputTokens := Or(u.completionTokens, outputTokens);
    totalTokens := Or(u.totalTokens, totalTokens);
    if u.promptCachedTokens.Some? {
      cachedTokens, cacheDetails := u.promptCachedTokens.value, true;
    }
    var reasoningTokens := Or(u.reasoningTokens, 0);
    if u.inputTokens.Some? {
      inputTokens, includesCache := u.inputTokens.value, false;
    }
    outputTokens := Or(u.outputTokens, outputTokens);
    if u.cacheRead.Some? {
      claudeFields, cachedTokens, cacheDetails := true, u.cacheRead.value, true;
    }
    var creation, creation5m, creation1h := Or(u.cacheCreation, 0), Or(u.cacheCreation5m, 0), Or(u.cacheCreation1h, 0);
    if u.cacheCreation.Some? || u.cacheCreation5m.Some? || u.cacheCreation1h.Some? {
      claudeFields := true;
    }
    var ttl := NoTTL;
    if creation5m > 0 && creation1h > 0 {
      ttl := Mixed;
    } else if creation1h > 0 {
      ttl := OneHour;
    } else if creation5m > 0 {
      ttl := FiveMinutes;
    }
    t := Tally(inputTokens, includesCache, outputTokens, totalTokens, cachedTokens, reasoningTokens, creation, creation5m,
      creation1h, ttl, claudeFields, cacheDetails);
    t := NonStreamGemini(t, u);
  }

  method NonStreamGemini(t: Tally, u: Usage) returns (r: Tally)
    ensures r == WithGemini(t, u)
  {
    r := t;
    if u.geminiPrompt.Some? {
      var cached := Or(u.geminiCached, 0);
      var actualInput := u.geminiPrompt.value - cached;
      if actualInput < 0 {
        actualInput := 0;
      }
      r := r.(input := actualInput, includesCache := false, cached := cached, cacheDetails := cached > 0);
    }
    if u.geminiCandidates.Some? {
      r := r.(output := u.geminiCandidates.value);
    }
  }

  method NonStreamUsage(u: Usage, reasoningBytes: nat) returns (r: Report)
    ensures r == Reported(Taken(NO_TALLY, u), reasoningBytes)
    ensures Tells(u, reasoningBytes, r)
  {
    hide Taken, Tells;
    ReportTells(u, reasoningBytes);
    var t := NonStreamTally(u);
    var creation := EffectiveCacheCreation(t.creation, t.creation5m, t.creation1h);
    var input := if t.includesCache then NormalizedInput(t.input, t.cached, creation) else t.input;
    var total := t.total;
    if total == 0 || t.cached > 0 || creation > 0 {
      total := input + t.output + t.cached + creation;
    }
    var reasoning := t.reasoning;
    if reasoning == 0 && reasoningBytes > 0 {
      reasoning := reasoningBytes / 4;
    }
    r := Report(input, t.output, total,
      if !t.claudeFields && t.cacheDetails && t.cached > 0 then t.cached else 0,
      if reasoning > 0 then reasoning else 0,
      if t.creation > 0 then t.creation else 0,
      if t.creation5m > 0 then t.creation5m else 0,
      if t.creation1h > 0 then t.creation1h else 0,
      if t.claudeFields && t.cached > 0 then t.cached else 0,
      t.ttl);
  }
}

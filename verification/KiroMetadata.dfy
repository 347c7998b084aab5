/** Token counts out of the metadata events of a Kiro stream. */
module KiroMetadata {
  import opened Common
  import opened Accumulator

  datatype TokenUsage = TokenUsage(output: real, total: real, uncachedInput: real, cacheReadInput: real)

  datatype DirectUsage = DirectUsage(input: real, output: real, total: real)

  /** A decoded payload: the nested counts and the direct ones, as far as they could be read. */
  datatype Payload = Payload(readable: bool, tokenUsage: Option<TokenUsage>, direct: Option<DirectUsage>)

  /** Go's conversion of a number to an integer drops the fraction. */
  function Trunc(x: real): int {
    if x >= 0.0 then x.Floor else -((-x).Floor)
  }

  function Positive(x: real): int {
    if x > 0.0 then Trunc(x) else 0
  }

  function InputOf(t: TokenUsage): int {
    Trunc(t.uncachedInput) + Trunc(t.cacheReadInput)
  }

  predicate HasNested(p: Payload) {
    p.tokenUsage.Some? &&
    var t := p.tokenUsage.value;
    t.output > 0.0 || t.total > 0.0 || InputOf(t) > 0
  }

  predicate HasDirect(p: Payload) {
    p.direct.Some? && (p.direct.value.input > 0.0 || p.direct.value.output > 0.0 || p.direct.value.total > 0.0)
  }

  function CacheRead(p: Payload): int {
    if p.tokenUsage.Some? then Positive(p.tokenUsage.value.cacheReadInput) else 0
  }

  /** The nested counts if any of them is positive, or else the direct ones; the cached tokens come
      from the nested object in both cases. */
  function UsageOf(p: Payload): Option<Usage> {
    if !p.readable then None
    else if HasNested(p) then
      var t := p.tokenUsage.value;
      Some(NO_USAGE.(completion := Positive(t.output), total := Positive(t.total),
                     prompt := if InputOf(t) > 0 then InputOf(t) else 0,
                     cached := CacheRead(p), cacheRead := CacheRead(p)))
    else if HasDirect(p) then
      var d := p.direct.value;
      Some(NO_USAGE.(completion := Positive(d.output), total := Positive(d.total), prompt := Positive(d.input),
                     cached := CacheRead(p), cacheRead := CacheRead(p)))
    else None
  }

  method ParseMetadataPayload(p: Payload) returns (result: Option<Usage>)
    ensures result == UsageOf(p)
  {
    if !p.readable {
      return None;
    }
    var usage, hasData := NO_USAGE, false;
    if p.tokenUsage.Some? {
      var tu := p.tokenUsage.value;
      if tu.output > 0.0 {
        usage, hasData := usage.(completion := Trunc(tu.output)), true;
      }
      if tu.total > 0.0 {
        usage, hasData := usage.(total := Trunc(tu.total)), true;
      }
      var inputTokens := Trunc(tu.uncachedInput) + Trunc(tu.cacheReadInput);
      if inputTokens > 0 {
        usage, hasData := usage.(prompt := inputTokens), true;
      }
      if tu.cacheReadInput > 0.0 {
        usage := usage.(cacheRead := Trunc(tu.cacheReadInput), cached := Trunc(tu.cacheReadInput));
      }
    }
    if !hasData && p.direct.Some? {
      var d := p.direct.value;
      if d.output > 0.0 {
        usage, hasData := usage.(completion := Trunc(d.output)), true;
      }
      if d.input > 0.0 {
        usage, hasData := usage.(prompt := Trunc(d.input)), true;
      }
      if d.total > 0.0 {
        usage, hasData := usage.(total := Trunc(d.total)), true;
      }
    }
    if !hasData {
      return None;
    }
    result := Some(usage);
  }

  /** No count is ever negative, whatever the upstream reports. */
  lemma CountsAreNotNegative(p: Payload)
    ensures var u := UsageOf(p).GetOr(NO_USAGE);
      u.prompt >= 0 && u.completion >= 0 && u.total >= 0 && u.cached == u.cacheRead >= 0
      && u.cacheCreation == 0 && u.reasoning == 0 && u.credit == 0.0
  {
  }

  /** n is x without its fraction. */
  predicate Cuts(n: int, x: real) {
    if x >= 0.0 then n as real <= x < n as real + 1.0 else n as real - 1.0 < x <= n as real
  }

  /** n is the whole part of a positive x, and 0 for any other. */
  predicate CutsPositive(n: int, x: real) {
    if x > 0.0 then Cuts(n, x) else n == 0
  }

  /** What the nested counts say: the input is the uncached and the cached part together. */
  ghost predicate SaysNested(u: Usage, t: TokenUsage) {
    && CutsPositive(u.completion, t.output) && CutsPositive(u.total, t.total)
    && exists a: int, b: int ::
         Cuts(a, t.uncachedInput) && Cuts(b, t.cacheReadInput) && u.prompt == if a + b > 0 then a + b else 0
  }

  ghost predicate SaysDirect(u: Usage, d: DirectUsage) {
    CutsPositive(u.completion, d.output) && CutsPositive(u.total, d.total) && CutsPositive(u.prompt, d.input)
  }

  /** Some count of the nested object is positive; the fractions of the two input counts do not add up. */
  ghost predicate NestedSaysSomething(t: TokenUsage) {
    || t.output > 0.0 || t.total > 0.0
    || exists a: int, b: int :: Cuts(a, t.uncachedInput) && Cuts(b, t.cacheReadInput) && a + b > 0
  }

  predicate DirectSaysSomething(d: DirectUsage) {
    d.input > 0.0 || d.output > 0.0 || d.total > 0.0
  }

  lemma TruncCuts(x: real)
    ensures Cuts(Trunc(x), x)
    ensures forall n: int :: Cuts(n, x) ==> n == Trunc(x)
  {
  }

  /** The usage that is reported, field by field: that of the nested object if it says something, or else
      that of the direct counts if they do; the cached tokens are the nested ones in both cases. */
  lemma UsageIs(p: Payload)
    ensures var nested := p.readable && p.tokenUsage.Some? && NestedSaysSomething(p.tokenUsage.value);
      var direct := p.readable && !nested && p.direct.Some? && DirectSaysSomething(p.direct.value);
      var u := UsageOf(p).GetOr(NO_USAGE);
      && (UsageOf(p).Some? <==> nested || direct)
      && (nested ==> SaysNested(u, p.tokenUsage.value))
      && (direct ==> SaysDirect(u, p.direct.value))
      && (nested || direct ==>
            && u.cached == u.cacheRead
            && CutsPositive(u.cacheRead, if p.tokenUsage.Some? then p.tokenUsage.value.cacheReadInput else 0.0))
  {
    forall x: real {
      TruncCuts(x);
    }
    if p.tokenUsage.Some? {
      var t := p.tokenUsage.value;
      assert Cuts(Trunc(t.uncachedInput), t.uncachedInput) && Cuts(Trunc(t.cacheReadInput), t.cacheReadInput);
    }
  }
}

/**
 * The D2D1 hooks of the shader source rewriter: the rewrite of a sampled
 * texture access into an explicit sampling call, and the tracking of whether
 * the shader reads the scene position. The keyword table and the intrinsic
 * method table are parameters (their contents are not part of this model).
 */
module ShaderSourceRewriter {
  import opened Wrappers

  /** `HlslKnownKeywords.TryGetMappedName`: the HLSL name a C# identifier is renamed to, if any. */
  type KeywordMap = string -> Option<string>

  /** `HlslKnownMethods.NeedsD2DRequiresScenePositionAttribute` over intrinsic metadata names. */
  type ScenePositionPredicate = string -> bool

  /** The receiver of the sampled access: a field of the shader, or anything else. */
  datatype Instance = FieldReference(name: string) | OtherInstance

  /** The syntax the rewrite produces, kept abstract apart from identifiers and calls. */
  datatype Expression =
    | IdentifierName(name: string)
    | SourceExpression(text: string)
    | InvocationExpression(target: Expression, arguments: seq<Argument>)

  datatype Argument = Argument(expression: Expression)

  const SamplerPrefix: string := "__sampler__"

  /** The name of the referenced field, or `""` when the receiver is not a field. */
  function FieldName(instance: Instance): string {
    match instance
    case FieldReference(name) => name
    case OtherInstance => ""
  }

  /**
   * The identifier of the implicit linear sampler of a texture field: the
   * prefix followed by the field's HLSL name, or the field name itself when
   * the keyword table has no mapping for it.
   */
  function SamplerName(fieldName: string, keywords: KeywordMap): (n: string)
    ensures |SamplerPrefix| <= |n| && n[..|SamplerPrefix|] == SamplerPrefix
    ensures keywords(fieldName).Some? ==> n[|SamplerPrefix|..] == keywords(fieldName).value
    ensures keywords(fieldName).None? ==> n[|SamplerPrefix|..] == fieldName
  {
    SamplerPrefix + keywords(fieldName).GetOr(fieldName)
  }

  /**
   * `RewriteSampledTextureAccess`: `texture.Sample(uv)` becomes
   * `texture.Sample(__sampler__texture, uv)`. The target expression is kept,
   * the sampler identifier comes first and the original argument follows
   * unchanged.
   */
  function RewriteSampledTextureAccess(
    instance: Instance, expression: Expression, argument: Argument, keywords: KeywordMap): (r: Expression)
    ensures r.InvocationExpression? && r.target == expression
    ensures |r.arguments| == 2 && r.arguments[1] == argument
    ensures r.arguments[0].expression.IdentifierName?
    ensures var name := r.arguments[0].expression.name;
            |SamplerPrefix| <= |name| && name[..|SamplerPrefix|] == SamplerPrefix
            && name[|SamplerPrefix|..] == keywords(FieldName(instance)).GetOr(FieldName(instance))
  {
    var sampler := Argument(IdentifierName(SamplerName(FieldName(instance), keywords)));
    InvocationExpression(expression, [sampler, argument])
  }

  /** The sampler identifier depends on the receiver only, never on the call site. */
  lemma SamplerIgnoresCallSite(
    instance: Instance, e1: Expression, a1: Argument, e2: Expression, a2: Argument, keywords: KeywordMap)
    ensures RewriteSampledTextureAccess(instance, e1, a1, keywords).arguments[0]
         == RewriteSampledTextureAccess(instance, e2, a2, keywords).arguments[0]
  {
  }

  /** A receiver that is not a field is treated as a field named `""`. */
  lemma NonFieldReceiverUsesEmptyName(expression: Expression, argument: Argument, keywords: KeywordMap)
    ensures RewriteSampledTextureAccess(OtherInstance, expression, argument, keywords).arguments[0]
         == Argument(IdentifierName(SamplerPrefix + keywords("").GetOr("")))
  {
  }

  /** For unmapped field names, distinct fields get distinct samplers. */
  lemma UnmappedSamplersAreDistinct(a: string, b: string, keywords: KeywordMap)
    requires keywords(a).None? && keywords(b).None?
    ensures SamplerName(a, keywords) == SamplerName(b, keywords) <==> a == b
  {
    if SamplerName(a, keywords) == SamplerName(b, keywords) {
      assert SamplerName(a, keywords)[|SamplerPrefix|..] == a;
    }
  }

  // ---------------------------------------------------------------------------
  // Scene-position tracking

  /** The rewriter's D2D1 state: `NeedsD2DRequiresScenePositionAttribute`, false at first. */
  datatype RewriterState = RewriterState(needsScenePosition: bool)

  const InitialState: RewriterState := RewriterState(false)

  /** `TrackKnownPropertyAccess`: D2D1 shaders track nothing on property access. */
  function TrackKnownPropertyAccess(state: RewriterState, memberName: string, mappedName: string): (r: RewriterState)
    ensures r == state
  {
    state
  }

  /** `TrackKnownMethodInvocation`: the flag is set by an intrinsic that reads the scene position, and never cleared. */
  function TrackKnownMethodInvocation(state: RewriterState, metadataName: string, needs: ScenePositionPredicate): (r: RewriterState)
    ensures r.needsScenePosition <==> state.needsScenePosition || needs(metadataName)
  {
    if needs(metadataName) then state.(needsScenePosition := true) else state
  }

  /** A tracking hook call made while the rewriter walks a shader. */
  datatype Visit =
    | PropertyAccess(memberName: string, mappedName: string)
    | MethodInvocation(metadataName: string)

  predicate SetsFlag(v: Visit, needs: ScenePositionPredicate) {
    v.MethodInvocation? && needs(v.metadataName)
  }

  function Step(state: RewriterState, v: Visit, needs: ScenePositionPredicate): RewriterState {
    match v
    case PropertyAccess(member, mapped) => TrackKnownPropertyAccess(state, member, mapped)
    case MethodInvocation(name) => TrackKnownMethodInvocation(state, name, needs)
  }

  /** The state after a whole walk, in visiting order. */
  function Run(state: RewriterState, visits: seq<Visit>, needs: ScenePositionPredicate): RewriterState
    decreases |visits|
  {
    if |visits| == 0 then state else Run(Step(state, visits[0], needs), visits[1..], needs)
  }

  /**
   * After any walk, the flag is set exactly when it was set before or some
   * visited intrinsic reads the scene position.
   */
  lemma {:induction false} RunIsDisjunction(state: RewriterState, visits: seq<Visit>, needs: ScenePositionPredicate)
    ensures Run(state, visits, needs).needsScenePosition
            <==> state.needsScenePosition || exists i :: 0 <= i < |visits| && SetsFlag(visits[i], needs)
    decreases |visits|
  {
    if |visits| > 0 {
      var next := Step(state, visits[0], needs);
      RunIsDisjunction(next, visits[1..], needs);
      assert next.needsScenePosition <==> state.needsScenePosition || SetsFlag(visits[0], needs);
      if exists i :: 0 <= i < |visits| && SetsFlag(visits[i], needs) {
        var i :| 0 <= i < |visits| && SetsFlag(visits[i], needs);
        if i > 0 {
          assert visits[1..][i - 1] == visits[i];
        }
      }
      if exists j :: 0 <= j < |visits[1..]| && SetsFlag(visits[1..][j], needs) {
        var j :| 0 <= j < |visits[1..]| && SetsFlag(visits[1..][j], needs);
        assert visits[j + 1] == visits[1..][j];
      }
    }
  }

  /** Starting from a fresh rewriter, the flag is the disjunction over the visited intrinsics. */
  lemma FreshRunFlag(visits: seq<Visit>, needs: ScenePositionPredicate)
    ensures Run(InitialState, visits, needs).needsScenePosition
            <==> exists i :: 0 <= i < |visits| && SetsFlag(visits[i], needs)
  {
    RunIsDisjunction(InitialState, visits, needs);
  }

  /** Once set, the flag stays set whatever is visited next. */
  lemma FlagNeverResets(state: RewriterState, visits: seq<Visit>, needs: ScenePositionPredicate)
    requires state.needsScenePosition
    ensures Run(state, visits, needs).needsScenePosition
  {
    RunIsDisjunction(state, visits, needs);
  }
}

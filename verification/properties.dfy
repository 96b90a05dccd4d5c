/** Consequences of the rule that relate several inputs or single out the
    edge cases the analyzer is known to treat a particular way. */
module Properties {
  import opened Syntax
  import opened Extensions
  import opened Analyzer

  function MethodContext(m: MethodDeclaration, attributes: seq<string>): SyntaxNodeAnalysisContext
  {
    SyntaxNodeAnalysisContext(MethodNode(m), Symbol(attributes))
  }

  function WithParameters(m: MethodDeclaration, parameters: seq<Parameter>): MethodDeclaration
  {
    MethodDeclaration(m.returnType, m.identifier, parameters, m.span)
  }

  /** A method declared `void` is never reported, whatever its parameters
      and attributes. */
  lemma VoidMethodNeverReported(m: MethodDeclaration, declaredSymbol: Symbol)
    requires m.returnType == PredefinedType(VoidKeyword)
    ensures Analyze(SyntaxNodeAnalysisContext(MethodNode(m), declaredSymbol)) == []
  {
  }

  /** A unit without an observable parameter is never reported, whatever it
      returns. */
  lemma NoObservableParameterNeverReported(context: SyntaxNodeAnalysisContext)
    requires Analyzable(context.node)
    requires context.node.MethodNode? ==>
      forall i :: 0 <= i < |context.node.declaration.parameters| ==>
        ThisKeyword in context.node.declaration.parameters[i].modifiers
    requires context.node.SimpleLambdaNode? ==> context.node.simple.parameter == None
    requires context.node.ParenthesizedLambdaNode? ==> context.node.parenthesized.parameters == []
    ensures Analyze(context) == []
  {
  }

  /** Only the three registered node kinds are ever analysed. */
  lemma UnregisteredKindYieldsNothing(context: SyntaxNodeAnalysisContext)
    requires context.node.OtherNode?
    ensures Analyze(context) == []
  {
  }

  /** The attributes of a lambda's symbol never influence its verdict: the
      pure marker exempts methods only. */
  lemma LambdaIgnoresAttributes(node: SyntaxNode, s1: Symbol, s2: Symbol)
    requires node.SimpleLambdaNode? || node.ParenthesizedLambdaNode?
    requires Analyzable(node)
    ensures Analyze(SyntaxNodeAnalysisContext(node, s1)) == Analyze(SyntaxNodeAnalysisContext(node, s2))
  {
  }

  /** Attaching either recognised pure marker to a method removes its
      finding. */
  lemma PureMarkerExemptsMethod(m: MethodDeclaration, attributes: seq<string>, marker: string)
    requires IsPureMarker(marker)
    ensures Analyze(MethodContext(m, attributes + [marker])) == []
  {
  }

  /** Adding attributes can only turn the pure test from false to true. */
  lemma HasPureAttributeMonotone(attributes: seq<string>, more: seq<string>)
    ensures HasPureAttribute(Symbol(attributes)) ==> HasPureAttribute(Symbol(attributes + more))
    ensures HasPureAttribute(Symbol(more)) ==> HasPureAttribute(Symbol(attributes + more))
  {
  }

  /** Consequently, adding attributes to a method can only take a finding
      away, never create one. */
  lemma MoreAttributesNeverAddFindings(m: MethodDeclaration, attributes: seq<string>, more: seq<string>)
    ensures |Analyze(MethodContext(m, attributes + more))| <= |Analyze(MethodContext(m, attributes))|
  {
  }

  /** Appending a parameter without `this` makes a method take an
      observable parameter. */
  lemma AppendObservableParameter(m: MethodDeclaration, p: Parameter)
    requires ThisKeyword !in p.modifiers
    ensures !MethodHasNoParameters(WithParameters(m, m.parameters + [p]))
  {
    assert (m.parameters + [p])[|m.parameters|] == p;
  }

  /** An extension method whose only parameter is its receiver counts as
      parameterless; so does one with no parameters at all. */
  lemma ReceiverAloneIsNoParameter(m: MethodDeclaration, receiver: Parameter)
    requires ThisKeyword in receiver.modifiers
    ensures MethodHasNoParameters(WithParameters(m, [receiver]))
    ensures MethodHasNoParameters(WithParameters(m, []))
  {
  }

  /** `ref`, `out`, `in` and `params` parameters are all observable. */
  lemma ModifiedParametersAreObservable(m: MethodDeclaration, name: string, modifier: ParameterModifier)
    requires modifier != ThisKeyword
    ensures !MethodHasNoParameters(WithParameters(m, [Parameter([modifier], name)]))
  {
  }

  /** Only the `void` keyword is void: a type parameter, `int`, and even a
      pointer to `void` return a value. */
  lemma OnlyVoidKeywordIsVoid(m: MethodDeclaration)
    requires m.returnType in {IdentifierName("T"), PredefinedType(IntKeyword), PointerType(PredefinedType(VoidKeyword))}
    ensures !MethodIsVoidReturn(m)
  {
  }

  /** A `return` nested in an `if` or an inner block is not seen: such a
      lambda counts as returning nothing. */
  lemma NestedReturnNotSeen(inner: seq<Statement>)
    ensures AnonymousFunctionIsVoidReturn(BlockBody([IfStatement(ReturnStatement(true), None), Block(inner)]))
  {
  }

  /** A bare `return;` counts as a return, so a lambda ending in one is
      taken to return a value. */
  lemma ValuelessReturnIsReturn(prefix: seq<Statement>)
    ensures !AnonymousFunctionIsVoidReturn(BlockBody(prefix + [ReturnStatement(false)]))
  {
    assert (prefix + [ReturnStatement(false)])[|prefix|].ReturnStatement?;
  }

  /** `T GenericCommandQuery<T>(T para)` is reported at its identifier. */
  lemma GenericCommandQueryReported(identifier: SyntaxToken, span: TextSpan)
    ensures Analyze(MethodContext(
              MethodDeclaration(IdentifierName("T"), identifier, [Parameter([], "para")], span), [])) ==
            [Diagnostic("CQSAnalyzer", "Method is Command AND Query!", Warning, identifier.span)]
  {
  }

  /** `bool ExtensionQueryMethod(this string param)` is not reported, while
      `bool ExtensionCommandAndQueryMethod(this string param, int u)` is,
      unless it carries `[JetBrains.Annotations.Pure]`. */
  lemma ExtensionMethodVerdicts(identifier: SyntaxToken, span: TextSpan)
    ensures Analyze(MethodContext(
              MethodDeclaration(PredefinedType(BoolKeyword), identifier,
                                [Parameter([ThisKeyword], "param")], span), [])) == []
    ensures |Analyze(MethodContext(
               MethodDeclaration(PredefinedType(BoolKeyword), identifier,
                                 [Parameter([ThisKeyword], "param"), Parameter([], "u")], span), []))| == 1
    ensures Analyze(MethodContext(
              MethodDeclaration(PredefinedType(BoolKeyword), identifier,
                                [Parameter([ThisKeyword], "param"), Parameter([], "u")], span),
              ["JetBrains.Annotations.PureAttribute"])) == []
  {
  }

  /** `(int r) => { return 0; }` and `r => { return 0; }` are reported;
      `() => { return 0; }` and `r => { }` are not. */
  lemma LambdaVerdicts(span: TextSpan, r: Parameter, s: Symbol)
    ensures |Analyze(SyntaxNodeAnalysisContext(ParenthesizedLambdaNode(
               ParenthesizedLambdaExpression([r], BlockBody([ReturnStatement(true)]), span)), s))| == 1
    ensures |Analyze(SyntaxNodeAnalysisContext(SimpleLambdaNode(
               SimpleLambdaExpression(Some(r), BlockBody([ReturnStatement(true)]), span)), s))| == 1
    ensures Analyze(SyntaxNodeAnalysisContext(ParenthesizedLambdaNode(
              ParenthesizedLambdaExpression([], BlockBody([ReturnStatement(true)]), span)), s)) == []
    ensures Analyze(SyntaxNodeAnalysisContext(SimpleLambdaNode(
              SimpleLambdaExpression(Some(r), BlockBody([]), span)), s)) == []
  {
    var body := BlockBody([ReturnStatement(true)]);
    assert body.statements[0].ReturnStatement?;
  }
}

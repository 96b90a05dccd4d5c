/** The CQS rule: a callable unit that returns a value AND takes an
    observable parameter is both a query and a command, and gets one
    warning. Methods marked pure are exempt; lambdas never are. */
module Analyzer {
  import opened Syntax
  import opened Extensions

  datatype DiagnosticSeverity = Hidden | Info | Warning | Error

  datatype DiagnosticDescriptor = DiagnosticDescriptor(
    id: string,
    title: string,
    messageFormat: string,
    category: string,
    defaultSeverity: DiagnosticSeverity,
    isEnabledByDefault: bool,
    description: string)

  const DiagnosticId: string := "CQSAnalyzer"
  const Title: string := "This analyzer checks if your methods are violating Command-Query-Seperation."
  const MessageFormat: string := "Method is Command AND Query!"
  const Description: string := "This analyzer checks if your methods are violating Command-Query-Seperation."
  const Category: string := "Style"

  /** The one rule the analyzer supports. */
  const Rule: DiagnosticDescriptor :=
    DiagnosticDescriptor(DiagnosticId, Title, MessageFormat, Category, Warning, true, Description)

  /** A reported finding. */
  datatype Diagnostic = Diagnostic(id: string, message: string, severity: DiagnosticSeverity, location: TextSpan)

  /** Creating a diagnostic from a descriptor takes its id, its message (the
      format has no placeholders) and its default severity. */
  function CreateDiagnostic(descriptor: DiagnosticDescriptor, location: TextSpan): Diagnostic
  {
    Diagnostic(descriptor.id, descriptor.messageFormat, descriptor.defaultSeverity, location)
  }

  /** What the host hands to a registered action: the node, and the symbol
      the semantic model declares for it. */
  datatype SyntaxNodeAnalysisContext = SyntaxNodeAnalysisContext(node: SyntaxNode, declaredSymbol: Symbol)

  /** Some statement directly in the block is a `return`. This and the
      predicates after it define a violation in terms of the written shape
      alone, independently of the shape tests the actions use. */
  predicate HasTopLevelReturn(statements: seq<Statement>)
  {
    exists i :: 0 <= i < |statements| && statements[i].ReturnStatement?
  }

  /** Some parameter does not carry the `this` modifier. */
  predicate HasObservableParameter(parameters: seq<Parameter>)
  {
    exists i :: 0 <= i < |parameters| && ThisKeyword !in parameters[i].modifiers
  }

  predicate IsPureMarker(attribute: string)
  {
    attribute == SystemDiagnosticsContractsPureAttribute || attribute == JetbrainsAnnotationsPureAttribute
  }

  /** The unit is both a command (takes an observable input) and a query
      (returns a value), and nothing exempts it. */
  predicate IsCommandAndQuery(context: SyntaxNodeAnalysisContext)
  {
    match context.node
    case MethodNode(m) =>
      && m.returnType != PredefinedType(VoidKeyword)
      && HasObservableParameter(m.parameters)
      && !(exists a :: a in context.declaredSymbol.attributes && IsPureMarker(a))
    case SimpleLambdaNode(l) =>
      l.body.BlockBody? && HasTopLevelReturn(l.body.statements) && l.parameter.Some?
    case ParenthesizedLambdaNode(l) =>
      l.body.BlockBody? && HasTopLevelReturn(l.body.statements) && |l.parameters| > 0
    case OtherNode(_, _) => false
  }

  /** Where a finding for the node is placed: a method's identifier, a
      lambda's whole span. */
  function ReportLocation(node: SyntaxNode): TextSpan
  {
    match node
    case MethodNode(m) => m.identifier.span
    case SimpleLambdaNode(l) => l.span
    case ParenthesizedLambdaNode(l) => l.span
    case OtherNode(_, s) => s
  }

  /** The finding the rule emits for a node. */
  predicate IsRuleFindingAt(d: Diagnostic, location: TextSpan)
  {
    && d.id == "CQSAnalyzer"
    && d.message == "Method is Command AND Query!"
    && d.severity == Warning
    && d.location == location
  }

  /** A node the analyzer can process without its cast failing: every lambda
      has a block body. */
  predicate Analyzable(node: SyntaxNode)
  {
    match node
    case SimpleLambdaNode(l) => l.body.BlockBody?
    case ParenthesizedLambdaNode(l) => l.body.BlockBody?
    case _ => true
  }

  /** The action registered for method declarations. */
  function AnalyzeMethod(methodDeclaration: MethodDeclaration, declaredSymbol: Symbol): (r: seq<Diagnostic>)
    ensures |r| <= 1
    ensures |r| == 1 <==>
      IsCommandAndQuery(SyntaxNodeAnalysisContext(MethodNode(methodDeclaration), declaredSymbol))
    ensures |r| == 1 ==> IsRuleFindingAt(r[0], methodDeclaration.identifier.span)
  {
    if MethodIsVoidReturn(methodDeclaration) then []
    else if MethodHasNoParameters(methodDeclaration) then []
    else if HasPureAttribute(declaredSymbol) then []
    else [CreateDiagnostic(Rule, methodDeclaration.identifier.span)]
  }

  /** The action registered for simple lambdas. */
  function AnalyzeSimpleLambda(lambda: SimpleLambdaExpression): (r: seq<Diagnostic>)
    requires lambda.body.BlockBody?
    ensures |r| <= 1
    ensures |r| == 1 <==> HasTopLevelReturn(lambda.body.statements) && lambda.parameter.Some?
    ensures |r| == 1 ==> IsRuleFindingAt(r[0], lambda.span)
  {
    if AnonymousFunctionIsVoidReturn(lambda.body) then []
    else if SimpleLambdaHasNoParameters(lambda) then []
    else [CreateDiagnostic(Rule, lambda.span)]
  }

  /** The action registered for parenthesized lambdas. */
  function AnalyzeLambda(lambda: ParenthesizedLambdaExpression): (r: seq<Diagnostic>)
    requires lambda.body.BlockBody?
    ensures |r| <= 1
    ensures |r| == 1 <==> HasTopLevelReturn(lambda.body.statements) && |lambda.parameters| > 0
    ensures |r| == 1 ==> IsRuleFindingAt(r[0], lambda.span)
  {
    if AnonymousFunctionIsVoidReturn(lambda.body) then []
    else if ParenthesizedLambdaHasNoParameters(lambda) then []
    else [CreateDiagnostic(Rule, lambda.span)]
  }

  /** The three actions the analyzer registers with the host. */
  datatype Action = AnalyzeMethodAction | AnalyzeSimpleLambdaAction | AnalyzeLambdaAction

  /** The node kind an action casts its node to. */
  function CastKind(action: Action): SyntaxKind
  {
    match action
    case AnalyzeMethodAction => MethodDeclarationKind
    case AnalyzeSimpleLambdaAction => SimpleLambdaExpressionKind
    case AnalyzeLambdaAction => ParenthesizedLambdaExpressionKind
  }

  datatype Registration = Registration(action: Action, kind: SyntaxKind)

  /** The registrations the analyzer makes when the host initialises it. */
  const Registrations: seq<Registration> := [
    Registration(AnalyzeMethodAction, MethodDeclarationKind),
    Registration(AnalyzeSimpleLambdaAction, SimpleLambdaExpressionKind),
    Registration(AnalyzeLambdaAction, ParenthesizedLambdaExpressionKind)
  ]

  /** Each registration is for the kind its action casts to. */
  predicate WellTyped(registrations: seq<Registration>)
  {
    forall i :: 0 <= i < |registrations| ==> CastKind(registrations[i].action) == registrations[i].kind
  }

  function RunAction(action: Action, context: SyntaxNodeAnalysisContext): (r: seq<Diagnostic>)
    requires CastKind(action) == Kind(context.node)
    requires Analyzable(context.node)
    ensures |r| <= 1
    ensures |r| == 1 <==> IsCommandAndQuery(context)
    ensures |r| == 1 ==> IsRuleFindingAt(r[0], ReportLocation(context.node))
  {
    match action
    case AnalyzeMethodAction => AnalyzeMethod(context.node.declaration, context.declaredSymbol)
    case AnalyzeSimpleLambdaAction => AnalyzeSimpleLambda(context.node.simple)
    case AnalyzeLambdaAction => AnalyzeLambda(context.node.parenthesized)
  }

  /** The host runs, in order, every registered action whose kind is the
      node's kind, and collects what they report. */
  function Dispatch(registrations: seq<Registration>, context: SyntaxNodeAnalysisContext): (r: seq<Diagnostic>)
    requires WellTyped(registrations)
    requires Analyzable(context.node)
    ensures forall j :: 0 <= j < |r| ==> IsRuleFindingAt(r[j], ReportLocation(context.node))
    ensures |r| > 0 ==> IsCommandAndQuery(context)
  {
    if |registrations| == 0 then []
    else
      var head := registrations[0];
      var first := if head.kind == Kind(context.node) then RunAction(head.action, context) else [];
      first + Dispatch(registrations[1..], context)
  }

  /** The whole analysis of one node, as the host drives it. */
  function Analyze(context: SyntaxNodeAnalysisContext): (r: seq<Diagnostic>)
    requires Analyzable(context.node)
    ensures |r| <= 1
    ensures |r| == 1 <==> IsCommandAndQuery(context)
    ensures forall j :: 0 <= j < |r| ==> IsRuleFindingAt(r[j], ReportLocation(context.node))
  {
    DispatchSelectsOneAction(context);
    Dispatch(Registrations, context)
  }

  /** Over the registration table, dispatch runs exactly the action
      registered for the node's kind, and nothing for any other kind. */
  lemma DispatchSelectsOneAction(context: SyntaxNodeAnalysisContext)
    requires Analyzable(context.node)
    ensures WellTyped(Registrations)
    ensures context.node.MethodNode? ==>
      Dispatch(Registrations, context) == AnalyzeMethod(context.node.declaration, context.declaredSymbol)
    ensures context.node.SimpleLambdaNode? ==>
      Dispatch(Registrations, context) == AnalyzeSimpleLambda(context.node.simple)
    ensures context.node.ParenthesizedLambdaNode? ==>
      Dispatch(Registrations, context) == AnalyzeLambda(context.node.parenthesized)
    ensures context.node.OtherNode? ==> Dispatch(Registrations, context) == []
  {
    var regs := Registrations;
    assert regs[1..][1..][1..] == [];
    var d3 := Dispatch(regs[1..][1..][1..], context);
    var d2 := Dispatch(regs[1..][1..], context);
    var d1 := Dispatch(regs[1..], context);
    var d0 := Dispatch(regs, context);
    assert d3 == [];
    match context.node
    case MethodNode(m) =>
      assert d2 == [] && d1 == [];
      assert d0 == AnalyzeMethod(m, context.declaredSymbol) + [];
    case SimpleLambdaNode(l) =>
      assert d2 == [];
      assert d1 == AnalyzeSimpleLambda(l) + [];
      assert d0 == [] + d1;
    case ParenthesizedLambdaNode(l) =>
      assert d2 == AnalyzeLambda(l) + [];
      assert d0 == [] + ([] + d2);
    case OtherNode(_, _) =>
      assert d0 == [] + ([] + ([] + []));
  }
}

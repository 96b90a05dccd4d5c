/** The shape tests the analyzer applies to a callable unit: is it marked
    pure, does it return nothing, does it take an observable parameter. */
module Extensions {
  import opened Syntax
  import Linq

  const SystemDiagnosticsContractsPureAttribute: string := "System.Diagnostics.Contracts.PureAttribute"
  const JetbrainsAnnotationsPureAttribute: string := "JetBrains.Annotations.PureAttribute"

  /** True iff one of the symbol's attributes renders exactly as one of the
      two recognised pure-marker names. */
  function HasPureAttribute(declaredSymbol: Symbol): (r: bool)
    ensures r <==> SystemDiagnosticsContractsPureAttribute in declaredSymbol.attributes
                   || JetbrainsAnnotationsPureAttribute in declaredSymbol.attributes
  {
    Linq.Any(declaredSymbol.attributes,
             a => a == SystemDiagnosticsContractsPureAttribute || a == JetbrainsAnnotationsPureAttribute)
  }

  /** A method returns nothing iff its return type is written as the
      predefined keyword `void`. */
  function MethodIsVoidReturn(methodDeclaration: MethodDeclaration): (r: bool)
    ensures r <==> methodDeclaration.returnType == PredefinedType(VoidKeyword)
  {
    var nonGenericReturn := AsPredefinedType(methodDeclaration.returnType);
    nonGenericReturn.Some? && nonGenericReturn.value == VoidKeyword
  }

  /** A block-bodied lambda returns nothing iff none of the statements
      directly in its block is a `return`. The body must be a block: any
      other body makes the source's cast fail. */
  function AnonymousFunctionIsVoidReturn(body: AnonymousFunctionBody): (r: bool)
    requires body.BlockBody?
    ensures r <==> forall i :: 0 <= i < |body.statements| ==> !body.statements[i].ReturnStatement?
  {
    !Linq.Any(body.statements, (s: Statement) => s.ReturnStatement?)
  }

  /** A parameter is observable iff it carries no `this` modifier. */
  predicate IsObservableParameter(p: Parameter)
  {
    Linq.All(p.modifiers, (pm: ParameterModifier) => pm != ThisKeyword)
  }

  /** A method counts as parameterless iff every parameter carries a `this`
      modifier: an empty list, or an extension receiver alone. */
  function MethodHasNoParameters(methodDeclaration: MethodDeclaration): (r: bool)
    ensures r <==> forall i :: 0 <= i < |methodDeclaration.parameters| ==>
                     ThisKeyword in methodDeclaration.parameters[i].modifiers
  {
    var ps := methodDeclaration.parameters;
    var any := Linq.Any(ps, IsObservableParameter);
    assert any <==> exists i :: 0 <= i < |ps| && ThisKeyword !in ps[i].modifiers by {
      forall i | 0 <= i < |ps|
        ensures IsObservableParameter(ps[i]) <==> ThisKeyword !in ps[i].modifiers
      {
        ObservableIffNoThis(ps[i]);
      }
    }
    !any
  }

  lemma ObservableIffNoThis(p: Parameter)
    ensures IsObservableParameter(p) <==> ThisKeyword !in p.modifiers
  {
  }

  /** A simple lambda counts as parameterless iff its parameter is absent. */
  function SimpleLambdaHasNoParameters(lambda: SimpleLambdaExpression): (r: bool)
    ensures r <==> lambda.parameter.None?
  {
    lambda.parameter == None
  }

  /** A parenthesized lambda counts as parameterless iff its list is empty. */
  function ParenthesizedLambdaHasNoParameters(lambda: ParenthesizedLambdaExpression): (r: bool)
    ensures r <==> |lambda.parameters| == 0
  {
    !Linq.Any(lambda.parameters, (p: Parameter) => true)
  }
}

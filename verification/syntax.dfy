/** The slice of the C# syntax tree and symbol model that the analyzer looks
    at. The parser and the symbol binder are outside the model: a host hands
    over values of these types already built. */
module Syntax {

  datatype Option<T> = None | Some(value: T)

  /** A position in the source text; concrete line/column mapping is the host's. */
  datatype TextSpan = TextSpan(start: nat, length: nat)

  datatype SyntaxToken = SyntaxToken(text: string, span: TextSpan)

  /** Keywords that name a predefined type (`PredefinedTypeSyntax`). */
  datatype PredefinedKeyword =
    | VoidKeyword | BoolKeyword | ByteKeyword | SByteKeyword | CharKeyword
    | ShortKeyword | UShortKeyword | IntKeyword | UIntKeyword | LongKeyword
    | ULongKeyword | FloatKeyword | DoubleKeyword | DecimalKeyword
    | StringKeyword | ObjectKeyword

  /** The written shape of a type: `void` and `int` are predefined types,
      `T` is an identifier name, `List<T>` a generic name, and so on. */
  datatype TypeSyntax =
    | PredefinedType(keyword: PredefinedKeyword)
    | IdentifierName(identifier: string)
    | GenericName(identifier: string, typeArguments: seq<TypeSyntax>)
    | QualifiedName(left: TypeSyntax, right: string)
    | ArrayType(elementType: TypeSyntax)
    | NullableType(elementType: TypeSyntax)
    | PointerType(elementType: TypeSyntax)
    | TupleType(elements: seq<TypeSyntax>)
    | RefType(elementType: TypeSyntax)

  /** The C# `as PredefinedTypeSyntax` conversion: the keyword when the type
      is a predefined type, nothing otherwise. */
  function AsPredefinedType(t: TypeSyntax): Option<PredefinedKeyword>
  {
    match t
    case PredefinedType(k) => Some(k)
    case _ => None
  }

  datatype ParameterModifier = ThisKeyword | RefKeyword | OutKeyword | InKeyword | ParamsKeyword

  datatype Parameter = Parameter(modifiers: seq<ParameterModifier>, identifier: string)

  /** Statements, with nesting: a `return` inside an `if` or a nested block
      is not a statement of the enclosing block's own list. */
  datatype Statement =
    | ReturnStatement(hasExpression: bool)
    | ExpressionStatement
    | LocalDeclarationStatement
    | Block(statements: seq<Statement>)
    | IfStatement(thenStatement: Statement, elseStatement: Option<Statement>)
    | WhileStatement(body: Statement)

  /** The body of a lambda: a `{ ... }` block or a bare expression. */
  datatype AnonymousFunctionBody =
    | BlockBody(statements: seq<Statement>)
    | ExpressionBody

  datatype MethodDeclaration =
    MethodDeclaration(returnType: TypeSyntax, identifier: SyntaxToken, parameters: seq<Parameter>, span: TextSpan)

  /** `x => ...`; the parameter is optional as far as the analyzer is concerned. */
  datatype SimpleLambdaExpression =
    SimpleLambdaExpression(parameter: Option<Parameter>, body: AnonymousFunctionBody, span: TextSpan)

  /** `(a, b) => ...` and `() => ...`. */
  datatype ParenthesizedLambdaExpression =
    ParenthesizedLambdaExpression(parameters: seq<Parameter>, body: AnonymousFunctionBody, span: TextSpan)

  /** Node kinds the analyzer does not register for. */
  datatype OtherSyntaxKind =
    | ConstructorDeclaration | LocalFunctionStatement | AnonymousMethodExpression
    | PropertyDeclaration | OperatorDeclaration | ClassDeclaration

  datatype SyntaxKind =
    | MethodDeclarationKind
    | SimpleLambdaExpressionKind
    | ParenthesizedLambdaExpressionKind
    | Other(otherKind: OtherSyntaxKind)

  datatype SyntaxNode =
    | MethodNode(declaration: MethodDeclaration)
    | SimpleLambdaNode(simple: SimpleLambdaExpression)
    | ParenthesizedLambdaNode(parenthesized: ParenthesizedLambdaExpression)
    | OtherNode(nodeKind: OtherSyntaxKind, nodeSpan: TextSpan)

  function Kind(node: SyntaxNode): SyntaxKind
  {
    match node
    case MethodNode(_) => MethodDeclarationKind
    case SimpleLambdaNode(_) => SimpleLambdaExpressionKind
    case ParenthesizedLambdaNode(_) => ParenthesizedLambdaExpressionKind
    case OtherNode(k, _) => Other(k)
  }

  /** A declared symbol as the binder reports it; each attribute is already
      rendered to its display string. */
  datatype Symbol = Symbol(attributes: seq<string>)
}

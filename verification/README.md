# CQSAnalyzer — a Dafny model of the shape-based Command/Query rule

CQSAnalyzer is a C# compiler analyzer. It checks Command-Query Separation.
A callable unit that returns a value is a *query*. One that takes an
observable input is treated as a *command*. A unit that is both gets one
warning, `CQSAnalyzer`, "Method is Command AND Query!".

The analyzer registers for three node kinds: method declarations, simple
lambdas (`x => { ... }`) and parenthesized lambdas (`(a, b) => { ... }`).
For each node it applies three tests, all on the written shape:

- **Return shape.** A method returns nothing iff its return type is the
  predefined keyword `void`. A block lambda returns nothing iff no statement
  directly in its block is a `return`.
- **Observable parameters.** A method parameter counts unless it carries
  `this`, so an extension receiver does not count. A simple lambda counts if
  its parameter is present. A parenthesized lambda counts if its list is
  non-empty.
- **Pure marker.** A method whose symbol carries
  `System.Diagnostics.Contracts.PureAttribute` or
  `JetBrains.Annotations.PureAttribute` is exempt. Lambdas are never exempt.

Files:

- `syntax.dfy` (module `Syntax`): the syntax and symbol shapes the analyzer
  reads: types, parameters, statements, lambda bodies, the three unit kinds
  and the other node kinds.
- `linq.dfy` (module `Linq`): `Any` and `All`, each proved equal to its
  quantifier.
- `extensions.dfy` (module `Extensions`): the shape tests of `Extensions.cs`.
- `analyzer.dfy` (module `Analyzer`): the rule descriptor, the three actions,
  the registration table and the host's dispatch over it. It also holds a
  reference definition, `IsCommandAndQuery`, written in terms of the raw
  shape. The actions' contracts are proved against it.
- `properties.dfy` (module `Properties`): lemmas relating several inputs,
  edge cases, and the verdicts on the units used in the repository's tests.

An expression-bodied lambda makes the cast at
CQSAnalyzer/CQSAnalyzer/Extensions.cs:28 fail, so the model requires every
lambda to have a block body (`Analyzable`). The analyzer has one rule at one
severity, Warning, and does not scan method or lambda bodies for writes or
calls.

## Model

| member | source | states |
|---|---|---|
| `Extensions.HasPureAttribute` | CQSAnalyzer/CQSAnalyzer/Extensions.cs:11-17 | True iff some attribute equals exactly one of the two pure-marker names. |
| `Extensions.MethodIsVoidReturn` | CQSAnalyzer/CQSAnalyzer/Extensions.cs:20-24 | True iff the return type is the predefined type `void`; every other type, including generic and named ones, is non-void. |
| `Extensions.AnonymousFunctionIsVoidReturn` | CQSAnalyzer/CQSAnalyzer/Extensions.cs:26-29 | For a block body only: true iff no statement directly in the block is a `return`. |
| `Extensions.MethodHasNoParameters` | CQSAnalyzer/CQSAnalyzer/Extensions.cs:31-34 | True iff every parameter carries the `this` modifier. |
| `Extensions.SimpleLambdaHasNoParameters` | CQSAnalyzer/CQSAnalyzer/Extensions.cs:36-39 | True iff the simple lambda has no parameter. |
| `Extensions.ParenthesizedLambdaHasNoParameters` | CQSAnalyzer/CQSAnalyzer/Extensions.cs:41-44 | True iff the parameter list is empty. |
| `Analyzer.AnalyzeMethod` | CQSAnalyzer/CQSAnalyzer/DiagnosticAnalyzer.cs:42-63 | At most one finding. There is one iff the return type is not `void`, some parameter lacks `this`, and no attribute is a pure marker. The finding sits at the method's identifier. |
| `Analyzer.AnalyzeSimpleLambda` | CQSAnalyzer/CQSAnalyzer/DiagnosticAnalyzer.cs:65-80 | At most one finding. There is one iff the block has a top-level `return` and the parameter is present. The finding covers the whole lambda. |
| `Analyzer.AnalyzeLambda` | CQSAnalyzer/CQSAnalyzer/DiagnosticAnalyzer.cs:82-97 | At most one finding. There is one iff the block has a top-level `return` and the parameter list is non-empty. The finding covers the whole lambda. |
| `Analyzer.RunAction` | CQSAnalyzer/CQSAnalyzer/DiagnosticAnalyzer.cs:42-97 | Runs a registered action on a node of the kind it casts to. It reports at most one finding, and one iff the unit is both command and query. |
| `Analyzer.Dispatch` | CQSAnalyzer/CQSAnalyzer/DiagnosticAnalyzer.cs:35-40 | For a table whose entries are keyed by the kinds their actions cast to, every finding is the rule's warning at the node's report location. Findings occur only for a unit that is both command and query. |
| `Analyzer.DispatchSelectsOneAction` | CQSAnalyzer/CQSAnalyzer/DiagnosticAnalyzer.cs:35-40 | Over the three registrations, a method runs exactly `AnalyzeMethod`, and each lambda kind runs exactly its own action. Any other node kind runs nothing. |
| `Analyzer.Analyze` | CQSAnalyzer/CQSAnalyzer/DiagnosticAnalyzer.cs:15-97 | A node gets at most one finding, and one iff it is both command and query. Every finding has id `CQSAnalyzer`, severity Warning and the fixed message, and sits at the node's report location. |
| `Properties.VoidMethodNeverReported` | CQSAnalyzer/CQSAnalyzer/DiagnosticAnalyzer.cs:46-49 | A `void` method gets no finding, whatever its parameters or attributes. |
| `Properties.NoObservableParameterNeverReported` | CQSAnalyzer/CQSAnalyzer/DiagnosticAnalyzer.cs:51-54 | A unit without an observable parameter gets no finding, whatever it returns. This covers a method whose parameters all carry `this`, a simple lambda without a parameter and an empty parenthesized lambda. |
| `Properties.UnregisteredKindYieldsNothing` | CQSAnalyzer/CQSAnalyzer/DiagnosticAnalyzer.cs:37-39 | A node of any kind other than the three registered ones gets no finding. |
| `Properties.LambdaIgnoresAttributes` | CQSAnalyzer/CQSAnalyzer/DiagnosticAnalyzer.cs:65-97 | A lambda's verdict does not depend on its symbol's attributes, so a pure marker never exempts a lambda. |
| `Properties.PureMarkerExemptsMethod` | CQSAnalyzer/CQSAnalyzer/DiagnosticAnalyzer.cs:56-60 | Appending either recognised pure marker to a method's attributes removes its finding. |
| `Properties.HasPureAttributeMonotone` | CQSAnalyzer/CQSAnalyzer/Extensions.cs:14-17 | Adding attributes on either side can only turn the pure test from false to true. |
| `Properties.MoreAttributesNeverAddFindings` | CQSAnalyzer/CQSAnalyzer/DiagnosticAnalyzer.cs:56-62 | Adding attributes to a method never increases its number of findings. |
| `Properties.AppendObservableParameter` | CQSAnalyzer/CQSAnalyzer/Extensions.cs:31-34 | Appending a parameter without `this` makes the method's no-parameter test false. |
| `Properties.ReceiverAloneIsNoParameter` | CQSAnalyzer/CQSAnalyzer/Extensions.cs:31-34 | A method whose only parameter is an extension receiver counts as parameterless. So does a method with no parameters. |
| `Properties.ModifiedParametersAreObservable` | CQSAnalyzer/CQSAnalyzer/Extensions.cs:31-34 | A lone `ref`, `out`, `in` or `params` parameter is observable. |
| `Properties.OnlyVoidKeywordIsVoid` | CQSAnalyzer/CQSAnalyzer/Extensions.cs:20-24 | The return types `T`, `int` and `void*` are all non-void. |
| `Properties.NestedReturnNotSeen` | CQSAnalyzer/CQSAnalyzer/Extensions.cs:26-29 | A lambda block whose only `return` sits inside an `if` counts as void. So does one whose `return` sits inside an inner block. |
| `Properties.ValuelessReturnIsReturn` | CQSAnalyzer/CQSAnalyzer/Extensions.cs:26-29 | A block ending in a bare `return;` counts as returning a value. |
| `Properties.GenericCommandQueryReported` | CQSAnalyzer/CQSAnalyzer.Test/GenericsTests.cs:22-41 | `T GenericCommandQuery<T>(T para)` gets exactly the rule's warning at its identifier. |
| `Properties.ExtensionMethodVerdicts` | CQSAnalyzer/CQSAnalyzer.Test/ExtensionMethodTests.cs:13-101 | An extension query with only its receiver gets no finding. Adding `int u` gives one finding. A JetBrains pure marker removes it. |
| `Properties.LambdaVerdicts` | CQSAnalyzer/CQSAnalyzer.Test/LambdaTests.cs:13-116 | `(int r) => { return 0; }` and `r => { return 0; }` get one finding each. `() => { return 0; }` and `r => { }` get none. |

## Left out

- Expression-bodied lambdas: the source's cast to a block fails on them, so every lambda operation requires a block body and the failure itself is not modelled.
- Host plumbing: analyzer registration with the compiler, `GetDeclaredSymbol`, `Diagnostic.Create`'s location objects and line/column mapping. Locations are abstract text spans, and the declared symbol is an input of the analysis context.
- Attribute rendering: `ToString()` on attribute data belongs to the compiler; each attribute is given as its rendered string.
- Descriptor fields that no contract constrains (title, category, description, enabled-by-default) are modelled as constants only.
- Concurrent invocation by the host: each analysis is a pure function of one context.
- Test expectations the analyzer does not meet. They are not modelled:
  - CQSAnalyzer/CQSAnalyzer.Test/ComplexTest.cs:13-53 expects a finding on `void QueryWithWrite(int p1, ref int p_ref, out int p_out)`, a void method with field and property writes. `AnalyzeMethod` returns nothing for a void method.
  - CQSAnalyzer/CQSAnalyzer.Test/ComplexTest.cs:56-89 expects a finding on `int QueryWithWrite()`, a non-void method with no parameters that writes a field. `AnalyzeMethod` returns nothing for it, because the method has no parameters.
  - CQSAnalyzer/CQSAnalyzer.Test/ComplexTest.cs:43 reads a member `CanTDetermineIfMethodShouldBeCommandOrQuery` that the analyzer does not declare.
  - CQSAnalyzer/CQSAnalyzer.Test/ComplexTest.cs:79 and CQSAnalyzer/CQSAnalyzer.Test/ExtensionMethodTests.cs:70 expect the message "Can't determine if method should be command or query". The analyzer's only message is "Method is Command AND Query!".

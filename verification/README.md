# DevExpress MVVM code generators: framework detection and symbol resolution

This project models the resolution layer of the DevExpress MVVM source generator
and proves properties of that model in Dafny.

For each compilation, the generator builds a `ContextInfo`. It decides which MVVM
frameworks the compilation references: DevExpress (`Dx`), Prism and MvvmLight, or
`None` when none of them is referenced. It also decides whether the DevExpress
WinUI profile is in use. It then resolves one attribute table per detected
framework and five framework-agnostic symbols, and answers
`GetFrameworkAttributes` queries. Separately, the `SyntaxContextReceiver` collects
the class declarations it is shown during the syntax pass.

Modelling choices:

- A Roslyn `Compilation` is the set of metadata names it can resolve.
  `GetTypeByMetadataName` (module `Compilations`) returns `Some(name)` when the
  name is in that set and `None` (null) otherwise. A type symbol is its name.
- Every lookup is an `Option`, the required ones included. The source's `!`
  checks nothing at run time, so a "required" symbol can still be null.
- A null table is `Option.None`, and so is a null result of `GetFrameworkAttributes`.
  Only an integer outside the four named enum values throws
  (`GetFrameworkAttributesOfValue`).
- `GetFrameworkAttributes` returns the selected table seen through its
  `FrameworkAttributes` type, the method's declared C# return type: the three
  attribute symbols, without the framework-specific fields.
- The three attribute namespaces (`InitializationGenerator.DxNamespace`,
  `PrismNamespace` and `MvvmLightNamespace`) are defined outside this code. They
  are a `Namespaces` parameter, and no proof assumes they differ.
- `SupportedMvvm.None` and `Option.None` are written qualified because the two
  names clash.
- A syntax node is an id plus an `isClass` tag. The receiver is an immutable
  record, and `OnVisitSyntaxNode` returns the updated receiver.

Behaviour of the code worth knowing:

- Asking for `Prism` or `MvvmLight` when it is not detected yields null, not an exception. `Dx` and `None` are answered from the DevExpress table, which is null only when only Prism and/or MvvmLight are detected (`DevExpress.Mvvm.CodeGenerators/Info/ContextInfo.cs:81-82`, `96-99`; lemma `FrameworkAttributesFollowDetection`).
- `GetFrameworkAttributes(None)` and `GetFrameworkAttributes(Dx)` are null when only Prism and/or MvvmLight are detected (lemmas `FrameworkAttributesFollowDetection` and `TablesFollowMarkers`; `OnlyPrismReferenced` shows the Prism-only case), yet non-null for `Dx` when nothing is detected (lemma `NoneUsesClassicDxTable`).
- A required symbol that does not resolve is stored as null; there is no separate fatal path.
- `IsWinUI` is computed for every compilation and is false whenever DevExpress is not detected.

## Model

| member | source | states |
|---|---|---|
| ContextInfo.SupportedMvvmOfValue | DevExpress.Mvvm.CodeGenerators/Info/ContextInfo.cs:121-126 | exactly the values 0..3 name an enum member, and the member found has that value |
| ContextInfoProperties.ValueRoundTrip | DevExpress.Mvvm.CodeGenerators/Info/ContextInfo.cs:121-126 | every enum member is recovered from its underlying value |
| ContextInfo.GetIsDxMvvmAvailable | DevExpress.Mvvm.CodeGenerators/Info/ContextInfo.cs:104 | true iff `DevExpress.Mvvm.DelegateCommand` resolves |
| ContextInfo.GetIsPrismAvailable | DevExpress.Mvvm.CodeGenerators/Info/ContextInfo.cs:105 | true iff `Prism.Commands.DelegateCommand` resolves |
| ContextInfo.GetIsMvvmLightAvailable | DevExpress.Mvvm.CodeGenerators/Info/ContextInfo.cs:106 | true iff `GalaSoft.MvvmLight.Command.RelayCommand` resolves |
| ContextInfo.GetAvailableMvvm | DevExpress.Mvvm.CodeGenerators/Info/ContextInfo.cs:108-119 | each framework is listed iff its marker type resolves; `None` is listed iff no marker resolves; the list is in enum order without duplicates; it is `[None]` or a non-empty list without `None` |
| ContextInfoProperties.AvailableMvvmIsCanonical | DevExpress.Mvvm.CodeGenerators/Info/ContextInfo.cs:108-119 | any ordered list whose members are exactly the detected frameworks is the list `GetAvailableMvvm` returns |
| ContextInfoProperties.ProbeInOrderMembers | DevExpress.Mvvm.CodeGenerators/Info/ContextInfo.cs:108-115 | probing markers in a given order records exactly the probed frameworks whose marker resolves |
| ContextInfoProperties.ProbeInOrderIsOrdered | DevExpress.Mvvm.CodeGenerators/Info/ContextInfo.cs:108-115 | probing in enum order yields a list in enum order |
| ContextInfoProperties.EnumOrderProbeIsAvailableMvvm | DevExpress.Mvvm.CodeGenerators/Info/ContextInfo.cs:108-119 | probing Dx, Prism, MvvmLight, with `None` as the fallback for an empty result, gives exactly `GetAvailableMvvm` |
| ContextInfoProperties.ProbeOrderIrrelevant | DevExpress.Mvvm.CodeGenerators/Info/ContextInfo.cs:108-119 | probing the three markers in any permutation detects the same frameworks |
| ContextInfo.GetIsMvvmLightCommandWpfAvalible | DevExpress.Mvvm.CodeGenerators/Info/ContextInfo.cs:107 | true iff the WPF `RelayCommand` type resolves |
| ContextInfoProperties.DetectionIgnoresCommandWpf | DevExpress.Mvvm.CodeGenerators/Info/ContextInfo.cs:107-119 | whether the WPF `RelayCommand` is present has no effect on the detected list |
| ContextInfo.GetIsWinUI | DevExpress.Mvvm.CodeGenerators/Info/ContextInfo.cs:103-104 | WinUI iff the DevExpress marker resolves and `DevExpress.Mvvm.POCO.ViewModelSource` does not |
| ContextInfoProperties.WinUIRequiresDx | DevExpress.Mvvm.CodeGenerators/Info/ContextInfo.cs:103-104 | WinUI implies DevExpress is detected, so WinUI is false for `[None]` |
| ContextInfo.NewFrameworkAttributes | DevExpress.Mvvm.CodeGenerators/Info/ContextInfo.cs:13-23 | the three attribute symbols resolve as `<ns>.GenerateViewModelAttribute`, `<ns>.GeneratePropertyAttribute` and `<ns>.GenerateCommandAttribute`, where `None` and `Dx` select the DevExpress namespace, `Prism` the Prism one and `MvvmLight` the MvvmLight one |
| ContextInfo.NewDXFrameworkAttributes | DevExpress.Mvvm.CodeGenerators/Info/ContextInfo.cs:30-41 | the base attributes are in the DevExpress namespace; `IDataErrorInfo` is always probed; WinUI: `ISupportUIServices`, no parent view model, cancellation token probed; classic: `ISupportServices`, parent view model probed, no cancellation token; parent view model and cancellation token are never both present |
| ContextInfo.NewPrismFrameworkAttributes | DevExpress.Mvvm.CodeGenerators/Info/ContextInfo.cs:45-48 | attributes in the Prism namespace plus `Prism.IActiveAware` |
| ContextInfo.NewMvmLightFrameWorkAttributes | DevExpress.Mvvm.CodeGenerators/Info/ContextInfo.cs:52-55 | attributes in the MvvmLight namespace plus `GalaSoft.MvvmLight.ICleanup` |
| ContextInfo.NewContextInfo | DevExpress.Mvvm.CodeGenerators/Info/ContextInfo.cs:74-94 | the detected list and WinUI flag come from detection; the DevExpress table exists iff `Dx` or `None` is detected, Prism's iff `Prism` is, MvvmLight's iff `MvvmLight` is; each existing table is built from the compilation alone, the DevExpress one in the detected profile; the five common symbols resolve unconditionally |
| ContextInfoProperties.TablesFollowMarkers | DevExpress.Mvvm.CodeGenerators/Info/ContextInfo.cs:81-86 | in terms of markers alone: the DevExpress table is missing iff its marker is absent and a Prism or MvvmLight marker is present; the Prism and MvvmLight tables exist iff their markers resolve |
| ContextInfoProperties.DxCapabilityGroupsExclusive | DevExpress.Mvvm.CodeGenerators/Info/ContextInfo.cs:33-40 | in a built context, a parent-view-model symbol implies the classic profile and no cancellation token; a cancellation token implies WinUI and no parent view model; the services symbol matches the profile |
| ContextInfo.GetFrameworkAttributes | DevExpress.Mvvm.CodeGenerators/Info/ContextInfo.cs:96-99 | `None` and `Dx` are answered from the DevExpress table, `Prism` and `MvvmLight` from their own tables; the result is null exactly when that table is null |
| ContextInfo.GetFrameworkAttributesOfValue | DevExpress.Mvvm.CodeGenerators/Info/ContextInfo.cs:96-101 | a value outside 0..3 throws `InvalidOperationException`; a named value gives the named member's answer |
| ContextInfoProperties.FrameworkAttributesFollowDetection | DevExpress.Mvvm.CodeGenerators/Info/ContextInfo.cs:79-99 | in a built context the answer for `m` is non-null iff a detected framework shares `m`'s table, and it then holds the attributes of the namespace `m` selects |
| ContextInfoProperties.NoneAndDxShareTable | DevExpress.Mvvm.CodeGenerators/Info/ContextInfo.cs:97 | `None` and `Dx` always get the same answer |
| ContextInfoProperties.NoneUsesClassicDxTable | DevExpress.Mvvm.CodeGenerators/Info/ContextInfo.cs:79-82 | when only `None` is detected, the DevExpress table exists, was built in the classic profile, and serves `None` with the DevExpress-namespace attributes; no other table exists |
| ContextInfoProperties.OnlyPrismReferenced | DevExpress.Mvvm.CodeGenerators/Info/ContextInfo.cs:81-99 | with only Prism's marker the list is `[Prism]`; `Dx`, `None` and `MvvmLight` queries are null; the Prism query returns the Prism-namespace attributes |
| ContextInfoProperties.DxAndPrismReferenced | DevExpress.Mvvm.CodeGenerators/Info/ContextInfo.cs:81-86 | with DevExpress and Prism markers only, the list is `[Dx, Prism]` and both tables exist, each built independently |
| ContextInfoProperties.DxTableIsLocal | DevExpress.Mvvm.CodeGenerators/Info/ContextInfo.cs:30-41 | the DevExpress table depends only on whether its own probed names resolve |
| ContextInfoProperties.PrismTableIsLocal | DevExpress.Mvvm.CodeGenerators/Info/ContextInfo.cs:45-48 | the Prism table depends only on whether its own probed names resolve |
| ContextInfoProperties.MvvmLightTableIsLocal | DevExpress.Mvvm.CodeGenerators/Info/ContextInfo.cs:52-55 | the MvvmLight table depends only on whether its own probed names resolve |
| ContextInfoProperties.ContextDependsOnlyOnProbedNames | DevExpress.Mvvm.CodeGenerators/Info/ContextInfo.cs:74-94 | two compilations that agree on every probed name give equal contexts, so building twice from one compilation gives equal results |
| ContextInfoProperties.AttributeSymbolsAreResolved | DevExpress.Mvvm.CodeGenerators/Info/ContextInfo.cs:20-22 | every non-null attribute symbol is one of its three qualified names and is in the compilation |
| ContextInfoProperties.DxSymbolsAreResolved | DevExpress.Mvvm.CodeGenerators/Info/ContextInfo.cs:32-39 | every non-null DevExpress table symbol is a DevExpress probed name in the compilation |
| ContextInfoProperties.CommonSymbolsAreResolved | DevExpress.Mvvm.CodeGenerators/Info/ContextInfo.cs:88-93 | every non-null common symbol is one of the five common names and is in the compilation |
| ContextInfoProperties.ContextSymbolsAreResolved | DevExpress.Mvvm.CodeGenerators/Info/ContextInfo.cs:74-94 | every non-null symbol in a context is a probed name the compilation resolves |
| SourceGenerator.NewSyntaxContextReceiver | DevExpress.Mvvm.CodeGenerators/SourceGenerator.cs:18 | a new receiver has no class syntaxes |
| SourceGenerator.OnVisitSyntaxNode | DevExpress.Mvvm.CodeGenerators/SourceGenerator.cs:21-25 | the old list is a prefix of the new one; a class node adds exactly itself at the end; any other node adds nothing; a receiver that holds only class nodes keeps holding only class nodes |
| SourceGenerator.ClassSyntaxesAreClassesOf | DevExpress.Mvvm.CodeGenerators/SourceGenerator.cs:18-24 | after visiting a sequence of nodes, `ClassSyntaxes` equals the visit-ordered filter of those nodes by `isClass`; for no nodes that is the empty list |
| SourceGenerator.ClassesOfMembers | DevExpress.Mvvm.CodeGenerators/SourceGenerator.cs:19-24 | a node is recorded iff it was visited and is a class declaration |
| SourceGenerator.VisitAllExtends | DevExpress.Mvvm.CodeGenerators/SourceGenerator.cs:23 | what one pass records is a prefix of what a longer pass records |
| SourceGenerator.VisitTwiceRecordsTwice | DevExpress.Mvvm.CodeGenerators/SourceGenerator.cs:23 | visiting the same class node twice records it twice |

## Left out

- `ViewModelGenerator.Initialize` and `Execute` (SourceGenerator.cs:7-15): Roslyn registration wiring. They delegate to `ViewModelGeneratorCore`, which is not part of this model.
- The `Context` and `Compilation` fields of `ContextInfo` and real `INamedTypeSymbol` identity: a symbol is the name it resolved from.
- The values of `InitializationGenerator.DxNamespace`, `PrismNamespace` and `MvvmLightNamespace`: `InitializationGenerator` is not part of this model, so the namespaces are a parameter.
- The throwing default arm of the namespace switch in the `FrameworkAttributes` constructor (ContextInfo.cs:18): the constructor is only ever called with `Dx`, `Prism` or `MvvmLight`, so `AttributeNamespace` takes the closed enum. The throwing arm of `GetFrameworkAttributes` is modelled by `GetFrameworkAttributesOfValue`.
- Mutability and object identity: `List<T>` fields and class instances are immutable values, and "the same table instance" becomes equality of values.
- Roslyn's syntax tree: a node is an id and a class tag, and the host's traversal is a sequence of visited nodes (`VisitAll`).

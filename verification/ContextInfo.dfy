/** Framework detection and symbol resolution of the DevExpress MVVM source generator
    (Info/ContextInfo.cs).

    Given what a compilation can resolve, the context decides which MVVM frameworks
    are referenced, whether the DevExpress WinUI profile is in use, resolves one
    attribute table per detected framework and five framework-agnostic symbols, and
    answers `GetFrameworkAttributes` queries. Every lookup may yield null: the source
    marks many of them with the null-forgiving `!`, which checks nothing at run time.
 */
module ContextInfo {
  import opened Wrappers
  import opened Compilations

  /** The `SupportedMvvm` enum. */
  datatype SupportedMvvm = None | Dx | Prism | MvvmLight {

    /** The enum member's underlying integer value. */
    function Value(): int {
      match this
      case None => 0
      case Dx => 1
      case Prism => 2
      case MvvmLight => 3
    }
  }

  /** The named enum member with underlying value `v`, if any. A C# enum variable may
      hold any integer; only these four have a name. */
  function SupportedMvvmOfValue(v: int): (r: Option<SupportedMvvm>)
    ensures r.Some? <==> 0 <= v <= 3
    ensures r.Some? ==> r.value.Value() == v
  {
    if v == 0 then Some(SupportedMvvm.None)
    else if v == 1 then Some(Dx)
    else if v == 2 then Some(Prism)
    else if v == 3 then Some(MvvmLight)
    else Option.None
  }

  /** The exception `GetFrameworkAttributes` throws for an unnamed enum value. */
  datatype Exception = InvalidOperationException

  /** The attribute namespaces `InitializationGenerator.DxNamespace`, `PrismNamespace`
      and `MvvmLightNamespace`. Their values are defined elsewhere, so they are a
      parameter of the model and nothing assumes they differ. */
  datatype Namespaces = Namespaces(dx: string, prism: string, mvvmLight: string)

  // Marker and capability type names probed by the context.
  const DxMarker := "DevExpress.Mvvm.DelegateCommand"
  const PrismMarker := "Prism.Commands.DelegateCommand"
  const MvvmLightMarker := "GalaSoft.MvvmLight.Command.RelayCommand"
  const MvvmLightCommandWpfMarker := "GalaSoft.MvvmLight.CommandWpf.RelayCommand"
  const ViewModelSourceName := "DevExpress.Mvvm.POCO.ViewModelSource"

  const ViewModelAttributeName := "GenerateViewModelAttribute"
  const PropertyAttributeName := "GeneratePropertyAttribute"
  const CommandAttributeName := "GenerateCommandAttribute"

  const IDataErrorInfoName := "System.ComponentModel.IDataErrorInfo"
  const ISupportUIServicesName := "DevExpress.Mvvm.ISupportUIServices"
  const CancellationTokenName := "System.Threading.CancellationToken"
  const ISupportServicesName := "DevExpress.Mvvm.ISupportServices"
  const ISupportParentViewModelName := "DevExpress.Mvvm.ISupportParentViewModel"
  const IActiveAwareName := "Prism.IActiveAware"
  const ICleanupName := "GalaSoft.MvvmLight.ICleanup"

  const INotifyPropertyChangedName := "System.ComponentModel.INotifyPropertyChanged"
  const INotifyPropertyChangingName := "System.ComponentModel.INotifyPropertyChanging"
  const TaskName := "System.Threading.Tasks.Task"
  const BooleanName := "System.Boolean"
  const AttributeUsageAttributeName := "System.AttributeUsageAttribute"

  /** The fully-qualified name of attribute `attribute` in namespace `attributeNamespace`. */
  function QualifiedName(attributeNamespace: string, attribute: string): string {
    attributeNamespace + "." + attribute
  }

  /** The namespace whose attributes a framework uses: `None` shares DevExpress's. */
  function AttributeNamespace(ns: Namespaces, mvvm: SupportedMvvm): string {
    match mvvm
    case None | Dx => ns.dx
    case Prism => ns.prism
    case MvvmLight => ns.mvvmLight
  }

  // ---------------------------------------------------------------- detection

  /** Whether the DevExpress runtime's `DelegateCommand` is referenced. */
  predicate GetIsDxMvvmAvailable(c: Compilation)
    ensures GetIsDxMvvmAvailable(c) <==> DxMarker in c
  {
    GetTypeByMetadataName(c, DxMarker).Some?
  }

  /** Whether Prism's `DelegateCommand` is referenced. */
  predicate GetIsPrismAvailable(c: Compilation)
    ensures GetIsPrismAvailable(c) <==> PrismMarker in c
  {
    GetTypeByMetadataName(c, PrismMarker).Some?
  }

  /** Whether MvvmLight's `RelayCommand` is referenced. */
  predicate GetIsMvvmLightAvailable(c: Compilation)
    ensures GetIsMvvmLightAvailable(c) <==> MvvmLightMarker in c
  {
    GetTypeByMetadataName(c, MvvmLightMarker).Some?
  }

  /** Whether the WPF flavour of MvvmLight's `RelayCommand` is referenced; detection
      does not consult it. */
  predicate GetIsMvvmLightCommandWpfAvalible(c: Compilation)
    ensures GetIsMvvmLightCommandWpfAvalible(c) <==> MvvmLightCommandWpfMarker in c
  {
    GetTypeByMetadataName(c, MvvmLightCommandWpfMarker).Some?
  }

  /** The marker type name whose presence means `mvvm` is referenced; `None` has none. */
  function Marker(mvvm: SupportedMvvm): Option<string> {
    match mvvm
    case None => Option.None
    case Dx => Some(DxMarker)
    case Prism => Some(PrismMarker)
    case MvvmLight => Some(MvvmLightMarker)
  }

  /** Reference meaning of detection, independent of the probing code: a framework is
      detected when its marker resolves, and `None` when no marker does. */
  ghost predicate Detected(c: Compilation, mvvm: SupportedMvvm) {
    match Marker(mvvm)
    case Some(marker) => marker in c
    case None => DxMarker !in c && PrismMarker !in c && MvvmLightMarker !in c
  }

  /** The list keeps the enum order, which also rules out duplicates. */
  ghost predicate StrictlyOrdered(s: seq<SupportedMvvm>) {
    forall i, j :: 0 <= i < j < |s| ==> s[i].Value() < s[j].Value()
  }

  /** `GetAvailableMvvm`: the referenced frameworks in probing order, or `[None]`. */
  function GetAvailableMvvm(c: Compilation): (r: seq<SupportedMvvm>)
    ensures forall m :: m in r <==> Detected(c, m)
    ensures StrictlyOrdered(r)
    ensures r == [SupportedMvvm.None] || (|r| > 0 && SupportedMvvm.None !in r)
  {
    var withDx := if GetIsDxMvvmAvailable(c) then [Dx] else [];
    var withPrism := if GetIsPrismAvailable(c) then withDx + [Prism] else withDx;
    var available := if GetIsMvvmLightAvailable(c) then withPrism + [MvvmLight] else withPrism;
    if |available| == 0 then [SupportedMvvm.None] else available
  }

  /** `GetIsWinUI`: the DevExpress runtime is referenced without its classic POCO
      `ViewModelSource`. */
  predicate GetIsWinUI(c: Compilation)
    ensures GetIsWinUI(c) <==> DxMarker in c && ViewModelSourceName !in c
  {
    GetIsDxMvvmAvailable(c) && GetTypeByMetadataName(c, ViewModelSourceName).None?
  }

  // ---------------------------------------------------------------- attribute tables

  /** The three generation attributes every framework provides. */
  datatype FrameworkAttributes = FrameworkAttributes(
    viewModelAttributeSymbol: Option<TypeSymbol>,
    propertyAttributeSymbol: Option<TypeSymbol>,
    commandAttributeSymbol: Option<TypeSymbol>)

  /** The DevExpress table: `ideiSymbol` is `IDataErrorInfo`, `issSymbol` the services
      interface, `ispvmSymbol` the parent-view-model interface. */
  datatype DXFrameworkAttributes = DXFrameworkAttributes(
    attributes: FrameworkAttributes,
    ideiSymbol: Option<TypeSymbol>,
    ispvmSymbol: Option<TypeSymbol>,
    issSymbol: Option<TypeSymbol>,
    cancellationTokenSymbol: Option<TypeSymbol>)

  /** The Prism table: `iaaSymbol` is `IActiveAware`. */
  datatype PrismFrameworkAttributes = PrismFrameworkAttributes(
    attributes: FrameworkAttributes,
    iaaSymbol: Option<TypeSymbol>)

  /** The MvvmLight table: `icuSymbol` is `ICleanup`. */
  datatype MvmLightFrameWorkAttributes = MvmLightFrameWorkAttributes(
    attributes: FrameworkAttributes,
    icuSymbol: Option<TypeSymbol>)

  /** The `FrameworkAttributes` constructor: the three attributes, looked up in the
      namespace `mvvm` selects. */
  function NewFrameworkAttributes(c: Compilation, ns: Namespaces, mvvm: SupportedMvvm): (r: FrameworkAttributes)
    ensures ResolvedAs(r.viewModelAttributeSymbol, c, QualifiedName(AttributeNamespace(ns, mvvm), ViewModelAttributeName))
    ensures ResolvedAs(r.propertyAttributeSymbol, c, QualifiedName(AttributeNamespace(ns, mvvm), PropertyAttributeName))
    ensures ResolvedAs(r.commandAttributeSymbol, c, QualifiedName(AttributeNamespace(ns, mvvm), CommandAttributeName))
  {
    var attributeNamespace := AttributeNamespace(ns, mvvm);
    FrameworkAttributes(
      GetTypeByMetadataName(c, QualifiedName(attributeNamespace, ViewModelAttributeName)),
      GetTypeByMetadataName(c, QualifiedName(attributeNamespace, PropertyAttributeName)),
      GetTypeByMetadataName(c, QualifiedName(attributeNamespace, CommandAttributeName)))
  }

  /** The `DXFrameworkAttributes` constructor. The WinUI profile offers
      `ISupportUIServices` and a cancellation token and no parent view model; the
      classic profile offers `ISupportServices` and `ISupportParentViewModel` and
      leaves the cancellation token null. */
  function NewDXFrameworkAttributes(c: Compilation, ns: Namespaces, isWinUI: bool): (r: DXFrameworkAttributes)
    ensures r.attributes == NewFrameworkAttributes(c, ns, Dx)
    ensures ResolvedAs(r.ideiSymbol, c, IDataErrorInfoName)
    ensures isWinUI ==> && ResolvedAs(r.issSymbol, c, ISupportUIServicesName)
                        && r.ispvmSymbol.None?
                        && ResolvedAs(r.cancellationTokenSymbol, c, CancellationTokenName)
    ensures !isWinUI ==> && ResolvedAs(r.issSymbol, c, ISupportServicesName)
                         && ResolvedAs(r.ispvmSymbol, c, ISupportParentViewModelName)
                         && r.cancellationTokenSymbol.None?
    ensures r.ispvmSymbol.None? || r.cancellationTokenSymbol.None?
  {
    var attributes := NewFrameworkAttributes(c, ns, Dx);
    var idei := GetTypeByMetadataName(c, IDataErrorInfoName);
    if isWinUI then
      DXFrameworkAttributes(attributes, idei, Option.None,
        GetTypeByMetadataName(c, ISupportUIServicesName),
        GetTypeByMetadataName(c, CancellationTokenName))
    else
      DXFrameworkAttributes(attributes, idei,
        GetTypeByMetadataName(c, ISupportParentViewModelName),
        GetTypeByMetadataName(c, ISupportServicesName),
        Option.None)
  }

  /** The `PrismFrameworkAttributes` constructor. */
  function NewPrismFrameworkAttributes(c: Compilation, ns: Namespaces): (r: PrismFrameworkAttributes)
    ensures r.attributes == NewFrameworkAttributes(c, ns, Prism)
    ensures ResolvedAs(r.iaaSymbol, c, IActiveAwareName)
  {
    PrismFrameworkAttributes(NewFrameworkAttributes(c, ns, Prism), GetTypeByMetadataName(c, IActiveAwareName))
  }

  /** The `MvmLightFrameWorkAttributes` constructor. */
  function NewMvmLightFrameWorkAttributes(c: Compilation, ns: Namespaces): (r: MvmLightFrameWorkAttributes)
    ensures r.attributes == NewFrameworkAttributes(c, ns, MvvmLight)
    ensures ResolvedAs(r.icuSymbol, c, ICleanupName)
  {
    MvmLightFrameWorkAttributes(NewFrameworkAttributes(c, ns, MvvmLight), GetTypeByMetadataName(c, ICleanupName))
  }

  // ---------------------------------------------------------------- the context

  /** A built `ContextInfo`: a null table is `Option.None`. */
  datatype ContextInfo = ContextInfo(
    availableMvvm: seq<SupportedMvvm>,
    isWinUI: bool,
    dx: Option<DXFrameworkAttributes>,
    prism: Option<PrismFrameworkAttributes>,
    mvvmLight: Option<MvmLightFrameWorkAttributes>,
    inpcedSymbol: Option<TypeSymbol>,
    inpcingSymbol: Option<TypeSymbol>,
    taskSymbol: Option<TypeSymbol>,
    boolSymbol: Option<TypeSymbol>,
    attributeUsageSymbol: Option<TypeSymbol>)

  /** The `ContextInfo` constructor. The DevExpress table is also built when no
      framework is referenced, since `None` uses DevExpress's attributes. */
  function NewContextInfo(c: Compilation, ns: Namespaces): (ctx: ContextInfo)
    ensures ctx.availableMvvm == GetAvailableMvvm(c)
    ensures ctx.isWinUI == GetIsWinUI(c)
    ensures ctx.dx.Some? <==> Dx in ctx.availableMvvm || SupportedMvvm.None in ctx.availableMvvm
    ensures ctx.prism.Some? <==> Prism in ctx.availableMvvm
    ensures ctx.mvvmLight.Some? <==> MvvmLight in ctx.availableMvvm
    ensures ctx.dx.Some? ==> ctx.dx.value == NewDXFrameworkAttributes(c, ns, ctx.isWinUI)
    ensures ctx.prism.Some? ==> ctx.prism.value == NewPrismFrameworkAttributes(c, ns)
    ensures ctx.mvvmLight.Some? ==> ctx.mvvmLight.value == NewMvmLightFrameWorkAttributes(c, ns)
    ensures ResolvedAs(ctx.inpcedSymbol, c, INotifyPropertyChangedName)
    ensures ResolvedAs(ctx.inpcingSymbol, c, INotifyPropertyChangingName)
    ensures ResolvedAs(ctx.taskSymbol, c, TaskName)
    ensures ResolvedAs(ctx.boolSymbol, c, BooleanName)
    ensures ResolvedAs(ctx.attributeUsageSymbol, c, AttributeUsageAttributeName)
  {
    var available := GetAvailableMvvm(c);
    var isWinUI := GetIsWinUI(c);
    ContextInfo(
      available,
      isWinUI,
      if Dx in available || SupportedMvvm.None in available
        then Some(NewDXFrameworkAttributes(c, ns, isWinUI)) else Option.None,
      if Prism in available then Some(NewPrismFrameworkAttributes(c, ns)) else Option.None,
      if MvvmLight in available then Some(NewMvmLightFrameWorkAttributes(c, ns)) else Option.None,
      GetTypeByMetadataName(c, INotifyPropertyChangedName),
      GetTypeByMetadataName(c, INotifyPropertyChangingName),
      GetTypeByMetadataName(c, TaskName),
      GetTypeByMetadataName(c, BooleanName),
      GetTypeByMetadataName(c, AttributeUsageAttributeName))
  }

  /** `GetFrameworkAttributes`: the attributes of the table `mvvm` selects, `None`
      and `Dx` both selecting the DevExpress table. The result is null when that
      table was not built; the `!` in the source does not turn that into an error. */
  function GetFrameworkAttributes(ctx: ContextInfo, mvvm: SupportedMvvm): (r: Option<FrameworkAttributes>)
    ensures mvvm in {SupportedMvvm.None, Dx} ==> (r.Some? <==> ctx.dx.Some?)
    ensures mvvm == Prism ==> (r.Some? <==> ctx.prism.Some?)
    ensures mvvm == MvvmLight ==> (r.Some? <==> ctx.mvvmLight.Some?)
    ensures r.Some? && mvvm in {SupportedMvvm.None, Dx} ==> r.value == ctx.dx.value.attributes
    ensures r.Some? && mvvm == Prism ==> r.value == ctx.prism.value.attributes
    ensures r.Some? && mvvm == MvvmLight ==> r.value == ctx.mvvmLight.value.attributes
  {
    match mvvm
    case None | Dx => if ctx.dx.Some? then Some(ctx.dx.value.attributes) else Option.None
    case Prism => if ctx.prism.Some? then Some(ctx.prism.value.attributes) else Option.None
    case MvvmLight => if ctx.mvvmLight.Some? then Some(ctx.mvvmLight.value.attributes) else Option.None
  }

  /** `GetFrameworkAttributes` called with the raw enum value `value`: an unnamed value
      throws `InvalidOperationException`, a named one behaves as above. */
  function GetFrameworkAttributesOfValue(ctx: ContextInfo, value: int): (r: Result<Option<FrameworkAttributes>, Exception>)
    ensures r.Failure? <==> value < 0 || 3 < value
    ensures r.Success? ==> exists m: SupportedMvvm :: m.Value() == value && r.value == GetFrameworkAttributes(ctx, m)
  {
    match SupportedMvvmOfValue(value)
    case Some(mvvm) => Success(GetFrameworkAttributes(ctx, mvvm))
    case None => Failure(InvalidOperationException)
  }
}

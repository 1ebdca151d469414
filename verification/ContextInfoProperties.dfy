/** Properties of the framework detection and symbol resolution model. */
module ContextInfoProperties {
  import opened Wrappers
  import opened Compilations
  import opened ContextInfo

  // ---------------------------------------------------------------- enum values

  /** Every named member survives a round trip through its underlying value. */
  lemma ValueRoundTrip(m: SupportedMvvm)
    ensures SupportedMvvmOfValue(m.Value()) == Some(m)
  {
  }

  // ---------------------------------------------------------------- detection

  /** The head of an ordered list has the least value in it. */
  lemma HeadIsLeast(s: seq<SupportedMvvm>, m: SupportedMvvm)
    requires StrictlyOrdered(s) && m in s
    ensures s[0].Value() <= m.Value()
    ensures m != s[0] ==> m in s[1..] && s[0].Value() < m.Value()
  {
  }

  /** Switches between "the list is empty" and "no member is in the list" without a
      case split at the call site. */
  lemma EmptyIffNoMembers(s: seq<SupportedMvvm>)
    ensures |s| == 0 <==> forall m :: m !in s
  {
    if |s| > 0 {
      assert s[0] in s;
    }
  }

  /** Two lists in enum order with the same members are the same list. */
  lemma {:induction false} OrderedListDeterminedByMembers(a: seq<SupportedMvvm>, b: seq<SupportedMvvm>)
    requires StrictlyOrdered(a) && StrictlyOrdered(b)
    requires forall m :: m in a <==> m in b
    ensures a == b
  {
    EmptyIffNoMembers(a);
    EmptyIffNoMembers(b);
    if |a| == 0 {
    } else {
      // The heads are the least members of both lists.
      HeadIsLeast(b, a[0]);
      HeadIsLeast(a, b[0]);
      assert a[0] == b[0];
      forall m
        ensures m in a[1..] <==> m in b[1..]
      {
        if m in a[1..] {
          assert m in b;
          HeadIsLeast(a, m);
          HeadIsLeast(b, m);
        }
        if m in b[1..] {
          assert m in a;
          HeadIsLeast(a, m);
          HeadIsLeast(b, m);
        }
      }
      OrderedListDeterminedByMembers(a[1..], b[1..]);
      assert a == [a[0]] + a[1..];
      assert b == [b[0]] + b[1..];
    }
  }

  /** `GetAvailableMvvm` is the only ordered, duplicate-free list of the detected
      frameworks: the result is fixed by which markers resolve, not by how the code
      arranges the probes. */
  lemma AvailableMvvmIsCanonical(c: Compilation, s: seq<SupportedMvvm>)
    requires StrictlyOrdered(s)
    requires forall m :: m in s <==> Detected(c, m)
    ensures s == GetAvailableMvvm(c)
  {
    OrderedListDeterminedByMembers(s, GetAvailableMvvm(c));
  }

  /** The frameworks whose markers resolve, probed in the order `order`. */
  function ProbeInOrder(c: Compilation, order: seq<SupportedMvvm>): seq<SupportedMvvm> {
    if |order| == 0 then []
    else
      var rest := ProbeInOrder(c, order[1..]);
      match Marker(order[0])
      case Some(marker) => if GetTypeByMetadataName(c, marker).Some? then [order[0]] + rest else rest
      case None => rest
  }

  /** `None` is added exactly when no probe succeeded. */
  function WithFallback(available: seq<SupportedMvvm>): seq<SupportedMvvm> {
    if |available| == 0 then [SupportedMvvm.None] else available
  }

  /** Probing records exactly the probed frameworks whose marker resolves. */
  lemma {:induction false} ProbeInOrderMembers(c: Compilation, order: seq<SupportedMvvm>)
    ensures forall m :: m in ProbeInOrder(c, order) <==> m in order && Marker(m).Some? && Marker(m).value in c
  {
    if |order| > 0 {
      ProbeInOrderMembers(c, order[1..]);
      assert order == [order[0]] + order[1..];
    }
  }

  /** Probing in enum order keeps enum order. */
  lemma {:induction false} ProbeInOrderIsOrdered(c: Compilation, order: seq<SupportedMvvm>)
    requires StrictlyOrdered(order)
    ensures StrictlyOrdered(ProbeInOrder(c, order))
  {
    if |order| > 0 {
      assert StrictlyOrdered(order[1..]);
      ProbeInOrderIsOrdered(c, order[1..]);
      ProbeInOrderMembers(c, order[1..]);
      var rest := ProbeInOrder(c, order[1..]);
      forall m | m in rest
        ensures order[0].Value() < m.Value()
      {
        var k :| 0 <= k < |order[1..]| && order[1..][k] == m;
        assert order[1 + k] == m;
      }
      var s := [order[0]] + rest;
      forall i, j | 0 <= i < j < |s|
        ensures s[i].Value() < s[j].Value()
      {
        if i == 0 {
          assert s[j] == rest[j - 1];
        } else {
          assert s[i] == rest[i - 1] && s[j] == rest[j - 1];
        }
      }
    }
  }

  /** Probing in enum order gives exactly `GetAvailableMvvm`'s list. */
  lemma EnumOrderProbeIsAvailableMvvm(c: Compilation)
    ensures WithFallback(ProbeInOrder(c, [Dx, Prism, MvvmLight])) == GetAvailableMvvm(c)
  {
    var enumOrder := [Dx, Prism, MvvmLight];
    var probed := ProbeInOrder(c, enumOrder);
    var canonical := WithFallback(probed);
    assert StrictlyOrdered(enumOrder);
    ProbeInOrderIsOrdered(c, enumOrder);
    ProbeInOrderMembers(c, enumOrder);
    EmptyIffNoMembers(probed);
    assert |probed| == 0 <==> DxMarker !in c && PrismMarker !in c && MvvmLightMarker !in c by {
      assert Dx in enumOrder && Prism in enumOrder && MvvmLight in enumOrder;
    }
    forall m
      ensures m in canonical <==> Detected(c, m)
    {
    }
    AvailableMvvmIsCanonical(c, canonical);
  }

  /** Probing the three markers in any order detects the same frameworks as
      `GetAvailableMvvm`: the probe order has no effect. */
  lemma ProbeOrderIrrelevant(c: Compilation, order: seq<SupportedMvvm>)
    requires multiset(order) == multiset([Dx, Prism, MvvmLight])
    ensures forall m :: m in WithFallback(ProbeInOrder(c, order)) <==> m in GetAvailableMvvm(c)
  {
    var enumOrder := [Dx, Prism, MvvmLight];
    forall m
      ensures m in order <==> m in enumOrder
    {
      assert m in order <==> m in multiset(order);
      assert m in enumOrder <==> m in multiset(enumOrder);
    }
    ProbeInOrderMembers(c, order);
    ProbeInOrderMembers(c, enumOrder);
    var probed := ProbeInOrder(c, enumOrder);
    var other := ProbeInOrder(c, order);
    EmptyIffNoMembers(probed);
    EmptyIffNoMembers(other);
    EnumOrderProbeIsAvailableMvvm(c);
  }

  /** The WPF `RelayCommand` marker has no effect on detection. */
  lemma DetectionIgnoresCommandWpf(c: Compilation)
    ensures GetAvailableMvvm(c + {MvvmLightCommandWpfMarker}) == GetAvailableMvvm(c - {MvvmLightCommandWpfMarker})
  {
  }

  /** The WinUI flag is only ever set alongside DevExpress detection. */
  lemma WinUIRequiresDx(c: Compilation)
    ensures GetIsWinUI(c) ==> Dx in GetAvailableMvvm(c)
    ensures GetAvailableMvvm(c) == [SupportedMvvm.None] ==> !GetIsWinUI(c)
  {
  }

  // ---------------------------------------------------------------- tables

  /** Which tables a context holds, in terms of the markers alone. The DevExpress
      table is missing only when its marker is absent and another framework's is
      present. */
  lemma TablesFollowMarkers(c: Compilation, ns: Namespaces)
    ensures NewContextInfo(c, ns).dx.None? <==> DxMarker !in c && (PrismMarker in c || MvvmLightMarker in c)
    ensures NewContextInfo(c, ns).prism.Some? <==> PrismMarker in c
    ensures NewContextInfo(c, ns).mvvmLight.Some? <==> MvvmLightMarker in c
  {
  }

  /** The DevExpress table never offers both capability groups: a parent-view-model
      symbol means the classic profile, a cancellation token the WinUI one. */
  lemma DxCapabilityGroupsExclusive(c: Compilation, ns: Namespaces)
    ensures var ctx := NewContextInfo(c, ns);
      ctx.dx.Some? ==>
        && (ctx.dx.value.ispvmSymbol.Some? ==> !ctx.isWinUI && ctx.dx.value.cancellationTokenSymbol.None?)
        && (ctx.dx.value.cancellationTokenSymbol.Some? ==> ctx.isWinUI && ctx.dx.value.ispvmSymbol.None?)
        && (ctx.dx.value.issSymbol.Some? ==>
              ctx.dx.value.issSymbol.value == if ctx.isWinUI then ISupportUIServicesName else ISupportServicesName)
  {
  }

  // ---------------------------------------------------------------- dispatch

  /** `a` and `b` are answered from the same table. */
  predicate SharesTable(a: SupportedMvvm, b: SupportedMvvm) {
    a == b || (a in {SupportedMvvm.None, Dx} && b in {SupportedMvvm.None, Dx})
  }

  /** In a built context, `GetFrameworkAttributes(m)` is non-null exactly when a
      detected framework shares `m`'s table, and it then holds the attributes of the
      namespace `m` selects. */
  lemma FrameworkAttributesFollowDetection(c: Compilation, ns: Namespaces, m: SupportedMvvm)
    ensures var ctx := NewContextInfo(c, ns);
      GetFrameworkAttributes(ctx, m).Some? <==> exists d :: d in ctx.availableMvvm && SharesTable(m, d)
    ensures var r := GetFrameworkAttributes(NewContextInfo(c, ns), m);
      r.Some? ==> r.value == NewFrameworkAttributes(c, ns, m)
  {
  }

  /** `None` and `Dx` are answered from the same table in every context. */
  lemma NoneAndDxShareTable(ctx: ContextInfo)
    ensures GetFrameworkAttributes(ctx, SupportedMvvm.None) == GetFrameworkAttributes(ctx, Dx)
  {
  }

  /** With no framework referenced, the DevExpress table is built, in the classic
      profile, and serves `None` with DevExpress's attributes. */
  lemma NoneUsesClassicDxTable(c: Compilation, ns: Namespaces)
    requires GetAvailableMvvm(c) == [SupportedMvvm.None]
    ensures var ctx := NewContextInfo(c, ns);
      && !ctx.isWinUI
      && ctx.dx == Some(NewDXFrameworkAttributes(c, ns, false))
      && ctx.prism.None? && ctx.mvvmLight.None?
      && GetFrameworkAttributes(ctx, SupportedMvvm.None) == Some(NewFrameworkAttributes(c, ns, Dx))
  {
  }

  /** Only Prism's marker: Prism alone is detected, DevExpress queries yield null and
      Prism's attributes resolve whenever the compilation holds them. */
  lemma OnlyPrismReferenced(c: Compilation, ns: Namespaces)
    requires PrismMarker in c && DxMarker !in c && MvvmLightMarker !in c
    ensures var ctx := NewContextInfo(c, ns);
      && ctx.availableMvvm == [Prism]
      && GetFrameworkAttributes(ctx, Dx).None?
      && GetFrameworkAttributes(ctx, SupportedMvvm.None).None?
      && GetFrameworkAttributes(ctx, MvvmLight).None?
      && GetFrameworkAttributes(ctx, Prism) == Some(NewFrameworkAttributes(c, ns, Prism))
  {
  }

  /** DevExpress and Prism markers: both are detected, in that order, each with its own
      table. */
  lemma DxAndPrismReferenced(c: Compilation, ns: Namespaces)
    requires DxMarker in c && PrismMarker in c && MvvmLightMarker !in c
    ensures var ctx := NewContextInfo(c, ns);
      && ctx.availableMvvm == [Dx, Prism]
      && ctx.dx == Some(NewDXFrameworkAttributes(c, ns, ctx.isWinUI))
      && ctx.prism == Some(NewPrismFrameworkAttributes(c, ns))
      && ctx.mvvmLight.None?
  {
  }

  // ---------------------------------------------------------------- locality

  /** The names the three generation attributes of `mvvm` are looked up under. */
  function AttributeNames(ns: Namespaces, mvvm: SupportedMvvm): set<string> {
    var n := AttributeNamespace(ns, mvvm);
    {QualifiedName(n, ViewModelAttributeName), QualifiedName(n, PropertyAttributeName), QualifiedName(n, CommandAttributeName)}
  }

  function DxNames(ns: Namespaces): set<string> {
    AttributeNames(ns, Dx)
      + {IDataErrorInfoName, ISupportUIServicesName, CancellationTokenName, ISupportServicesName, ISupportParentViewModelName}
  }

  function PrismNames(ns: Namespaces): set<string> {
    AttributeNames(ns, Prism) + {IActiveAwareName}
  }

  function MvvmLightNames(ns: Namespaces): set<string> {
    AttributeNames(ns, MvvmLight) + {ICleanupName}
  }

  const DetectionNames: set<string> := {DxMarker, PrismMarker, MvvmLightMarker, ViewModelSourceName}

  const CommonNames: set<string> :=
    {INotifyPropertyChangedName, INotifyPropertyChangingName, TaskName, BooleanName, AttributeUsageAttributeName}

  /** Every name a context looks up. */
  function ProbedNames(ns: Namespaces): set<string> {
    DetectionNames + DxNames(ns) + PrismNames(ns) + MvvmLightNames(ns) + CommonNames
  }

  /** Two compilations that agree on `names`. */
  ghost predicate AgreeOn(c1: Compilation, c2: Compilation, names: set<string>) {
    forall n :: n in names ==> (n in c1 <==> n in c2)
  }

  /** A table depends on nothing but its own names, so one framework's types never
      change another framework's table. */
  lemma DxTableIsLocal(c1: Compilation, c2: Compilation, ns: Namespaces, isWinUI: bool)
    requires AgreeOn(c1, c2, DxNames(ns))
    ensures NewDXFrameworkAttributes(c1, ns, isWinUI) == NewDXFrameworkAttributes(c2, ns, isWinUI)
  {
  }

  lemma PrismTableIsLocal(c1: Compilation, c2: Compilation, ns: Namespaces)
    requires AgreeOn(c1, c2, PrismNames(ns))
    ensures NewPrismFrameworkAttributes(c1, ns) == NewPrismFrameworkAttributes(c2, ns)
  {
  }

  lemma MvvmLightTableIsLocal(c1: Compilation, c2: Compilation, ns: Namespaces)
    requires AgreeOn(c1, c2, MvvmLightNames(ns))
    ensures NewMvmLightFrameWorkAttributes(c1, ns) == NewMvmLightFrameWorkAttributes(c2, ns)
  {
  }

  /** A context is a function of the probed names alone; in particular building it
      twice from the same compilation gives the same context. */
  lemma ContextDependsOnlyOnProbedNames(c1: Compilation, c2: Compilation, ns: Namespaces)
    requires AgreeOn(c1, c2, ProbedNames(ns))
    ensures NewContextInfo(c1, ns) == NewContextInfo(c2, ns)
  {
  }

  // ---------------------------------------------------------------- soundness

  function SymbolSet(s: Option<TypeSymbol>): set<TypeSymbol> {
    match s
    case Some(v) => {v}
    case None => {}
  }

  function AttributeSymbols(a: FrameworkAttributes): set<TypeSymbol> {
    SymbolSet(a.viewModelAttributeSymbol) + SymbolSet(a.propertyAttributeSymbol) + SymbolSet(a.commandAttributeSymbol)
  }

  function DxSymbols(t: DXFrameworkAttributes): set<TypeSymbol> {
    AttributeSymbols(t.attributes) + SymbolSet(t.ideiSymbol) + SymbolSet(t.ispvmSymbol)
      + SymbolSet(t.issSymbol) + SymbolSet(t.cancellationTokenSymbol)
  }

  function PrismSymbols(t: PrismFrameworkAttributes): set<TypeSymbol> {
    AttributeSymbols(t.attributes) + SymbolSet(t.iaaSymbol)
  }

  function MvvmLightSymbols(t: MvmLightFrameWorkAttributes): set<TypeSymbol> {
    AttributeSymbols(t.attributes) + SymbolSet(t.icuSymbol)
  }

  function TableSymbols<T>(table: Option<T>, symbols: T -> set<TypeSymbol>): set<TypeSymbol> {
    match table
    case Some(t) => symbols(t)
    case None => {}
  }

  function CommonSymbols(ctx: ContextInfo): set<TypeSymbol> {
    SymbolSet(ctx.inpcedSymbol) + SymbolSet(ctx.inpcingSymbol) + SymbolSet(ctx.taskSymbol)
      + SymbolSet(ctx.boolSymbol) + SymbolSet(ctx.attributeUsageSymbol)
  }

  /** Every non-null symbol a context holds. */
  function Symbols(ctx: ContextInfo): set<TypeSymbol> {
    TableSymbols(ctx.dx, DxSymbols) + TableSymbols(ctx.prism, PrismSymbols)
      + TableSymbols(ctx.mvvmLight, MvvmLightSymbols) + CommonSymbols(ctx)
  }

  lemma AttributeSymbolsAreResolved(c: Compilation, ns: Namespaces, mvvm: SupportedMvvm)
    ensures AttributeSymbols(NewFrameworkAttributes(c, ns, mvvm)) <= c * AttributeNames(ns, mvvm)
  {
  }

  lemma DxSymbolsAreResolved(c: Compilation, ns: Namespaces, isWinUI: bool)
    ensures DxSymbols(NewDXFrameworkAttributes(c, ns, isWinUI)) <= c * DxNames(ns)
  {
  }

  lemma CommonSymbolsAreResolved(c: Compilation, ns: Namespaces)
    ensures CommonSymbols(NewContextInfo(c, ns)) <= c * CommonNames
  {
  }

  /** A context never invents a symbol: each one is a probed name the compilation
      resolves. */
  lemma ContextSymbolsAreResolved(c: Compilation, ns: Namespaces)
    ensures Symbols(NewContextInfo(c, ns)) <= c * ProbedNames(ns)
  {
    var ctx := NewContextInfo(c, ns);
    var probed := ProbedNames(ns);
    var dx := TableSymbols(ctx.dx, DxSymbols);
    var prism := TableSymbols(ctx.prism, PrismSymbols);
    var mvvmLight := TableSymbols(ctx.mvvmLight, MvvmLightSymbols);
    var common := CommonSymbols(ctx);
    CommonSymbolsAreResolved(c, ns);
    assert common <= c * probed;
    assert dx <= c * probed by {
      if ctx.dx.Some? {
        DxSymbolsAreResolved(c, ns, ctx.isWinUI);
      }
    }
    assert prism <= c * probed by {
      if ctx.prism.Some? {
        AttributeSymbolsAreResolved(c, ns, Prism);
      }
    }
    assert mvvmLight <= c * probed by {
      if ctx.mvvmLight.Some? {
        AttributeSymbolsAreResolved(c, ns, MvvmLight);
      }
    }
  }
}

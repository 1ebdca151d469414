/** The part of a Roslyn compilation that the resolution layer sees: a lookup of a
    declared type by its fully-qualified metadata name.

    A compilation is modelled by the set of metadata names it can resolve, and a
    resolved type symbol by the name it was resolved from (symbol identity beyond
    the name is not modelled).
 */
module Compilations {
  import opened Wrappers

  /** The metadata names of every type the compilation can resolve. */
  type Compilation = set<string>

  /** A resolved type symbol, identified by its metadata name. */
  type TypeSymbol = string

  /** `Compilation.GetTypeByMetadataName`: the symbol named `name`, or null when the
      compilation does not declare or reference such a type. */
  function GetTypeByMetadataName(compilation: Compilation, name: string): (r: Option<TypeSymbol>)
    ensures r.Some? <==> name in compilation
    ensures r.Some? ==> r.value == name
  {
    if name in compilation then Some(name) else None
  }

  /** `symbol` is what a lookup of `name` in `compilation` yields: present exactly when
      the compilation can resolve `name`, and then the symbol of that very name. */
  ghost predicate ResolvedAs(symbol: Option<TypeSymbol>, compilation: Compilation, name: string) {
    && (symbol.Some? <==> name in compilation)
    && (symbol.Some? ==> symbol.value == name)
  }
}

/** How a plugin's id is chosen when the plugin is created. */
module Identity {
  import opened Common

  /**
   * The id policy: an explicit id wins; without one the name is used; with
   * neither, the plugin's qualified type name (`module.Class`).
   */
  function ResolveId(explicitId: Option<string>, name: Option<string>, typeName: string): (r: string)
    ensures explicitId.Some? ==> r == explicitId.value
    ensures explicitId.None? && name.Some? ==> r == name.value
    ensures explicitId.None? && name.None? ==> r == typeName
  {
    match explicitId
    case Some(i) => i
    case None => name.GetOr(typeName)
  }

  /** The id never depends on the name once an id is given, and never on the type name once either is given. */
  lemma IdIgnoresLowerPriorities(explicitId: Option<string>, name1: Option<string>, name2: Option<string>, type1: string, type2: string)
    ensures explicitId.Some? ==> ResolveId(explicitId, name1, type1) == ResolveId(explicitId, name2, type2)
    ensures name1.Some? ==> ResolveId(explicitId, name1, type1) == ResolveId(explicitId, name1, type2)
  {
  }
}

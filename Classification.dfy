/** What the registry built by the content union decides: which graphs claim a
    value of a given original type, which of them comes first in registration
    order, and which nested block fields resolve to a graph. Each graph
    classifies by the content type it was created from, so the graphs of a
    registry classify by ContentTypesOf(registry). */
module Classification {
  import opened ContentTypes
  import opened ContentGraphUnion

  /** Number of the content types of `cts` whose graph claims a value of type `t`. */
  ghost function MatchCount(u: ContentGraphUnion, cts: seq<ContentType>, t: TypeId): nat
    reads u
  {
    if cts == [] then 0
    else (if u.IsTypeOf(t, cts[0]) then 1 else 0) + MatchCount(u, cts[1..], t)
  }

  /** Position of the first content type of `cts` whose graph claims a value of
      type `t`, or `|cts|` when none does. */
  ghost function FirstMatch(u: ContentGraphUnion, cts: seq<ContentType>, t: TypeId): (k: nat)
    reads u
    ensures k <= |cts|
    ensures k < |cts| ==> u.IsTypeOf(t, cts[k])
    ensures forall j :: 0 <= j < k ==> !u.IsTypeOf(t, cts[j])
  {
    if cts == [] then 0
    else if u.IsTypeOf(t, cts[0]) then 0
    else 1 + FirstMatch(u, cts[1..], t)
  }

  /** The graphs of `cts` that claim `t` are those modelled by `t`, plus, when
      no registered graph carries `t`, every modelless one. */
  lemma {:induction false} MatchCountSplit(u: ContentGraphUnion, cts: seq<ContentType>, t: TypeId)
    ensures MatchCount(u, cts, t)
         == ModelCount(cts, t) + (if HasAnyType(u.possibleTypes, t) then 0 else ModellessCount(cts))
  {
    if cts != [] {
      MatchCountSplit(u, cts[1..], t);
    }
  }

  /** The layout the union's constructor leaves behind. */
  ghost predicate BuiltFrom(u: ContentGraphUnion, availableTypes: seq<ContentType>)
    reads u
  {
    ContentTypesOf(u.possibleTypes)
    == BlockTypes(u.hierarchy, availableTypes) + [NoneResolvedContentType] + OtherTypes(u.hierarchy, availableTypes)
  }

  /** The registry of a built union claims the type of a catalog content type
      exactly when the catalog has that model type. */
  lemma RegistryClaimsCatalog(u: ContentGraphUnion, availableTypes: seq<ContentType>, t: TypeId)
    requires BuiltFrom(u, availableTypes)
    ensures HasAnyType(u.possibleTypes, t) <==> ModelCount(availableTypes, t) > 0
  {
    var h := u.hierarchy;
    HasAnyTypeIffModelled(u.possibleTypes, t);
    CountsOfConcat(BlockTypes(h, availableTypes), [NoneResolvedContentType], t);
    CountsOfConcat(BlockTypes(h, availableTypes) + [NoneResolvedContentType], OtherTypes(h, availableTypes), t);
    PartitionCounts(h, availableTypes, t);
  }

  /** In a built union a value of a catalog type is claimed by the graphs of
      that type alone; a value of any other type is claimed by the sentinel and
      by every modelless catalog graph. With a catalog whose model types are
      unique and present, exactly one graph claims any value, and it is the
      sentinel exactly when the type is not in the catalog. */
  lemma ClaimsAfterConstruction(u: ContentGraphUnion, availableTypes: seq<ContentType>, t: TypeId)
    requires BuiltFrom(u, availableTypes)
    ensures MatchCount(u, ContentTypesOf(u.possibleTypes), t)
         == if ModelCount(availableTypes, t) > 0 then ModelCount(availableTypes, t)
            else 1 + ModellessCount(availableTypes)
    ensures UniqueModelTypes(availableTypes) && ModellessCount(availableTypes) == 0 ==>
      MatchCount(u, ContentTypesOf(u.possibleTypes), t) == 1
    ensures u.IsTypeOf(t, NoneResolvedContentType) <==> ModelCount(availableTypes, t) == 0
  {
    var h := u.hierarchy;
    var blocks, others := BlockTypes(h, availableTypes), OtherTypes(h, availableTypes);
    RegistryClaimsCatalog(u, availableTypes, t);
    MatchCountSplit(u, ContentTypesOf(u.possibleTypes), t);
    CountsOfConcat(blocks, [NoneResolvedContentType], t);
    CountsOfConcat(blocks + [NoneResolvedContentType], others, t);
    PartitionCounts(h, availableTypes, t);
    if UniqueModelTypes(availableTypes) {
      ModelCountAtMostOne(availableTypes, t);
    }
  }

  /** In a built union the first graph to claim a value is the first graph
      carrying its type when one does, and otherwise the sentinel: no block
      graph is modelless, so none precedes it. */
  lemma FirstClaimant(u: ContentGraphUnion, availableTypes: seq<ContentType>, t: TypeId)
    requires BuiltFrom(u, availableTypes)
    ensures FirstMatch(u, ContentTypesOf(u.possibleTypes), t)
         == if HasAnyType(u.possibleTypes, t) then IndexOfType(u.possibleTypes, t)
            else |BlockTypes(u.hierarchy, availableTypes)|
  {
    var registry := u.possibleTypes;
    var cts := ContentTypesOf(registry);
    var blocks := BlockTypes(u.hierarchy, availableTypes);
    ContentTypesOfAt(registry);
    var k := if HasAnyType(registry, t) then IndexOfType(registry, t) else |blocks|;
    assert k < |cts| && u.IsTypeOf(t, cts[k]) by {
      if !HasAnyType(registry, t) {
        assert cts[|blocks|] == NoneResolvedContentType;
      }
    }
    forall j | 0 <= j < k
      ensures !u.IsTypeOf(t, cts[j])
    {
      assert registry[j].typeMetadata != Some(t);
      if !HasAnyType(registry, t) {
        assert cts[j] == blocks[j];
        PartitionMembers(u.hierarchy, availableTypes, true, blocks[j]);
      }
    }
  }

  /** A nested block field resolves to a graph exactly when a content type of
      the registry it was bound against has the property's type as its model
      type. */
  lemma FieldResolvesIffModelled(p: Property, registry: seq<ObjectGraph>)
    ensures FieldFor(p, registry).resolvedType != null <==> ModelCount(ContentTypesOf(registry), p.propertyType) > 0
  {
    HasAnyTypeIffModelled(registry, p.propertyType);
  }

  /** In a built union, the nested block fields of a block graph resolve only
      to block types of the catalog, those of the other graphs to any catalog
      type: a block graph's field of a non-block type stays unresolved. */
  lemma NestedBlocksResolve(u: ContentGraphUnion, availableTypes: seq<ContentType>, p: Property)
    requires BuiltFrom(u, availableTypes)
    ensures var blocks := BlockTypes(u.hierarchy, availableTypes);
      && (FieldFor(p, u.possibleTypes[..|blocks|]).resolvedType != null
          <==> ModelCount(blocks, p.propertyType) > 0)
      && (FieldFor(p, u.possibleTypes).resolvedType != null
          <==> ModelCount(availableTypes, p.propertyType) > 0)
  {
    var registry := u.possibleTypes;
    var blocks := BlockTypes(u.hierarchy, availableTypes);
    var n := |blocks|;
    ContentTypesOfConcat(registry[..n], registry[n..]);
    assert registry[..n] + registry[n..] == registry;
    assert ContentTypesOf(registry[..n]) == blocks by {
      assert ContentTypesOf(registry)[..n] == ContentTypesOf(registry[..n]);
      assert ContentTypesOf(registry)[..n] == blocks;
    }
    FieldResolvesIffModelled(p, registry[..n]);
    FieldResolvesIffModelled(p, registry);
    RegistryClaimsCatalog(u, availableTypes, p.propertyType);
    HasAnyTypeIffModelled(registry, p.propertyType);
  }
}

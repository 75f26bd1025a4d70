/** The content union: the GraphQL union over every content type of the
    catalog. Building it synthesises one object graph per content type, block
    types first, then a sentinel graph for content whose type is not
    registered, then every other content type; each graph's nested-block fields
    are bound once the whole batch it belongs to is registered. */
module ContentGraphUnion {
  import opened ContentTypes

  const UnionName := "ContentUnion"
  const NoneResolvedGraphName := "NoneResolvedType"

  /** The content type behind the sentinel graph: no model type, no properties. */
  const NoneResolvedContentType := ContentType(NoneResolvedGraphName, None, [])

  /** The two graph interfaces a synthesised graph can implement: the one of
      `IContent` and the one of `ILocalizable`. */
  datatype GraphInterface = ContentInterface | LocalizableInterface

  /** A field added to a graph for a nested block property; `resolvedType` is
      the registered graph of the property's type, or null when there is none. */
  datatype Field = Field(name: string, description: string, resolvedType: ObjectGraph?)

  /** An object graph as the graph factory creates it from a content type: named
      after it, with the given interfaces, classifying targets by the captured
      content type, and carrying the content type's model type as its "type"
      metadata (no metadata when there is no model type). Its fields grow in
      place. */
  class ObjectGraph {
    const name: string
    const interfaces: seq<GraphInterface>
    /** The content type the graph's IsTypeOf closure captures. */
    const contentType: ContentType
    /** The graph's "type" metadata. */
    const typeMetadata: Option<TypeId> := contentType.modelType
    var fields: seq<Field>

    constructor (contentType: ContentType, interfaces: seq<GraphInterface>)
      ensures name == contentType.name && this.contentType == contentType
      ensures this.interfaces == interfaces && fields == []
    {
      this.name := contentType.name;
      this.contentType := contentType;
      this.interfaces := interfaces;
      this.fields := [];
    }

    method AddField(field: Field)
      modifies this
      ensures fields == old(fields) + [field]
    {
      fields := fields + [field];
    }
  }

  /** A content type is a block type when its model type is a `BlockData`. */
  predicate IsBlockType(h: TypeHierarchy, ct: ContentType)
  {
    IsAssignableFrom(h.blockData, ct.modelType)
  }

  /** The content types of `cts` whose block-ness is `isBlock`, in catalog order:
      `Where(IsBlockType)` for `true`, `Where(x => IsBlockType(x) == false)`
      for `false`. */
  function WhereBlockTypeIs(h: TypeHierarchy, cts: seq<ContentType>, isBlock: bool): seq<ContentType> {
    if cts == [] then []
    else
      (if IsBlockType(h, cts[0]) == isBlock then [cts[0]] else [])
      + WhereBlockTypeIs(h, cts[1..], isBlock)
  }

  function BlockTypes(h: TypeHierarchy, cts: seq<ContentType>): (r: seq<ContentType>)
  {
    WhereBlockTypeIs(h, cts, true)
  }

  function OtherTypes(h: TypeHierarchy, cts: seq<ContentType>): (r: seq<ContentType>)
  {
    WhereBlockTypeIs(h, cts, false)
  }

  /** A partition holds exactly the catalog's content types of its block-ness;
      so a content type without a model type is never a block type and always
      lands with the others. */
  lemma {:induction false} PartitionMembers(h: TypeHierarchy, cts: seq<ContentType>, isBlock: bool, ct: ContentType)
    ensures ct in WhereBlockTypeIs(h, cts, isBlock) <==> ct in cts && IsBlockType(h, ct) == isBlock
    ensures ct in cts && ct.modelType.None? ==> ct in OtherTypes(h, cts) && ct !in BlockTypes(h, cts)
  {
    if cts != [] {
      PartitionMembers(h, cts[1..], isBlock, ct);
      PartitionMembers(h, cts[1..], !isBlock, ct);
    }
  }

  /** Every available content type lands in exactly one of the two partitions,
      as often as it occurs in the catalog. */
  lemma {:induction false} PartitionIsExact(h: TypeHierarchy, cts: seq<ContentType>)
    ensures multiset(BlockTypes(h, cts)) + multiset(OtherTypes(h, cts)) == multiset(cts)
  {
    if cts != [] {
      PartitionIsExact(h, cts[1..]);
      assert cts == [cts[0]] + cts[1..];
    }
  }

  /** The partitions keep catalog order: filtering a catalog split in two is
      filtering each half. */
  lemma {:induction false} PartitionKeepsOrder(h: TypeHierarchy, a: seq<ContentType>, b: seq<ContentType>, isBlock: bool)
    ensures WhereBlockTypeIs(h, a + b, isBlock) == WhereBlockTypeIs(h, a, isBlock) + WhereBlockTypeIs(h, b, isBlock)
  {
    if a == [] {
      assert a + b == b;
    } else {
      assert (a + b)[1..] == a[1..] + b;
      PartitionKeepsOrder(h, a[1..], b, isBlock);
    }
  }

  /** The partitions split the model-type counts of the catalog. */
  lemma {:induction false} PartitionCounts(h: TypeHierarchy, cts: seq<ContentType>, t: TypeId)
    ensures ModelCount(BlockTypes(h, cts), t) + ModelCount(OtherTypes(h, cts), t) == ModelCount(cts, t)
    ensures ModellessCount(BlockTypes(h, cts)) == 0
    ensures ModellessCount(OtherTypes(h, cts)) == ModellessCount(cts)
  {
    if cts != [] {
      PartitionCounts(h, cts[1..], t);
      var head := cts[0];
      if IsBlockType(h, head) {
        assert BlockTypes(h, cts) == [head] + BlockTypes(h, cts[1..]);
        assert OtherTypes(h, cts) == OtherTypes(h, cts[1..]);
      } else {
        assert BlockTypes(h, cts) == BlockTypes(h, cts[1..]);
        assert OtherTypes(h, cts) == [head] + OtherTypes(h, cts[1..]);
      }
    }
  }

  /** The interfaces of a graph synthesised from `ct`: always the content
      interface, and the localizable one exactly for page types. */
  function InterfacesFor(h: TypeHierarchy, ct: ContentType): (r: seq<GraphInterface>)
    ensures |r| > 0 && r[0] == ContentInterface
    ensures LocalizableInterface in r <==> IsAssignableFrom(h.pageData, ct.modelType)
    ensures |r| == if LocalizableInterface in r then 2 else 1
  {
    if IsAssignableFrom(h.pageData, ct.modelType) then [ContentInterface, LocalizableInterface]
    else [ContentInterface]
  }

  /** Some registered graph carries `t` as its "type" metadata. */
  predicate HasAnyType(registry: seq<ObjectGraph>, t: TypeId)
    ensures HasAnyType(registry, t) <==> IndexOfType(registry, t) < |registry|
  {
    exists i :: 0 <= i < |registry| && registry[i].typeMetadata == Some(t)
  }

  /** Position of the first graph of `registry` whose "type" metadata is `t`,
      or `|registry|` when there is none. */
  function IndexOfType(registry: seq<ObjectGraph>, t: TypeId): (k: nat)
    ensures k <= |registry|
    ensures k < |registry| ==> registry[k].typeMetadata == Some(t)
    ensures forall j :: 0 <= j < k ==> registry[j].typeMetadata != Some(t)
  {
    if registry == [] then 0
    else if registry[0].typeMetadata == Some(t) then 0
    else 1 + IndexOfType(registry[1..], t)
  }

  /** The first registered graph whose "type" metadata is `t`, or null. */
  function FirstOfType(registry: seq<ObjectGraph>, t: TypeId): (g: ObjectGraph?)
    ensures g == null <==> !HasAnyType(registry, t)
    ensures g != null ==> g in registry && g.typeMetadata == Some(t) && g.contentType.modelType == Some(t)
    ensures g != null ==> g == registry[IndexOfType(registry, t)]
  {
    var k := IndexOfType(registry, t);
    if k < |registry| then registry[k] else null
  }

  /** A property becomes a nested block field when its type is content data
      and it is not hidden. */
  predicate IsNestedBlockProperty(h: TypeHierarchy, p: Property) {
    IsAssignableFrom(h.contentData, Some(p.propertyType)) && p.notHidden
  }

  /** The field added for a nested block property against `registry`. */
  function FieldFor(p: Property, registry: seq<ObjectGraph>): (f: Field)
    ensures f.name == p.graphName && f.description == p.description
    ensures f.resolvedType == null <==> !HasAnyType(registry, p.propertyType)
  {
    Field(p.graphName, p.description, FirstOfType(registry, p.propertyType))
  }

  /** The nested block fields bound for `props`, one per qualifying property, in
      declaration order. */
  function NestedBlockFields(h: TypeHierarchy, props: seq<Property>, registry: seq<ObjectGraph>): (r: seq<Field>)
    ensures |r| <= |props|
  {
    if props == [] then []
    else
      (if IsNestedBlockProperty(h, props[0]) then [FieldFor(props[0], registry)] else [])
      + NestedBlockFields(h, props[1..], registry)
  }

  /** Number of the properties of `props` that become nested block fields. */
  function NestedBlockCount(h: TypeHierarchy, props: seq<Property>): nat {
    if props == [] then 0
    else (if IsNestedBlockProperty(h, props[0]) then 1 else 0) + NestedBlockCount(h, props[1..])
  }

  /** Exactly the qualifying properties get a field: each of them has its field
      among the bound ones, and every bound field is the field of one of them. */
  lemma {:induction false} NestedBlockFieldsExact(h: TypeHierarchy, props: seq<Property>, registry: seq<ObjectGraph>)
    ensures |NestedBlockFields(h, props, registry)| == NestedBlockCount(h, props)
    ensures forall i :: 0 <= i < |props| && IsNestedBlockProperty(h, props[i]) ==>
      FieldFor(props[i], registry) in NestedBlockFields(h, props, registry)
    ensures forall f :: f in NestedBlockFields(h, props, registry) ==>
      exists i :: 0 <= i < |props| && IsNestedBlockProperty(h, props[i]) && f == FieldFor(props[i], registry)
  {
    if props != [] {
      NestedBlockFieldsExact(h, props[1..], registry);
      assert forall i :: 1 <= i < |props| ==> props[i] == props[1..][i - 1];
    }
  }

  /** Binding one more property extends the bound fields by at most its own. */
  lemma {:induction false} NestedBlockFieldsAppend(h: TypeHierarchy, props: seq<Property>, p: Property, registry: seq<ObjectGraph>)
    ensures NestedBlockFields(h, props + [p], registry)
         == NestedBlockFields(h, props, registry)
            + (if IsNestedBlockProperty(h, p) then [FieldFor(p, registry)] else [])
  {
    if props == [] {
      assert [] + [p] == [p];
      assert [p][1..] == [];
    } else {
      assert (props + [p])[1..] == props[1..] + [p];
      NestedBlockFieldsAppend(h, props[1..], p, registry);
    }
  }

  /** The content types the graphs of `registry` classify by, in order. */
  function ContentTypesOf(registry: seq<ObjectGraph>): (r: seq<ContentType>)
    ensures |r| == |registry|
  {
    if registry == [] then [] else [registry[0].contentType] + ContentTypesOf(registry[1..])
  }

  lemma {:induction false} ContentTypesOfAt(registry: seq<ObjectGraph>)
    ensures forall i :: 0 <= i < |registry| ==> ContentTypesOf(registry)[i] == registry[i].contentType
  {
    if registry != [] {
      ContentTypesOfAt(registry[1..]);
    }
  }

  /** A registry holds a type exactly when one of its graphs' content types has
      that model type. */
  lemma {:induction false} HasAnyTypeIffModelled(registry: seq<ObjectGraph>, t: TypeId)
    ensures HasAnyType(registry, t) <==> ModelCount(ContentTypesOf(registry), t) > 0
  {
    ModelCountPositive(ContentTypesOf(registry), t);
    ContentTypesOfAt(registry);
  }

  /** Each graph of `graphs` is named after the content type it was created
      from and implements the interfaces synthesis gives that content type. */
  predicate Synthesized(h: TypeHierarchy, graphs: seq<ObjectGraph>) {
    forall g :: g in graphs ==> g.name == g.contentType.name && g.interfaces == InterfacesFor(h, g.contentType)
  }

  /** No graph occurs twice in `graphs`. */
  predicate Distinct(graphs: seq<ObjectGraph>) {
    forall i, j :: 0 <= i < j < |graphs| ==> graphs[i] != graphs[j]
  }

  lemma {:induction false} ContentTypesOfConcat(a: seq<ObjectGraph>, b: seq<ObjectGraph>)
    ensures ContentTypesOf(a + b) == ContentTypesOf(a) + ContentTypesOf(b)
  {
    if a == [] {
      assert a + b == b;
    } else {
      assert (a + b)[1..] == a[1..] + b;
      ContentTypesOfConcat(a[1..], b);
    }
  }

  /** The layout of a registry made of a batch of block graphs, the sentinel
      and a batch of other graphs. */
  lemma RegistryLayout(h: TypeHierarchy, blockGraphs: seq<ObjectGraph>, sentinel: ObjectGraph, otherGraphs: seq<ObjectGraph>)
    requires Synthesized(h, blockGraphs) && Synthesized(h, otherGraphs)
    requires sentinel.contentType == NoneResolvedContentType && sentinel.name == NoneResolvedGraphName
    requires sentinel.interfaces == [ContentInterface]
    ensures var registry := blockGraphs + [sentinel] + otherGraphs;
      && Synthesized(h, registry)
      && ContentTypesOf(registry) == ContentTypesOf(blockGraphs) + [NoneResolvedContentType] + ContentTypesOf(otherGraphs)
      && registry[..|blockGraphs|] == blockGraphs
      && registry[|blockGraphs|] == sentinel
      && registry[|blockGraphs| + 1..] == otherGraphs
  {
    ContentTypesOfConcat(blockGraphs, [sentinel]);
    ContentTypesOfConcat(blockGraphs + [sentinel], otherGraphs);
  }

  class ContentGraphUnion {
    const name: string
    /** The .NET type hierarchy the synthesis queries. */
    const hierarchy: TypeHierarchy
    /** The union's possible types, in registration order. */
    var possibleTypes: seq<ObjectGraph>

    /** Builds the union over `availableTypes`: block graphs in catalog order, the
        sentinel, then the other graphs in catalog order, no graph twice. Block
        graphs bind their fields against the block graphs only, the others
        against the whole registry; the sentinel gets none. */
    constructor (availableTypes: seq<ContentType>, hierarchy: TypeHierarchy)
      ensures name == UnionName && this.hierarchy == hierarchy
      ensures ContentTypesOf(possibleTypes)
           == BlockTypes(hierarchy, availableTypes) + [NoneResolvedContentType] + OtherTypes(hierarchy, availableTypes)
      ensures Distinct(possibleTypes)
      ensures Synthesized(hierarchy, possibleTypes)
      ensures forall i :: 0 <= i < |possibleTypes| ==> fresh(possibleTypes[i])
      ensures var nBlocks := |BlockTypes(hierarchy, availableTypes)|;
        && possibleTypes[nBlocks].fields == []
        && (forall g :: g in possibleTypes[..nBlocks] ==>
              g.fields == NestedBlockFields(hierarchy, g.contentType.properties, possibleTypes[..nBlocks]))
        && (forall g :: g in possibleTypes[nBlocks + 1..] ==>
              g.fields == NestedBlockFields(hierarchy, g.contentType.properties, possibleTypes))
    {
      name := UnionName;
      this.hierarchy := hierarchy;
      possibleTypes := [];
      new;
      var blockTypes := BlockTypes(hierarchy, availableTypes);
      var otherTypes := OtherTypes(hierarchy, availableTypes);

      var blockGraphs := CreateGraphs(blockTypes);
      assert possibleTypes == blockGraphs;

      var dummyGraphType := new ObjectGraph(NoneResolvedContentType, [ContentInterface]);
      AddPossibleType(dummyGraphType);

      // The non-block graphs are registered; the sequence itself is never read.
      var otherGraphs := CreateGraphs(otherTypes);

      RegistryLayout(hierarchy, blockGraphs, dummyGraphType, otherGraphs);
      assert possibleTypes == blockGraphs + [dummyGraphType] + otherGraphs;
      ContentTypesOfAt(possibleTypes);
      forall i | 0 <= i < |possibleTypes|
        ensures fresh(possibleTypes[i])
      {
        var n := |blockGraphs|;
        if i < n {
          assert possibleTypes[i] == blockGraphs[i];
        } else if n < i {
          assert possibleTypes[i] == otherGraphs[i - n - 1];
        }
      }
    }

    /** Registers `graph` as a possible type of the union; the registry never
        holds a graph twice. */
    method AddPossibleType(graph: ObjectGraph)
      requires Distinct(possibleTypes) && graph !in possibleTypes
      modifies this
      ensures possibleTypes == old(possibleTypes) + [graph]
      ensures Distinct(possibleTypes)
    {
      possibleTypes := possibleTypes + [graph];
    }

    /** Whether `target`, a value whose original type is `target`, belongs to the
        graph built from `contentType`: its own model type always does; a graph
        with a model type takes nothing else; a modelless graph takes exactly the
        types no registered graph carries. */
    function IsTypeOf(target: TypeId, contentType: ContentType): (r: bool)
      reads this
      ensures contentType.modelType == Some(target) ==> r
      ensures contentType.modelType.Some? && contentType.modelType != Some(target) ==> !r
      ensures contentType.modelType.None? ==> (r <==> !HasAnyType(possibleTypes, target))
    {
      var isTypeOf := Some(target) == contentType.modelType;
      if !isTypeOf && contentType.modelType.None? && !HasAnyType(possibleTypes, target) then true
      else isTypeOf
    }

    /** Adds a field to `objectGraph` for a non-hidden content-data property,
        resolved to the first registered graph of the property's type (or null);
        leaves the graph alone otherwise. */
    method FallbackSetFields(objectGraph: ObjectGraph, property: Property)
      modifies objectGraph
      ensures objectGraph.fields
           == old(objectGraph.fields)
              + (if IsNestedBlockProperty(hierarchy, property) then [FieldFor(property, possibleTypes)] else [])
    {
      var propType := property.propertyType;
      var description := property.description;
      var hasAttributeNotHide := property.notHidden;
      if propType in hierarchy.contentData && hasAttributeNotHide {
        var resolvedBlockGraphType := FirstOfType(possibleTypes, propType);
        objectGraph.AddField(Field(property.graphName, description, resolvedBlockGraphType));
      }
    }

    /** The graph factory's property walk: hands every property of `contentType`,
        in declaration order, to FallbackSetFields. */
    method AddPropertiesToGraph(graph: ObjectGraph, contentType: ContentType)
      modifies graph
      ensures graph.fields
           == old(graph.fields) + NestedBlockFields(hierarchy, contentType.properties, possibleTypes)
    {
      var props := contentType.properties;
      for i := 0 to |props|
        invariant graph.fields == old(graph.fields) + NestedBlockFields(hierarchy, props[..i], possibleTypes)
      {
        FallbackSetFields(graph, props[i]);
        NestedBlockFieldsAppend(hierarchy, props[..i], props[i], possibleTypes);
        assert props[..i + 1] == props[..i] + [props[i]];
      }
      assert props[..|props|] == props;
    }

    /** The selector of CreateGraphs' first pass: creates the graph of
        `contentType`, implementing the localizable interface too for a page
        type, and registers it. */
    method CreateGraph(contentType: ContentType) returns (graph: ObjectGraph)
      requires Distinct(possibleTypes)
      modifies this
      ensures fresh(graph) && graph.fields == []
      ensures graph.contentType == contentType && graph.name == contentType.name
      ensures graph.interfaces == InterfacesFor(hierarchy, contentType)
      ensures possibleTypes == old(possibleTypes) + [graph]
      ensures Distinct(possibleTypes)
    {
      var interfaces := [ContentInterface];
      if contentType.modelType.Some? && contentType.modelType.value in hierarchy.pageData {
        interfaces := interfaces + [LocalizableInterface];
      }
      graph := new ObjectGraph(contentType, interfaces);
      AddPossibleType(graph);
    }

    /** Synthesises one graph per content type in two passes: every graph is
        created and registered first, then graph `i` gets the fields of content
        type `i`, bound against the registry that now holds the whole batch. */
    method CreateGraphs(contentTypes: seq<ContentType>) returns (graphs: seq<ObjectGraph>)
      requires Distinct(possibleTypes)
      modifies this
      ensures possibleTypes == old(possibleTypes) + graphs
      ensures Distinct(possibleTypes)
      ensures ContentTypesOf(graphs) == contentTypes
      ensures forall k :: 0 <= k < |graphs| ==> fresh(graphs[k])
      ensures Synthesized(hierarchy, graphs)
      ensures forall g :: g in graphs ==>
        g.fields == NestedBlockFields(hierarchy, g.contentType.properties, possibleTypes)
    {
      // Pass 1: create and register every graph of the batch.
      graphs := [];
      var n := 0;
      while n < |contentTypes|
        invariant n <= |contentTypes| && |graphs| == n
        invariant possibleTypes == old(possibleTypes) + graphs
        invariant Distinct(possibleTypes)
        invariant ContentTypesOf(graphs) == contentTypes[..n]
        invariant forall g :: g in graphs ==> fresh(g) && g.fields == []
        invariant forall k :: 0 <= k < |graphs| ==> fresh(graphs[k])
        invariant Synthesized(hierarchy, graphs)
      {
        var graph := CreateGraph(contentTypes[n]);
        ContentTypesOfConcat(graphs, [graph]);
        assert contentTypes[..n + 1] == contentTypes[..n] + [contentTypes[n]];
        graphs := graphs + [graph];
        n := n + 1;
      }
      assert contentTypes[..n] == contentTypes;
      ContentTypesOfAt(graphs);
      assert Distinct(graphs) by {
        forall i, j | 0 <= i < j < |graphs| ensures graphs[i] != graphs[j] {
          assert graphs[i] == possibleTypes[|old(possibleTypes)| + i];
          assert graphs[j] == possibleTypes[|old(possibleTypes)| + j];
        }
      }

      // Pass 2: bind the fields of graph i from content type i.
      AddPropertiesToGraphs(graphs, contentTypes);
    }

    /** The second pass of CreateGraphs: graph `i` gets the fields of content
        type `i`, bound against the registry as it stands. */
    method AddPropertiesToGraphs(graphs: seq<ObjectGraph>, contentTypes: seq<ContentType>)
      requires |graphs| == |contentTypes| && Distinct(graphs)
      requires forall g :: g in graphs ==> g.fields == []
      modifies graphs
      ensures forall k :: 0 <= k < |graphs| ==>
        graphs[k].fields == NestedBlockFields(hierarchy, contentTypes[k].properties, possibleTypes)
    {
      for i := 0 to |graphs|
        invariant forall k :: 0 <= k < i ==>
          graphs[k].fields == NestedBlockFields(hierarchy, contentTypes[k].properties, possibleTypes)
        invariant forall k :: i <= k < |graphs| ==> graphs[k].fields == []
      {
        assert graphs[i] in graphs;
        AddPropertiesToGraph(graphs[i], contentTypes[i]);
      }
    }
  }
}

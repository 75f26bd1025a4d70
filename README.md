# Content union type synthesis (Graphify.EPiServer.Cms)

This project models `ContentGraphUnion`, the GraphQL union type over every
EPiServer content type. When it is built, it synthesises one object graph per
content type of the catalog and registers each graph as a possible type of the
union, in this order:

1. the block types, in catalog order;
2. a sentinel graph `NoneResolvedType`, which has no model type;
3. every other content type, in catalog order.

Each batch is synthesised in two passes. The first pass creates and registers
every graph of the batch. The second pass gives graph `i` the nested block
fields of content type `i`. Each such field is resolved against the registry
as it stands at that point. So a block graph's fields can only resolve to
block graphs, while the other graphs' fields can resolve to any graph with a model type.

A graph claims a value in two cases:

- the value's original type is the graph's model type;
- the graph is modelless (like the sentinel) and no registered graph carries
  the value's type as its `"type"` metadata.

The model is split into three modules:

- `ContentTypes` holds the catalog values: content types, their properties,
  and the .NET type hierarchy. A base type (`BlockData`, `PageData`,
  `IContentData`) is given as the set of the types assignable to it.
- `ContentGraphUnion` holds the two classes. `ObjectGraph` has fields that grow
  in place. `ContentGraphUnion` has a registry (`possibleTypes`) that grows in
  place. The module also holds the partition, the registry lookups, the field
  binding, and the two-pass `CreateGraphs`, each proved against pure
  specification functions.
- `Classification` holds what the built registry decides:
  - how many graphs claim a value;
  - which graph claims it first;
  - when a nested block field resolves to a graph.

## Model

| member | source | states |
|---|---|---|
| ContentGraphUnion.IsBlockType | src/ContentGraphUnion.cs:57-58 | A content type is a block type when its model type is present and assignable to `BlockData`; a modelless content type never is. |
| ContentGraphUnion.WhereBlockTypeIs | src/ContentGraphUnion.cs:36-37 | The catalog's content types whose block-ness is the given one, in catalog order: the common body of the two `Where` filters. |
| ContentGraphUnion.BlockTypes | src/ContentGraphUnion.cs:36 | The block types of the catalog, in catalog order. |
| ContentGraphUnion.OtherTypes | src/ContentGraphUnion.cs:37 | The content types of the catalog that are not block types, in catalog order. |
| ContentGraphUnion.PartitionMembers | src/ContentGraphUnion.cs:36-37 | A content type is in the block partition exactly when it is in the catalog and is a block type. It is in the other partition exactly when it is in the catalog and is not a block type. A modelless content type always lands with the others. |
| ContentGraphUnion.PartitionIsExact | src/ContentGraphUnion.cs:36-37 | Every catalog entry lands in exactly one partition, as often as it occurs in the catalog. |
| ContentGraphUnion.PartitionKeepsOrder | src/ContentGraphUnion.cs:36-37 | Both partitions keep catalog order: filtering a concatenation is the concatenation of the filtered halves. |
| ContentGraphUnion.PartitionCounts | src/ContentGraphUnion.cs:57-58 | The two partitions split the catalog's count of each model type. No block type is modelless, because a null type is not assignable to `BlockData`. |
| ContentGraphUnion.InterfacesFor | src/ContentGraphUnion.cs:117-121 | A graph always implements the content interface, and it comes first. The localizable interface is added exactly when the model type is a `PageData`, and no other interface is added. |
| ContentGraphUnion.ContentGraphUnion.CreateGraph | src/ContentGraphUnion.cs:115-131 | Creates a fresh, field-less graph of the content type, with the interfaces `InterfacesFor` gives it. Appends the graph to the registry, which keeps the registry free of duplicates. |
| ContentGraphUnion.ContentGraphUnion.AddPossibleType | src/ContentGraphUnion.cs:130 | Appends the graph to the registry. A registry without duplicates stays that way. |
| ContentGraphUnion.ObjectGraph.constructor | src/ContentGraphUnion.cs:123-127 | The new graph is named after its content type, captures that content type, has the given interfaces and has no fields. |
| ContentGraphUnion.ObjectGraph.AddField | src/ContentGraphUnion.cs:96-102 | Appends the field to the graph's fields. |
| ContentGraphUnion.ContentGraphUnion.IsTypeOf | src/ContentGraphUnion.cs:60-77 | A graph always claims its own model type. A graph with a model type claims no other type. A modelless graph claims a type exactly when no registered graph carries it. |
| ContentGraphUnion.HasAnyType | src/ContentGraphUnion.cs:66-70 | Some registered graph carries the type as its `"type"` metadata; this holds exactly when the first position carrying it lies inside the registry. |
| ContentGraphUnion.HasAnyTypeIffModelled | src/ContentGraphUnion.cs:66-70 | The registry carries a type exactly when the content type of one of its graphs has that model type. |
| ContentGraphUnion.IndexOfType | src/ContentGraphUnion.cs:90-94 | Returns the first registry position whose graph carries the type, or the registry length when none does. |
| ContentGraphUnion.FirstOfType | src/ContentGraphUnion.cs:90-94 | Returns null exactly when no graph carries the type. Otherwise it returns the graph at the first position carrying it, and that graph's content type has the type as its model type. |
| ContentGraphUnion.ContentGraphUnion.FallbackSetFields | src/ContentGraphUnion.cs:79-106 | Adds exactly one field, resolved to the first graph of the property's type (or null), when the property type is `IContentData` and the property is not hidden. Otherwise the graph is left unchanged. |
| ContentGraphUnion.IsNestedBlockProperty | src/ContentGraphUnion.cs:84-87 | A property becomes a nested block field exactly when its type is `IContentData`-assignable and it is not hidden. |
| ContentGraphUnion.FieldFor | src/ContentGraphUnion.cs:96-102 | The field added for a nested block property carries the property's name and description; its resolved type is null exactly when no registered graph carries the property's type. |
| ContentGraphUnion.NestedBlockFields | src/ContentGraphUnion.cs:87-102 | The fields bound for a property list: one per non-hidden `IContentData` property, in declaration order, so never more fields than properties. |
| ContentGraphUnion.NestedBlockFieldsExact | src/ContentGraphUnion.cs:87-102 | There are exactly as many bound fields as qualifying properties; every qualifying property gets its field, and every bound field belongs to a qualifying property. |
| ContentGraphUnion.ContentGraphUnion.AddPropertiesToGraph | src/ContentGraphUnion.cs:138-143 | Walks the properties in declaration order through FallbackSetFields. The graph's fields gain exactly the nested block fields of the content type, in order. |
| ContentGraphUnion.ContentGraphUnion.AddPropertiesToGraphs | src/ContentGraphUnion.cs:136-144 | Graph `i` receives the nested block fields of content type `i`, bound against the registry. |
| ContentGraphUnion.ContentGraphUnion.CreateGraphs | src/ContentGraphUnion.cs:112-147 | Registers one fresh graph per content type, in order, without duplicates; besides the union it changes only the graphs it creates. Every graph is registered before any field is bound, so each graph's fields are bound against the registry that already holds the whole batch. |
| ContentGraphUnion.ContentGraphUnion.constructor | src/ContentGraphUnion.cs:26-54 | Lays the registry out as block graphs, then the sentinel, then the other graphs, with no duplicates; every registered graph is newly created. The sentinel has only the content interface and no fields. Block graphs bind their fields against the block graphs; the others bind theirs against the whole registry. |
| Classification.MatchCountSplit | src/ContentGraphUnion.cs:60-77 | Among any graphs, the ones claiming a type are those modelled by it, plus every modelless one when no registered graph carries the type. |
| Classification.RegistryClaimsCatalog | src/ContentGraphUnion.cs:36-54 | A built union's registry carries a type exactly when the catalog has it as a model type. |
| Classification.ClaimsAfterConstruction | src/ContentGraphUnion.cs:43-50 | In a built union, a catalog type is claimed by its own graphs only. Any other type is claimed by the sentinel and by every modelless catalog graph. The sentinel claims a type exactly when the catalog lacks it. If the catalog's model types are unique and present, exactly one graph claims each type. |
| Classification.FirstClaimant | src/ContentGraphUnion.cs:39-50 | In registration order, the first graph to claim a type is the first graph carrying it when there is one. Otherwise it is the sentinel, which precedes every modelless graph. |
| Classification.FieldResolvesIffModelled | src/ContentGraphUnion.cs:90-101 | A nested block field resolves to a graph exactly when a content type of the registry it was bound against has the property's type as its model type. |
| Classification.NestedBlocksResolve | src/ContentGraphUnion.cs:39-54 | A block graph's field resolves exactly when a block type of the catalog has the property's type. The other graphs' fields resolve exactly when any catalog type has it. |

## Left out

- src/ContentGraph.cs and src/ContentGraphInterface.cs are not part of this model. They are GraphQL field declarations whose resolvers only call content loading, URL and pagination services outside this repository.
- Service location and the catalog load (`GetAvailableEpiContentTypes`) are left out. The catalog is a parameter of the constructor.
- The graph interfaces are left out; they are two constant tags here.
- Scalar fields are left out. The graph factory (`ObjectGraphTypeFactory`, in `Graphify.EPiServer.Core`) is outside this model; its property walk is modelled as handing every property, in declaration order, to FallbackSetFields, which adds only nested block fields.
- The derivation of a field name and the "not hidden" attribute condition are the factory's; they are given per property (`graphName`, `notHidden`).
- A graph's `"type"` metadata is modelled as its content type's model type, and as absent when there is none. If the factory stored a null value instead, the metadata comparisons would throw on the sentinel. The factory is outside this model, so this is not modelled.
- ObjectGraph.AddField: modelled as a plain append. GraphQL.NET's own checks when adding a field are left out: it rejects a duplicate field name and a field with neither `Type` nor `ResolvedType`. Where the library applies them, a nested block property with no registered graph makes construction throw instead of adding a null-typed field. One example is a block with a page-typed property, because block fields are bound against the block graphs only.
- GraphQL.NET's own checks when registering a possible type (duplicate names) are left out. The registry is an append-only list, and every graph appended is freshly created.
- The second pass fetches content type `i` by `ElementAt(i)` on a lazy filter of the catalog, which enumerates it again. Over the same catalog this yields the same element as the first pass, so the model indexes the filtered sequence directly.
- The constructor drops `otherGraphs` (the second batch concatenated with the sentinel) after computing it, because it is never read.
- GraphQL.NET's runtime choice among the union's possible types is not modelled. `Classification.FirstMatch` and `Classification.MatchCount` only describe what the registry's `IsTypeOf` closures decide.
- For a nested block property whose type has no registered graph, the code still calls `AddField`, with a null `ResolvedType`; it does not skip the property (`FallbackSetFields`, `FieldResolvesIffModelled`).
- A value whose type no registered graph carries is claimed not only by the sentinel but by every modelless catalog graph (`ClaimsAfterConstruction`). Those graphs come after the sentinel in registration order (`FirstClaimant`).

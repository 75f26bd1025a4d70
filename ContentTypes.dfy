/** The part of the EPiServer content-type catalog and of the .NET type system
    that the content union's type synthesis depends on. Runtime type identity
    and reflection are abstract: a type is an identifier, and each base type the
    synthesis asks `IsAssignableFrom` about is given as the set of types
    assignable to it. */
module ContentTypes {

  /** Identity of a .NET type (its full name). */
  type TypeId = string

  datatype Option<+T> = None | Some(value: T)

  /** The three base types of the content model the synthesis tests against:
      `BlockData`, `PageData` and `IContentData`, each given as the set of the
      types assignable to it. */
  datatype TypeHierarchy = TypeHierarchy(
    blockData: set<TypeId>,
    pageData: set<TypeId>,
    contentData: set<TypeId>)

  /** `typeof(Base).IsAssignableFrom(t)`, where `Base` is given by the set of
      types assignable to it; a null type is assignable to nothing. */
  predicate IsAssignableFrom(base: set<TypeId>, t: Option<TypeId>) {
    t.Some? && t.value in base
  }

  /** A property of a content type's model class: the field name the graph
      factory derives for it, its declared type, its description, and whether
      its graph attribute lets it be shown. */
  datatype Property = Property(
    graphName: string,
    propertyType: TypeId,
    description: string,
    notHidden: bool)

  /** A content type of the catalog. `modelType` is absent for a content type
      with no model class behind it. */
  datatype ContentType = ContentType(
    name: string,
    modelType: Option<TypeId>,
    properties: seq<Property>)

  /** Number of content types in `cts` whose model type is `t`. */
  function ModelCount(cts: seq<ContentType>, t: TypeId): nat {
    if cts == [] then 0
    else (if cts[0].modelType == Some(t) then 1 else 0) + ModelCount(cts[1..], t)
  }

  /** Number of content types in `cts` without a model type. */
  function ModellessCount(cts: seq<ContentType>): nat {
    if cts == [] then 0
    else (if cts[0].modelType.None? then 1 else 0) + ModellessCount(cts[1..])
  }

  /** No model type backs two content types of `cts`. */
  predicate UniqueModelTypes(cts: seq<ContentType>) {
    forall i, j :: 0 <= i < j < |cts| ==> cts[i].modelType.None? || cts[i].modelType != cts[j].modelType
  }

  lemma {:induction false} ModelCountPositive(cts: seq<ContentType>, t: TypeId)
    ensures ModelCount(cts, t) > 0 <==> exists i :: 0 <= i < |cts| && cts[i].modelType == Some(t)
  {
    if cts != [] {
      ModelCountPositive(cts[1..], t);
      if cts[0].modelType != Some(t) && exists i :: 0 <= i < |cts| && cts[i].modelType == Some(t) {
        var i :| 0 <= i < |cts| && cts[i].modelType == Some(t);
        assert cts[1..][i - 1].modelType == Some(t);
      }
    }
  }

  lemma {:induction false} ModelCountAtMostOne(cts: seq<ContentType>, t: TypeId)
    requires UniqueModelTypes(cts)
    ensures ModelCount(cts, t) <= 1
  {
    if cts != [] {
      ModelCountAtMostOne(cts[1..], t);
      if cts[0].modelType == Some(t) {
        forall i | 0 <= i < |cts[1..]| ensures cts[1..][i].modelType != Some(t) {
          assert cts[1..][i] == cts[i + 1];
        }
        ModelCountPositive(cts[1..], t);
      }
    }
  }

  lemma {:induction false} CountsOfConcat(a: seq<ContentType>, b: seq<ContentType>, t: TypeId)
    ensures ModelCount(a + b, t) == ModelCount(a, t) + ModelCount(b, t)
    ensures ModellessCount(a + b) == ModellessCount(a) + ModellessCount(b)
  {
    if a != [] {
      assert (a + b)[1..] == a[1..] + b;
      CountsOfConcat(a[1..], b, t);
    } else {
      assert a + b == b;
    }
  }
}

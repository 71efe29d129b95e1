/** A model file processes the properties of a model one call at a time, in
    document order. This module states what the component holds after a
    whole sequence of such calls. */
module PropertySequence {
  import opened ModelComponents
  import opened ImmutableObjectMapper

  /** The properties that generate fragments, in their original order. */
  function NonNullProperties(ps: seq<PropertyComponent>): (r: seq<PropertyComponent>)
    ensures |r| <= |ps|
    ensures forall i :: 0 <= i < |r| ==> !r[i].propertyType.NullType? && r[i] in ps
    ensures forall q :: q in ps && !q.propertyType.NullType? ==> q in r
  {
    if ps == [] then []
    else
      var init, last := ps[..|ps| - 1], ps[|ps| - 1];
      assert ps == init + [last];
      if last.propertyType.NullType? then NonNullProperties(init)
      else NonNullProperties(init) + [last]
  }

  /** Filtering a concatenation filters each part and keeps them in order:
      with NonNullPropertiesOfOne, this fixes the result as the non-null
      properties in document order, duplicates included. */
  lemma {:induction false} NonNullPropertiesAppend(xs: seq<PropertyComponent>, ys: seq<PropertyComponent>)
    ensures NonNullProperties(xs + ys) == NonNullProperties(xs) + NonNullProperties(ys)
  {
    if ys == [] {
      assert xs + ys == xs;
    } else {
      var init, last := ys[..|ys| - 1], ys[|ys| - 1];
      NonNullPropertiesAppend(xs, init);
      assert (xs + ys)[..|xs + ys| - 1] == xs + init;
      assert (xs + ys)[|xs + ys| - 1] == last;
    }
  }

  /** A single property is kept exactly when it is not null. */
  lemma NonNullPropertiesOfOne(p: PropertyComponent)
    ensures NonNullProperties([p]) == if p.propertyType.NullType? then [] else [p]
  {
    assert [p][..0] == [];
  }

  /** The component after GenerateAndAddComponentsFor has been called on each
      of `ps` in turn, starting from `c`: that method ends with
      `component == AddComponentsFor(generators, old(component), property)`,
      and this folds that one-step result over the sequence. */
  function AddComponentsForAll(g: Generators, c: ModelComponent, ps: seq<PropertyComponent>): ModelComponent {
    if ps == [] then c
    else AddComponentsFor(g, AddComponentsForAll(g, c, ps[..|ps| - 1]), ps[|ps| - 1])
  }

  /** Each sequence grows by exactly the number of non-null properties, and
      what it held before is kept as a prefix. */
  lemma {:induction false} AddComponentsForAllGrowth(g: Generators, c: ModelComponent, ps: seq<PropertyComponent>, column: Column)
    ensures var r := AddComponentsForAll(g, c, ps).Entries(column);
      && |r| == |c.Entries(column)| + |NonNullProperties(ps)|
      && r[..|c.Entries(column)|] == c.Entries(column)
  {
    if ps != [] {
      var init := ps[..|ps| - 1];
      AddComponentsForAllGrowth(g, c, init, column);
      var before := AddComponentsForAll(g, c, init).Entries(column);
      var after := AddComponentsForAll(g, c, ps).Entries(column);
      assert after[..|before|] == before;
      assert after[..|c.Entries(column)|] == before[..|c.Entries(column)|];
    }
  }

  /** The k-th entry appended to any sequence comes from the k-th non-null
      property: the six sequences stay parallel. */
  lemma {:induction false} AddComponentsForAllEntry(g: Generators, c: ModelComponent, ps: seq<PropertyComponent>, column: Column, k: nat)
    requires k < |NonNullProperties(ps)|
    ensures |c.Entries(column)| + k < |AddComponentsForAll(g, c, ps).Entries(column)|
    ensures AddComponentsForAll(g, c, ps).Entries(column)[|c.Entries(column)| + k]
         == FragmentsFor(g, NonNullProperties(ps)[k]).value.At(column)
  {
    AddComponentsForAllGrowth(g, c, ps, column);
    var init, last := ps[..|ps| - 1], ps[|ps| - 1];
    AddComponentsForAllGrowth(g, c, init, column);
    var before := AddComponentsForAll(g, c, init).Entries(column);
    var after := AddComponentsForAll(g, c, ps).Entries(column);
    if k < |NonNullProperties(init)| {
      AddComponentsForAllEntry(g, c, init, column, k);
      assert after[..|before|] == before;
      assert NonNullProperties(ps)[k] == NonNullProperties(init)[k];
    } else {
      assert NonNullProperties(ps) == NonNullProperties(init) + [last];
      assert after == before + [FragmentsFor(g, last).value.At(column)];
    }
  }

  /** The k-th initialiser and key constant belong to the k-th non-null
      property. */
  lemma AddComponentsForAllCommonEntries(g: Generators, c: ModelComponent, ps: seq<PropertyComponent>, k: nat)
    requires k < |NonNullProperties(ps)|
    ensures var r, q := AddComponentsForAll(g, c, ps), NonNullProperties(ps)[k];
      && |c.initialisers| + k < |r.initialisers|
      && r.initialisers[|c.initialisers| + k] == GenInitializerForVariable(q.name, q.constantName)
      && |c.stringConstants| + k < |r.stringConstants|
      && r.stringConstants[|c.stringConstants| + k] == g.stringConstant(q.constantName, q.key)
  {
    var r, q := AddComponentsForAll(g, c, ps), NonNullProperties(ps)[k];
    var f := FragmentsFor(g, q).value;
    AddComponentsForAllEntry(g, c, ps, Initialisers, k);
    assert r.initialisers[|c.initialisers| + k] == f.initialiser;
    AddComponentsForAllEntry(g, c, ps, StringConstants, k);
    assert r.stringConstants[|c.stringConstants| + k] == f.stringConstant;
  }

  /** Processing keeps the six sequences the same length. */
  lemma {:induction false} AddComponentsForAllKeepsAligned(g: Generators, c: ModelComponent, ps: seq<PropertyComponent>)
    requires c.Aligned()
    ensures AddComponentsForAll(g, c, ps).Aligned()
    ensures |AddComponentsForAll(g, c, ps).declarations| == |c.declarations| + |NonNullProperties(ps)|
  {
    forall column {
      AddComponentsForAllGrowth(g, c, ps, column);
    }
    var r := AddComponentsForAll(g, c, ps);
    assert |r.Entries(Declarations)| == |r.declarations|;
    assert |r.Entries(Description)| == |r.description|;
    assert |r.Entries(Decoders)| == |r.decoders|;
    assert |r.Entries(Encoders)| == |r.encoders|;
    assert |r.Entries(StringConstants)| == |r.stringConstants|;
    assert |r.Entries(Initialisers)| == |r.initialisers|;
  }

  /** A property `a`, a null property `b` and a property `d`, processed from an
      empty component, leave exactly the fragments of `a` and then of `d`. */
  lemma NullPropertyIsSkipped(g: Generators, a: PropertyComponent, b: PropertyComponent, d: PropertyComponent, column: Column)
    requires !a.propertyType.NullType? && b.propertyType.NullType? && !d.propertyType.NullType?
    ensures AddComponentsForAll(g, EmptyComponent(), [a, b, d]).Entries(column)
         == [FragmentsFor(g, a).value.At(column), FragmentsFor(g, d).value.At(column)]
  {
    var e := EmptyComponent();
    assert [a, b, d][..2] == [a, b];
    assert [a, b][..1] == [a];
    assert [a][..0] == [];
    assert AddComponentsForAll(g, e, [a][..0]) == e;
    var afterA := AddComponentsForAll(g, e, [a]);
    assert afterA == AddComponentsFor(g, e, a) == e.Push(FragmentsFor(g, a).value);
    assert AddComponentsForAll(g, e, [a, b]) == afterA;
    assert AddComponentsForAll(g, e, [a, b, d]) == afterA.Push(FragmentsFor(g, d).value);
  }

  /** The property `id` of type Int, under the key constant `idKey`: its
      initialiser reads `self.id = try? map.value(idKey)`. */
  lemma IdInitialiser(g: Generators)
    ensures var p := PropertyComponent("id", "Int", "idKey", "id", ValueType);
      && FragmentsFor(g, p).value.initialiser == "self.id = try? map.value(idKey)"
      && FragmentsFor(g, p).value.stringConstant == g.stringConstant("idKey", "id")
      && FragmentsFor(g, p).value.declaration == g.variableDeclaration("id", "Int", false)
      && FragmentsFor(g, p).value.decoder == g.decoder("id", "Int", "idKey", false)
  {
    var p := PropertyComponent("id", "Int", "idKey", "id", ValueType);
    var line := GenInitializerForVariable("id", "idKey");
    assert line == "self." + "id" + " = try? map.value(" + "idKey" + ")";
    assert line == "self.id = try? map.value(idKey)";
    assert FragmentsFor(g, p).value.initialiser == line;
  }
}

/**
 Layering configuration documents: objects merge key by key, everything else is replaced,
 and a provider's `models` catalog is one value.
 */
module ConfigMerge {
  import opened Prelude
  import opened Json

  type Path = seq<string>

  // `providers.<name>.models`
  predicate IsCatalog(path: Path, key: string) {
    key == "models" && |path| == 2 && path[0] == "providers"
  }

  function Merged(base: Value, overlay: Value, path: Path): Value
    decreases overlay
  {
    if base.Obj? && overlay.Obj? then
      Obj(map key | key in base.fields.Keys + overlay.fields.Keys ::
            if key in overlay.fields then Field(base, overlay, path, key) else base.fields[key])
    else overlay
  }

  function Field(base: Value, overlay: Value, path: Path, key: string): Value
    requires base.Obj? && overlay.Obj? && key in overlay.fields
    decreases overlay, 0
  {
    if IsCatalog(path, key) || key !in base.fields then overlay.fields[key]
    else Merged(base.fields[key], overlay.fields[key], path + [key])
  }

  lemma FieldsOfMerged(base: Value, overlay: Value, path: Path)
    requires base.Obj? && overlay.Obj?
    ensures var m := Merged(base, overlay, path);
            && m.Obj? && m.fields.Keys == base.fields.Keys + overlay.fields.Keys
            && (forall key :: key in overlay.fields ==> m.fields[key] == Field(base, overlay, path, key))
            && (forall key :: key in base.fields && key !in overlay.fields ==> m.fields[key] == base.fields[key])
  {}

  // ---------- the merge itself ----------

  class PathStack {
    var keys: Path

    constructor ()
      ensures keys == []
    {
      keys := [];
    }

    method Push(key: string)
      modifies this
      ensures keys == old(keys) + [key]
    {
      keys := keys + [key];
    }

    method Pop()
      requires keys != []
      modifies this
      ensures keys == old(keys)[..|old(keys)| - 1]
    {
      keys := keys[..|keys| - 1];
    }
  }

  // The keys not remaining are merged, the others are still the base's.
  ghost predicate PartlyMerged(base: Value, overlay: Value, path: Path, fields: map<string, Value>,
                               remaining: set<string>)
    requires base.Obj? && overlay.Obj? && remaining <= overlay.fields.Keys
  {
    && fields.Keys == base.fields.Keys + (overlay.fields.Keys - remaining)
    && (forall k :: k in fields && k in overlay.fields && k !in remaining ==>
          fields[k] == Field(base, overlay, path, k))
    && (forall k :: k in fields && (k !in overlay.fields || k in remaining) ==>
          k in base.fields && fields[k] == base.fields[k])
  }

  lemma OneMoreKey(base: Value, overlay: Value, path: Path, fields: map<string, Value>, remaining: set<string>,
                   key: string)
    requires base.Obj? && overlay.Obj? && remaining <= overlay.fields.Keys && key in remaining
    requires PartlyMerged(base, overlay, path, fields, remaining)
    ensures key in fields <==> key in base.fields
    ensures key in fields ==> fields[key] == base.fields[key]
    ensures PartlyMerged(base, overlay, path, fields[key := Field(base, overlay, path, key)], remaining - {key})
  {}

  lemma AllKeysMerged(base: Value, overlay: Value, path: Path, fields: map<string, Value>)
    requires base.Obj? && overlay.Obj? && PartlyMerged(base, overlay, path, fields, {})
    ensures Obj(fields) == Merged(base, overlay, path)
  {
    FieldsOfMerged(base, overlay, path);
    assert fields == Merged(base, overlay, path).fields;
  }

  // Whatever order the overlay's keys come in, the result is the same, and the path stack
  // is back where it was.
  method MergeValueAt(base: Value, overlay: Value, path: PathStack) returns (merged: Value)
    modifies path
    ensures path.keys == old(path.keys)
    ensures merged == Merged(base, overlay, old(path.keys))
    decreases overlay
  {
    if !(base.Obj? && overlay.Obj?) {
      return overlay;
    }
    ghost var here := path.keys;
    var fields := base.fields;
    var remaining := overlay.fields.Keys;
    while remaining != {}
      invariant remaining <= overlay.fields.Keys
      invariant path.keys == here
      invariant PartlyMerged(base, overlay, here, fields, remaining)
      decreases |remaining|
    {
      var key :| key in remaining;
      OneMoreKey(base, overlay, here, fields, remaining, key);
      var value := overlay.fields[key];
      remaining := remaining - {key};
      if key == "models" && |path.keys| == 2 && path.keys[0] == "providers" {
        fields := fields[key := value];
        continue;
      }
      if key in fields {
        path.Push(key);
        assert path.keys[..|path.keys| - 1] == here;
        var inner := MergeValueAt(fields[key], value, path);
        path.Pop();
        fields := fields[key := inner];
      } else {
        fields := fields[key := value];
      }
    }
    AllKeysMerged(base, overlay, here, fields);
    merged := Obj(fields);
  }

  class Document {
    var root: Value

    constructor (root: Value)
      ensures this.root == root
    {
      this.root := root;
    }

    // `merge_value`
    method Apply(overlay: Value)
      modifies this
      ensures root == Merged(old(root), overlay, [])
    {
      var path := new PathStack();
      root := MergeValueAt(root, overlay, path);
    }
  }

  // ---------- laws of the merge ----------

  /** A document merged with itself is unchanged. */
  lemma {:induction false} MergeWithItself(v: Value, path: Path)
    ensures Merged(v, v, path) == v
    decreases v
  {
    if v.Obj? {
      forall key | key in v.fields ensures Field(v, v, path, key) == v.fields[key] {
        MergeWithItself(v.fields[key], path + [key]);
      }
      assert Merged(v, v, path).fields == v.fields;
    }
  }

  /** Merging an overlay a second time changes nothing more. */
  lemma {:induction false} MergeTwice(base: Value, overlay: Value, path: Path)
    ensures Merged(Merged(base, overlay, path), overlay, path) == Merged(base, overlay, path)
    decreases overlay
  {
    if base.Obj? && overlay.Obj? {
      var once := Merged(base, overlay, path);
      FieldsOfMerged(base, overlay, path);
      forall key | key in overlay.fields ensures Field(once, overlay, path, key) == once.fields[key] {
        if !IsCatalog(path, key) {
          if key in base.fields {
            MergeTwice(base.fields[key], overlay.fields[key], path + [key]);
          } else {
            MergeWithItself(overlay.fields[key], path + [key]);
          }
        }
      }
      FieldsOfMerged(once, overlay, path);
      assert Merged(once, overlay, path).fields == once.fields;
    } else {
      MergeWithItself(overlay, path);
    }
  }

  // ---------- looking up a path ----------

  function At(v: Value, p: Path): Option<Value>
    decreases |p|
  {
    if p == [] then Some(v)
    else if v.Obj? && p[0] in v.fields then At(v.fields[p[0]], p[1..])
    else None
  }

  // Both documents hold an object at every proper prefix of `p` and the next step in it, and
  // the step is not the one into a provider's catalog.
  ghost predicate SharedBelow(base: Value, overlay: Value, p: Path, n: nat)
    requires n <= |p|
  {
    forall i :: 0 <= i < n ==> SharedStep(base, overlay, p, i)
  }

  ghost predicate ObjectAt(v: Value, p: Path) {
    At(v, p).Some? && At(v, p).value.Obj?
  }

  ghost predicate SharedStep(base: Value, overlay: Value, p: Path, i: nat)
    requires i < |p|
  {
    && ObjectAt(base, p[..i]) && ObjectAt(overlay, p[..i])
    && p[i] in At(base, p[..i]).value.fields && p[i] in At(overlay, p[..i]).value.fields
    && !(i == 2 && p[0] == "providers" && p[2] == "models")
  }

  lemma {:induction false} AtStep(v: Value, p: Path, key: string)
    ensures At(v, p + [key]) ==
            if ObjectAt(v, p) && key in At(v, p).value.fields then Some(At(v, p).value.fields[key]) else None
    decreases |p|
  {
    if p == [] {
      assert (p + [key])[1..] == [];
    } else if v.Obj? && p[0] in v.fields {
      assert (p + [key])[1..] == p[1..] + [key];
      AtStep(v.fields[p[0]], p[1..], key);
    }
  }

  lemma {:induction false} AtJoins(v: Value, p: Path, q: Path)
    ensures At(v, p + q) == if At(v, p).Some? then At(At(v, p).value, q) else None
    decreases |p|
  {
    if p == [] {
      assert p + q == q;
    } else {
      assert (p + q)[1..] == p[1..] + q;
      if v.Obj? && p[0] in v.fields {
        AtJoins(v.fields[p[0]], p[1..], q);
      }
    }
  }

  // Along shared steps the merge of the documents is the merge of what they hold there.
  lemma {:induction false} MergedAlong(base: Value, overlay: Value, p: Path, n: nat)
    requires n <= |p| && SharedBelow(base, overlay, p, n)
    ensures At(base, p[..n]).Some? && At(overlay, p[..n]).Some?
    ensures At(Merged(base, overlay, []), p[..n]) ==
            Some(Merged(At(base, p[..n]).value, At(overlay, p[..n]).value, p[..n]))
  {
    if n > 0 {
      var q, key := p[..n - 1], p[n - 1];
      assert SharedBelow(base, overlay, p, n - 1);
      MergedAlong(base, overlay, p, n - 1);
      assert SharedStep(base, overlay, p, n - 1);
      assert p[..n] == q + [key];
      AtStep(base, q, key);
      AtStep(overlay, q, key);
      AtStep(Merged(base, overlay, []), q, key);
    } else {
      assert p[..0] == [];
    }
  }

  /**
   The merge, seen from a path: as far as both documents share objects it goes down both;
   where they part, everything below is the base's if the overlay has no such key, and the
   overlay's otherwise.
   */
  lemma MergeSeenFromAPath(base: Value, overlay: Value, p: Path, n: nat)
    requires n < |p| && SharedBelow(base, overlay, p, n) && !SharedStep(base, overlay, p, n)
    ensures At(Merged(base, overlay, []), p) ==
            if ObjectAt(base, p[..n]) && ObjectAt(overlay, p[..n])
               && p[n] !in At(overlay, p[..n]).value.fields
            then At(base, p) else At(overlay, p)
  {
    var q, key, rest := p[..n], p[n], p[n + 1..];
    MergedAlong(base, overlay, p, n);
    assert p == (q + [key]) + rest;
    AtJoins(Merged(base, overlay, []), q + [key], rest);
    AtJoins(base, q + [key], rest);
    AtJoins(overlay, q + [key], rest);
    AtStep(Merged(base, overlay, []), q, key);
    AtStep(base, q, key);
    AtStep(overlay, q, key);
  }

  /** A path shared to its end holds an object with the keys of both, or the overlay's value. */
  lemma MergeAtASharedPath(base: Value, overlay: Value, p: Path)
    requires SharedBelow(base, overlay, p, |p|)
    ensures At(base, p).Some? && At(overlay, p).Some? && At(Merged(base, overlay, []), p).Some?
    ensures var b, o, m := At(base, p).value, At(overlay, p).value, At(Merged(base, overlay, []), p).value;
            if b.Obj? && o.Obj? then m.Obj? && m.fields.Keys == b.fields.Keys + o.fields.Keys else m == o
  {
    assert p[..|p|] == p;
    MergedAlong(base, overlay, p, |p|);
  }

  // ---------- layers ----------

  function Layered(base: Value, layers: seq<Value>): Value {
    if layers == [] then base
    else Merged(Layered(base, layers[..|layers| - 1]), layers[|layers| - 1], [])
  }

  method ApplyLayers(document: Document, layers: seq<Value>)
    modifies document
    ensures document.root == Layered(old(document.root), layers)
  {
    var i := 0;
    while i < |layers|
      invariant 0 <= i <= |layers|
      invariant document.root == Layered(old(document.root), layers[..i])
    {
      document.Apply(layers[i]);
      assert layers[..i + 1][..i] == layers[..i];
      i := i + 1;
    }
    assert layers[..|layers|] == layers;
  }

  function CatalogPath(provider: string): Path {
    ["providers", provider, "models"]
  }

  // Where the document says anything about the provider, it does so with objects.
  predicate Proper(v: Value, provider: string) {
    && v.Obj?
    && ("providers" in v.fields ==>
          && v.fields["providers"].Obj?
          && (provider in v.fields["providers"].fields ==> v.fields["providers"].fields[provider].Obj?))
  }

  function Catalog(v: Value, provider: string): Option<Value> {
    At(v, CatalogPath(provider))
  }

  // A layer decides a provider's catalog if it has one, or if it puts something that is no
  // object in its way: then there is none.
  predicate Decides(layer: Value, provider: string) {
    !Proper(layer, provider) || Catalog(layer, provider).Some?
  }

  // The catalog of the last layer that decides it.
  function LastCatalog(base: Value, layers: seq<Value>, provider: string): Option<Value> {
    if layers == [] then Catalog(base, provider)
    else if Decides(layers[|layers| - 1], provider) then Catalog(layers[|layers| - 1], provider)
    else LastCatalog(base, layers[..|layers| - 1], provider)
  }

  // The object at a key, if there is one.
  function Child(v: Value, key: string): Option<Value> {
    if v.Obj? && key in v.fields then Some(v.fields[key]) else None
  }

  function Grandchild(v: Option<Value>, key: string): Option<Value> {
    match v
    case Some(value) => Child(value, key)
    case None => None
  }

  lemma CatalogUnfolds(v: Value, provider: string)
    ensures Catalog(v, provider) == Grandchild(Grandchild(Child(v, "providers"), provider), "models")
  {
    AtStep(v, [], "providers");
    AtStep(v, ["providers"], provider);
    AtStep(v, ["providers", provider], "models");
    assert [] + ["providers"] == ["providers"];
    assert ["providers"] + [provider] == ["providers", provider];
    assert ["providers", provider] + ["models"] == CatalogPath(provider);
  }

  // One key of a merge that is no catalog.
  lemma ChildOfMerged(base: Value, overlay: Value, path: Path, key: string)
    requires !IsCatalog(path, key)
    ensures Child(Merged(base, overlay, path), key) ==
            if !overlay.Obj? then None
            else if key !in overlay.fields then Child(base, key)
            else if Child(base, key).Some? then
              Some(Merged(Child(base, key).value, overlay.fields[key], path + [key]))
            else Some(overlay.fields[key])
  {
    if base.Obj? && overlay.Obj? {
      FieldsOfMerged(base, overlay, path);
    }
  }

  lemma CatalogOfMerged(base: Value, overlay: Value, path: Path)
    requires IsCatalog(path, "models")
    ensures Child(Merged(base, overlay, path), "models") ==
            if !overlay.Obj? || "models" in overlay.fields then Child(overlay, "models") else Child(base, "models")
  {
    if base.Obj? && overlay.Obj? {
      FieldsOfMerged(base, overlay, path);
    }
  }

  /** One layer: it decides the catalog, or leaves it as it was. */
  lemma MergedCatalog(base: Value, overlay: Value, provider: string)
    ensures Catalog(Merged(base, overlay, []), provider) ==
            if Decides(overlay, provider) then Catalog(overlay, provider) else Catalog(base, provider)
  {
    CatalogUnfolds(base, provider);
    CatalogUnfolds(overlay, provider);
    CatalogUnfolds(Merged(base, overlay, []), provider);
    ChildOfMerged(base, overlay, [], "providers");
    assert [] + ["providers"] == ["providers"] && ["providers"] + [provider] == ["providers", provider];
    if Child(base, "providers").Some? && Child(overlay, "providers").Some? {
      var b, o := base.fields["providers"], overlay.fields["providers"];
      ChildOfMerged(b, o, ["providers"], provider);
      if Child(b, provider).Some? && Child(o, provider).Some? {
        CatalogOfMerged(b.fields[provider], o.fields[provider], ["providers", provider]);
      }
    }
  }

  /** After any layers a provider's models are those of the last layer that decides them,
      whole: nothing of an earlier catalog is left. */
  lemma {:induction false} LastCatalogWins(base: Value, layers: seq<Value>, provider: string)
    ensures Catalog(Layered(base, layers), provider) == LastCatalog(base, layers, provider)
  {
    if layers != [] {
      var n := |layers| - 1;
      LastCatalogWins(base, layers[..n], provider);
      MergedCatalog(Layered(base, layers[..n]), layers[n], provider);
    }
  }

  /** Layers that keep to objects: the last catalog listed wins. */
  lemma {:induction false} ProperLayersList(base: Value, layers: seq<Value>, provider: string, at: nat)
    requires at < |layers| && Catalog(layers[at], provider).Some?
    requires forall i :: at < i < |layers| ==>
               Proper(layers[i], provider) && Catalog(layers[i], provider) == None
    ensures Catalog(Layered(base, layers), provider) == Catalog(layers[at], provider)
  {
    LastCatalogWins(base, layers, provider);
    if at < |layers| - 1 {
      var front := layers[..|layers| - 1];
      ProperLayersList(base, front, provider, at);
      LastCatalogWins(base, front, provider);
    }
  }
}

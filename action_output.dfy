/**
  `setActionOutput`: the projection of a parsed `cargo metadata` document onto
  the action's outputs "metadata", "crates", "publish" and "features".

  The specification is stated package by package (what a package contributes
  to each output and when it makes the code throw) and folded over the
  package list; `CollectPackages` is the `forEach` loop proved against it and
  `SetActionOutput` the emitting method proved against `Project`.
 */
module ActionOutput {
  import opened Wrappers
  import opened JsValues

  /** One `setOutput(name, JSON.stringify(value))` call, with the value kept as structure. */
  datatype Output = Output(name: string, value: Json)

  /** The three accumulators of the loop: `allCrates`, `cratesToPublish`,
      `features`. A name is a JavaScript value; `None` is `undefined`. */
  datatype Collected = Collected(
    crates: seq<Option<Json>>,
    publish: seq<Option<Json>>,
    features: seq<(string, seq<string>)>)

  /** What `setActionOutput` emits, and the TypeError it throws, if any. */
  datatype Emission = Emission(emitted: seq<Output>, fault: Option<Fault>)

  // ---------------------------------------------------------------------------
  // What one package contributes

  /** `pkg.name`: the own "name" entry of an object, `undefined` otherwise. */
  function NameOf(pkg: Json): Option<Json> {
    if pkg.Obj? then Lookup(pkg.props, "name") else None
  }

  /** The package has an own "publish" entry whose value is not exactly `false`. */
  predicate Publishable(pkg: Json) {
    pkg.Obj? && Lookup(pkg.props, "publish").Some? && Lookup(pkg.props, "publish") != Some(Bool(false))
  }

  /** The package has an own "features" entry. */
  predicate DeclaresFeatures(pkg: Json) {
    pkg.Obj? && "features" in Keys(pkg.props)
  }

  /** The TypeError that processing `pkg` throws: a null package, an own
      "hasOwnProperty" entry hiding the method, null features, or a name
      that cannot be turned into a property key. */
  function PackageFault(pkg: Json): Option<Fault> {
    if pkg.Null? then Some(ReadOfNull("name"))
    else if pkg.Obj? && "hasOwnProperty" in Keys(pkg.props) then Some(NotCallable("hasOwnProperty"))
    else if DeclaresFeatures(pkg) then
      if Lookup(pkg.props, "features") == Some(Null) then Some(NullToObject)
      else
        var key := ToPropertyKey(NameOf(pkg));
        if key.Failure? then Some(key.error) else None
    else None
  }

  /** A package throws exactly when one of the built-in calls the callback
      makes on it throws: reading `name`, `hasOwnProperty("publish")`, and,
      for an own "features" entry, `Object.getOwnPropertyNames` of it and
      the conversion of the name to a key. */
  lemma PackageFaultByBuiltins(pkg: Json)
    ensures pkg.Null? ==> PackageFault(pkg) == Some(ReadOfNull("name"))
    ensures PackageFault(pkg).None? <==>
              Get(pkg, "name").Success? && HasOwnProperty(pkg, "publish").Success? &&
              (HasOwnProperty(pkg, "features") == Success(true) ==>
                 OwnPropertyNames(Get(pkg, "features").value).Success? &&
                 ToPropertyKey(Get(pkg, "name").value).Success?)
  {
    if !pkg.Obj? && !pkg.Null? {
      NamedKeyNotOwn(pkg, "publish");
      NamedKeyNotOwn(pkg, "features");
    }
  }

  /** The entry a package that does not throw assigns into `features`: its
      name as a property key and the own property names of its features. */
  function FeatureEntry(pkg: Json): (r: Option<(string, seq<string>)>)
    ensures r.Some? <==> DeclaresFeatures(pkg) && PackageFault(pkg).None?
    ensures r.Some? && NameOf(pkg).Some? && NameOf(pkg).value.Str? ==> r.value.0 == NameOf(pkg).value.s
    ensures r.Some? ==> var f := Lookup(pkg.props, "features").value;
                        f.Obj? ==> r.value.1 == Keys(f.props) && |r.value.1| == |f.props|
  {
    if DeclaresFeatures(pkg) && PackageFault(pkg).None? then
      Some((ToPropertyKey(NameOf(pkg)).value, OwnPropertyNames(Lookup(pkg.props, "features")).value))
    else None
  }

  // ---------------------------------------------------------------------------
  // Folded over the package list

  /** The index and error of the first package that throws. */
  function FirstFault(pkgs: seq<Json>): (r: Option<(nat, Fault)>)
    ensures r.None? <==> forall i :: 0 <= i < |pkgs| ==> PackageFault(pkgs[i]).None?
    ensures r.Some? ==> r.value.0 < |pkgs| && PackageFault(pkgs[r.value.0]) == Some(r.value.1)
    ensures r.Some? ==> forall i :: 0 <= i < r.value.0 ==> PackageFault(pkgs[i]).None?
  {
    if pkgs == [] then None
    else if PackageFault(pkgs[0]).Some? then Some((0, PackageFault(pkgs[0]).value))
    else
      var rest := FirstFault(pkgs[1..]);
      if rest.None? then None else Some((rest.value.0 + 1, rest.value.1))
  }

  /** `allCrates`: every package's name, in document order. */
  function Names(pkgs: seq<Json>): (r: seq<Option<Json>>)
    ensures |r| == |pkgs|
    ensures forall i :: 0 <= i < |pkgs| ==> r[i] == NameOf(pkgs[i])
  {
    if pkgs == [] then [] else Names(pkgs[..|pkgs| - 1]) + [NameOf(pkgs[|pkgs| - 1])]
  }

  /** `cratesToPublish`: the names of the publishable packages, in document order. */
  function PublishNames(pkgs: seq<Json>): (r: seq<Option<Json>>)
  {
    if pkgs == [] then []
    else
      var init := PublishNames(pkgs[..|pkgs| - 1]);
      if Publishable(pkgs[|pkgs| - 1]) then init + [NameOf(pkgs[|pkgs| - 1])] else init
  }

  /** The positions of the publishable packages, in increasing order. */
  function PublishedIndices(pkgs: seq<Json>): (r: seq<nat>)
    ensures forall j :: 0 <= j < |r| ==> r[j] < |pkgs| && Publishable(pkgs[r[j]])
    ensures forall j, j' :: 0 <= j < j' < |r| ==> r[j] < r[j']
    ensures forall i :: 0 <= i < |pkgs| && Publishable(pkgs[i]) ==> i in r
  {
    if pkgs == [] then []
    else
      var n := |pkgs| - 1;
      var init := PublishedIndices(pkgs[..n]);
      assert forall j :: 0 <= j < |init| ==> pkgs[init[j]] == pkgs[..n][init[j]];
      assert forall i :: 0 <= i < n ==> pkgs[i] == pkgs[..n][i];
      if Publishable(pkgs[n]) then init + [n] else init
  }

  /** `features`: the object built by assigning each package's entry in turn. */
  function FeatureTable(pkgs: seq<Json>): (r: seq<(string, seq<string>)>)
    ensures DistinctKeys(r)
    ensures ProtoKey !in Keys(r)
  {
    if pkgs == [] then []
    else
      var t := FeatureTable(pkgs[..|pkgs| - 1]);
      match FeatureEntry(pkgs[|pkgs| - 1])
      case None => t
      case Some((k, names)) => SetProperty(t, k, names)
  }

  // ---------------------------------------------------------------------------
  // The loop

  /** The accumulators after the callback has handled `pkg` without throwing. */
  function Step(acc: Collected, pkg: Json): Collected {
    Collected(
      acc.crates + [NameOf(pkg)],
      if Publishable(pkg) then acc.publish + [NameOf(pkg)] else acc.publish,
      match FeatureEntry(pkg)
      case None => acc.features
      case Some((k, names)) => SetProperty(acc.features, k, names))
  }

  /** The `forEach` callback: pushes the name, pushes it again when the
      package is publishable, and assigns its feature names. */
  method VisitPackage(acc: Collected, pkg: Json) returns (r: Result<Collected, Fault>)
    ensures r.Failure? <==> PackageFault(pkg).Some?
    ensures r.Failure? ==> r.error == PackageFault(pkg).value
    ensures r.Success? ==> r.value == Step(acc, pkg)
  {
    if !pkg.Obj? && !pkg.Null? {
      NamedKeyNotOwn(pkg, "publish");
      NamedKeyNotOwn(pkg, "features");
    }
    var allCrates, cratesToPublish, features := acc.crates, acc.publish, acc.features;
    var name :- Get(pkg, "name");
    allCrates := allCrates + [name];
    var hasPublish :- HasOwnProperty(pkg, "publish");
    if hasPublish {
      var publish := Get(pkg, "publish").value;
      if publish != Some(Bool(false)) {
        cratesToPublish := cratesToPublish + [name];
      }
    }
    var hasFeatures := HasOwnProperty(pkg, "features").value;
    if hasFeatures {
      var declared := Get(pkg, "features").value;
      var names :- OwnPropertyNames(declared);
      var key :- ToPropertyKey(name);
      features := SetProperty(features, key, names);
    }
    r := Success(Collected(allCrates, cratesToPublish, features));
  }

  /** `metadata.packages.forEach(...)`: fills the three accumulators in one
      pass, or stops at the first package that throws. */
  method CollectPackages(pkgs: seq<Json>) returns (r: Result<Collected, Fault>)
    ensures r.Failure? <==> FirstFault(pkgs).Some?
    ensures r.Failure? ==> r.error == FirstFault(pkgs).value.1
    ensures r.Success? ==> r.value == Collected(Names(pkgs), PublishNames(pkgs), FeatureTable(pkgs))
  {
    var acc := Collected([], [], []);
    var i := 0;
    while i < |pkgs|
      invariant 0 <= i <= |pkgs|
      invariant forall j :: 0 <= j < i ==> PackageFault(pkgs[j]).None?
      invariant acc == Collected(Names(pkgs[..i]), PublishNames(pkgs[..i]), FeatureTable(pkgs[..i]))
    {
      assert pkgs[..i + 1][..i] == pkgs[..i];
      acc :- VisitPackage(acc, pkgs[i]);
      i := i + 1;
    }
    assert pkgs[..i] == pkgs;
    r := Success(acc);
  }

  // ---------------------------------------------------------------------------
  // Serialisation of the accumulators

  /** `JSON.stringify` of an array of names: `undefined` becomes null. */
  function ListJson(names: seq<Option<Json>>): Json {
    Arr(seq(|names|, i requires 0 <= i < |names| => if names[i].Some? then names[i].value else Null))
  }

  /** The JSON array of strings that holds one package's feature names. */
  function StrArray(names: seq<string>): Json {
    Arr(seq(|names|, j requires 0 <= j < |names| => Str(names[j])))
  }

  /** `JSON.stringify` of the `features` object: the keys in their order,
      each with the array of its feature names, and nothing for an absent key. */
  function TableJson(table: seq<(string, seq<string>)>): (r: Json)
    ensures r.Obj? && Keys(r.props) == Keys(table)
    ensures DistinctKeys(table) ==> DistinctKeys(r.props)
    ensures forall k :: Lookup(r.props, k) ==
              if k in Keys(table) then Some(StrArray(Lookup(table, k).value)) else None
  {
    if table == [] then Obj([])
    else
      var head, rest := table[0], TableJson(table[1..]).props;
      var props := [(head.0, StrArray(head.1))] + rest;
      assert table == [head] + table[1..];
      KeysCons(head, table[1..]);
      KeysCons(props[0], rest);
      assert props[1..] == rest;
      assert DistinctKeys(table) ==> DistinctKeys(props) by {
        if DistinctKeys(table) {
          forall i, j | 0 <= i < j < |props| ensures props[i].0 != props[j].0 {
            assert Keys(props)[i] == props[i].0 && Keys(props)[j] == props[j].0;
            assert Keys(table)[i] == table[i].0 && Keys(table)[j] == table[j].0;
          }
        }
      }
      Obj(props)
  }

  // ---------------------------------------------------------------------------
  // The whole function

  /** The package list `setActionOutput(doc)` iterates over: none for a
      document without an own "packages" entry, or the TypeError that
      `doc.hasOwnProperty` or `doc.packages.forEach` throws. */
  function PackageList(doc: Json): (r: Result<Option<seq<Json>>, Fault>)
    ensures r == Success(None) <==> !doc.Null? && (doc.Obj? ==> "hasOwnProperty" !in Keys(doc.props) && "packages" !in Keys(doc.props))
    ensures (r.Success? && r.value.Some?) <==>
              (doc.Obj? && "hasOwnProperty" !in Keys(doc.props) &&
               Lookup(doc.props, "packages").Some? && Lookup(doc.props, "packages").value.Arr?)
    ensures r.Success? && r.value.Some? ==> Lookup(doc.props, "packages") == Some(Arr(r.value.value))
  {
    if doc.Null? then Failure(ReadOfNull("hasOwnProperty"))
    else if doc.Obj? && "hasOwnProperty" in Keys(doc.props) then Failure(NotCallable("hasOwnProperty"))
    else if !(doc.Obj? && "packages" in Keys(doc.props)) then Success(None)
    else
      match Lookup(doc.props, "packages").value
      case Null => Failure(ReadOfNull("forEach"))
      case Arr(pkgs) => Success(Some(pkgs))
      case _ => Failure(NotCallable("forEach"))
  }

  /** What `setActionOutput(doc)` emits, and whether it throws. "metadata"
      always comes first; the other three follow only for a document with an
      own "packages" array none of whose packages throws. */
  function Project(doc: Json): (r: Emission)
    ensures |r.emitted| >= 1 && r.emitted[0] == Output("metadata", doc)
    ensures r.fault.Some? ==> r.emitted == [Output("metadata", doc)]
    ensures |r.emitted| == 1 || |r.emitted| == 4
  {
    var meta := [Output("metadata", doc)];
    match PackageList(doc)
    case Failure(f) => Emission(meta, Some(f))
    case Success(None) => Emission(meta, None)
    case Success(Some(pkgs)) =>
      match FirstFault(pkgs)
      case Some((_, f)) => Emission(meta, Some(f))
      case None => Emission(meta + [
                     Output("crates", ListJson(Names(pkgs))),
                     Output("publish", ListJson(PublishNames(pkgs))),
                     Output("features", TableJson(FeatureTable(pkgs)))], None)
  }

  /** The action's output channel: `setOutput` appends to `outputs`. */
  class ActionHost {
    var outputs: seq<Output>

    constructor ()
      ensures outputs == []
    {
      outputs := [];
    }

    method SetOutput(name: string, value: Json)
      modifies this
      ensures outputs == old(outputs) + [Output(name, value)]
    {
      outputs := outputs + [Output(name, value)];
    }
  }

  /** `setActionOutput(metadata)`: emits through `host` and returns the
      TypeError that the source would throw, if any. */
  method SetActionOutput(host: ActionHost, metadata: Json) returns (fault: Option<Fault>)
    modifies host
    ensures host.outputs == old(host.outputs) + Project(metadata).emitted
    ensures fault == Project(metadata).fault
  {
    host.SetOutput("metadata", metadata);
    if !metadata.Obj? && !metadata.Null? {
      NamedKeyNotOwn(metadata, "packages");
    }
    var hasPackages := HasOwnProperty(metadata, "packages");
    if hasPackages.Failure? {
      return Some(hasPackages.error);
    }
    if hasPackages.value {
      var packages := Get(metadata, "packages");
      match packages.value
      case Some(Arr(pkgs)) =>
        var collected := CollectPackages(pkgs);
        if collected.Failure? {
          return Some(collected.error);
        }
        host.SetOutput("crates", ListJson(collected.value.crates));
        host.SetOutput("publish", ListJson(collected.value.publish));
        host.SetOutput("features", TableJson(collected.value.features));
      case Some(Null) =>
        return Some(ReadOfNull("forEach"));
      case _ =>
        return Some(NotCallable("forEach"));
    }
    return None;
  }
}

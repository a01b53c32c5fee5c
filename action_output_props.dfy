/**
  Properties of the projection: order and membership of the "publish" list,
  the keys and values of the emitted "features" object, the outputs emitted
  for documents without packages or with an empty package list, and two
  example documents.
 */
module ActionOutputProps {
  import opened Wrappers
  import opened JsValues
  import opened ActionOutput

  /** `a` is `b` with some elements left out, the rest kept in order. */
  predicate SubsequenceOf<T(==)>(a: seq<T>, b: seq<T>)
    decreases |b|
  {
    a == [] ||
    (b != [] &&
     ((a[|a| - 1] == b[|b| - 1] && SubsequenceOf(a[..|a| - 1], b[..|b| - 1])) ||
      SubsequenceOf(a, b[..|b| - 1])))
  }

  /** "publish" lists, in order, the names of exactly the packages at the
      publishable positions. */
  lemma {:induction false} PublishNamesAtIndices(pkgs: seq<Json>)
    ensures |PublishNames(pkgs)| == |PublishedIndices(pkgs)|
    ensures forall j :: 0 <= j < |PublishNames(pkgs)| ==>
              PublishNames(pkgs)[j] == NameOf(pkgs[PublishedIndices(pkgs)[j]])
  {
    if pkgs != [] {
      var n := |pkgs| - 1;
      PublishNamesAtIndices(pkgs[..n]);
      var idx := PublishedIndices(pkgs[..n]);
      forall j | 0 <= j < |idx| ensures pkgs[..n][idx[j]] == pkgs[idx[j]] {
      }
    }
  }

  /** A package's name is in "publish" exactly when some package with that
      name is publishable. */
  lemma PublishMembership(pkgs: seq<Json>, name: Option<Json>)
    ensures name in PublishNames(pkgs) <==>
            exists i :: 0 <= i < |pkgs| && Publishable(pkgs[i]) && NameOf(pkgs[i]) == name
  {
    PublishNamesAtIndices(pkgs);
    var names, idx := PublishNames(pkgs), PublishedIndices(pkgs);
    if name in names {
      var j :| 0 <= j < |names| && names[j] == name;
      assert Publishable(pkgs[idx[j]]) && NameOf(pkgs[idx[j]]) == name;
    }
    if exists i :: 0 <= i < |pkgs| && Publishable(pkgs[i]) && NameOf(pkgs[i]) == name {
      var i :| 0 <= i < |pkgs| && Publishable(pkgs[i]) && NameOf(pkgs[i]) == name;
      var j :| 0 <= j < |idx| && idx[j] == i;
      assert names[j] == name;
    }
  }

  /** "publish" is an order-preserving subsequence of "crates". */
  lemma {:induction false} PublishSubsequenceOfCrates(pkgs: seq<Json>)
    ensures SubsequenceOf(PublishNames(pkgs), Names(pkgs))
  {
    if pkgs != [] {
      var n := |pkgs| - 1;
      PublishSubsequenceOfCrates(pkgs[..n]);
      var init, all := PublishNames(pkgs[..n]), Names(pkgs);
      assert all[..n] == Names(pkgs[..n]);
      if Publishable(pkgs[n]) {
        var p := PublishNames(pkgs);
        assert p[..|p| - 1] == init;
      } else {
        SkipLast(init, all);
      }
    }
  }

  /** The emitted "publish" array is an order-preserving subsequence of the
      emitted "crates" array. */
  lemma PublishOutputSubsequenceOfCrates(pkgs: seq<Json>)
    ensures SubsequenceOf(ListJson(PublishNames(pkgs)).elems, ListJson(Names(pkgs)).elems)
  {
    PublishSubsequenceOfCrates(pkgs);
    ListJsonKeepsSubsequence(PublishNames(pkgs), Names(pkgs));
  }

  /** Serialising both sides keeps a subsequence relation. */
  lemma {:induction false} ListJsonKeepsSubsequence(a: seq<Option<Json>>, b: seq<Option<Json>>)
    requires SubsequenceOf(a, b)
    ensures SubsequenceOf(ListJson(a).elems, ListJson(b).elems)
    decreases |b|
  {
    var la, lb := ListJson(a).elems, ListJson(b).elems;
    if a != [] {
      assert ListJson(b[..|b| - 1]).elems == lb[..|lb| - 1];
      if a[|a| - 1] == b[|b| - 1] && SubsequenceOf(a[..|a| - 1], b[..|b| - 1]) {
        ListJsonKeepsSubsequence(a[..|a| - 1], b[..|b| - 1]);
        assert ListJson(a[..|a| - 1]).elems == la[..|la| - 1];
      } else {
        ListJsonKeepsSubsequence(a, b[..|b| - 1]);
      }
    }
  }

  /** Dropping the last element of the longer sequence keeps a subsequence relation. */
  lemma SkipLast<T>(a: seq<T>, b: seq<T>)
    requires b != [] && SubsequenceOf(a, b[..|b| - 1])
    ensures SubsequenceOf(a, b)
  {
  }

  /** The rule for one package: an absent "publish" entry excludes it, an
      entry holding exactly `false` excludes it, any other entry includes it. */
  lemma PublishRule(pkg: Json)
    ensures !pkg.Obj? ==> !Publishable(pkg)
    ensures pkg.Obj? && "publish" !in Keys(pkg.props) ==> !Publishable(pkg)
    ensures pkg.Obj? && Lookup(pkg.props, "publish") == Some(Bool(false)) ==> !Publishable(pkg)
    ensures pkg.Obj? && "publish" in Keys(pkg.props) && Lookup(pkg.props, "publish") != Some(Bool(false))
            ==> Publishable(pkg)
  {
  }

  /** `pkg` assigns its feature names under key `k`. */
  predicate AssignsKey(pkg: Json, k: string) {
    FeatureEntry(pkg).Some? && FeatureEntry(pkg).value.0 == k
  }

  /** "features" has key `k` exactly when some package assigns an entry under
      `k`, unless `k` is "__proto__". */
  lemma {:induction false} FeatureTableKeys(pkgs: seq<Json>, k: string)
    ensures k in Keys(FeatureTable(pkgs)) <==>
            k != ProtoKey && exists i :: 0 <= i < |pkgs| && AssignsKey(pkgs[i], k)
  {
    if pkgs != [] {
      var n := |pkgs| - 1;
      var init := pkgs[..n];
      FeatureTableKeys(init, k);
      FeatureKeyStep(pkgs, k);
      if exists i :: 0 <= i < |pkgs| && AssignsKey(pkgs[i], k) {
        var i :| 0 <= i < |pkgs| && AssignsKey(pkgs[i], k);
        if i < n {
          assert AssignsKey(init[i], k);
        }
      }
      if exists i :: 0 <= i < n && AssignsKey(init[i], k) {
        var i :| 0 <= i < n && AssignsKey(init[i], k);
        assert AssignsKey(pkgs[i], k);
      }
    }
  }

  /** One more package adds key `k` exactly when it assigns under `k`. */
  lemma FeatureKeyStep(pkgs: seq<Json>, k: string)
    requires pkgs != []
    ensures k in Keys(FeatureTable(pkgs)) <==>
            k in Keys(FeatureTable(pkgs[..|pkgs| - 1])) || (AssignsKey(pkgs[|pkgs| - 1], k) && k != ProtoKey)
  {
    var t := FeatureTable(pkgs[..|pkgs| - 1]);
    match FeatureEntry(pkgs[|pkgs| - 1])
    case None =>
      assert FeatureTable(pkgs) == t;
    case Some((key, names)) =>
      var r := SetProperty(t, key, names);
      assert FeatureTable(pkgs) == r;
      assert AssignsKey(pkgs[|pkgs| - 1], k) <==> k == key;
  }

  /** When several packages assign under `k`, the last one's feature names win. */
  lemma {:induction false} FeatureTableLastWins(pkgs: seq<Json>, i: nat, k: string, names: seq<string>)
    requires i < |pkgs| && FeatureEntry(pkgs[i]) == Some((k, names)) && k != ProtoKey
    requires forall j :: i < j < |pkgs| ==> FeatureEntry(pkgs[j]).None? || FeatureEntry(pkgs[j]).value.0 != k
    ensures Lookup(FeatureTable(pkgs), k) == Some(names)
  {
    var n := |pkgs| - 1;
    if i < n {
      forall j | i < j < n ensures pkgs[..n][j] == pkgs[j] {
      }
      FeatureTableLastWins(pkgs[..n], i, k, names);
    }
  }

  /** The emitted "features" object never repeats a key and has key `k`
      exactly when some package assigns under `k`, unless `k` is "__proto__". */
  lemma FeaturesOutputKeys(pkgs: seq<Json>, k: string)
    ensures DistinctKeys(TableJson(FeatureTable(pkgs)).props)
    ensures k in Keys(TableJson(FeatureTable(pkgs)).props) <==>
            k != ProtoKey && exists i :: 0 <= i < |pkgs| && AssignsKey(pkgs[i], k)
  {
    FeatureTableKeys(pkgs, k);
  }

  /** The emitted "features" object holds, under a key several packages
      share, the array of the last one's feature names. */
  lemma FeaturesOutputLastWins(pkgs: seq<Json>, i: nat, k: string, names: seq<string>)
    requires i < |pkgs| && FeatureEntry(pkgs[i]) == Some((k, names)) && k != ProtoKey
    requires forall j :: i < j < |pkgs| ==> FeatureEntry(pkgs[j]).None? || FeatureEntry(pkgs[j]).value.0 != k
    ensures Lookup(TableJson(FeatureTable(pkgs)).props, k) == Some(StrArray(names))
  {
    FeatureTableLastWins(pkgs, i, k, names);
  }

  /** Keys are only ever appended to "features": the keys after any prefix
      of the package list are a prefix of the final keys, so a reassigned
      key keeps the position of its first assignment. */
  lemma {:induction false} FeatureKeysOnlyGrow(pkgs: seq<Json>, m: nat)
    requires m <= |pkgs|
    ensures Keys(FeatureTable(pkgs[..m])) <= Keys(FeatureTable(pkgs))
  {
    if m < |pkgs| {
      var init := pkgs[..|pkgs| - 1];
      assert init[..m] == pkgs[..m];
      FeatureKeysOnlyGrow(init, m);
      FeatureKeysStep(pkgs);
      var a, b, c := Keys(FeatureTable(pkgs[..m])), Keys(FeatureTable(init)), Keys(FeatureTable(pkgs));
      PrefixTransitive(a, b, c);
    } else {
      assert pkgs[..m] == pkgs;
    }
  }

  /** One more package keeps the earlier keys as a prefix. */
  lemma FeatureKeysStep(pkgs: seq<Json>)
    requires pkgs != []
    ensures Keys(FeatureTable(pkgs[..|pkgs| - 1])) <= Keys(FeatureTable(pkgs))
  {
    var t := FeatureTable(pkgs[..|pkgs| - 1]);
    match FeatureEntry(pkgs[|pkgs| - 1])
    case None =>
    case Some((k, names)) =>
      var r := SetProperty(t, k, names);
      assert FeatureTable(pkgs) == r;
      var kt := Keys(t);
      if k in kt || k == ProtoKey {
        assert Keys(r) == kt;
      } else {
        assert Keys(r) == kt + [k];
        assert (kt + [k])[..|kt|] == kt;
      }
  }

  lemma PrefixTransitive(a: seq<string>, b: seq<string>, c: seq<string>)
    requires a <= b && b <= c
    ensures a <= c
  {
    assert c[..|b|][..|a|] == c[..|a|];
  }

  /** A package without a "features" entry leaves the table as it was. */
  lemma FeaturesAbsentAddsNothing(pkgs: seq<Json>, pkg: Json)
    requires !DeclaresFeatures(pkg)
    ensures FeatureTable(pkgs + [pkg]) == FeatureTable(pkgs)
  {
    assert (pkgs + [pkg])[..|pkgs|] == pkgs;
  }

  /** A document that is neither null nor an object with a "packages" entry
      yields "metadata" alone. */
  lemma ProjectWithoutPackages(doc: Json)
    requires !doc.Null?
    requires doc.Obj? ==> "hasOwnProperty" !in Keys(doc.props) && "packages" !in Keys(doc.props)
    ensures Project(doc) == Emission([Output("metadata", doc)], None)
  {
  }

  /** An object with an own "packages" array hands that array to the loop. */
  lemma PackageListOfArray(doc: Json, pkgs: seq<Json>)
    requires doc.Obj? && "hasOwnProperty" !in Keys(doc.props)
    requires Lookup(doc.props, "packages") == Some(Arr(pkgs))
    ensures PackageList(doc) == Success(Some(pkgs))
  {
  }

  /** With a "packages" array whose packages all go through, the outputs are
      "metadata", "crates", "publish", "features" in that order. */
  lemma ProjectOutputsInOrder(doc: Json, pkgs: seq<Json>)
    requires doc.Obj? && "hasOwnProperty" !in Keys(doc.props)
    requires Lookup(doc.props, "packages") == Some(Arr(pkgs))
    requires forall i :: 0 <= i < |pkgs| ==> PackageFault(pkgs[i]).None?
    ensures Project(doc) == Emission([
              Output("metadata", doc),
              Output("crates", ListJson(Names(pkgs))),
              Output("publish", ListJson(PublishNames(pkgs))),
              Output("features", TableJson(FeatureTable(pkgs)))], None)
  {
    PackageListOfArray(doc, pkgs);
    assert FirstFault(pkgs) == None;
    ProjectOfPackageList(doc, pkgs);
  }

  lemma ProjectOfPackageList(doc: Json, pkgs: seq<Json>)
    requires PackageList(doc) == Success(Some(pkgs))
    requires FirstFault(pkgs) == None
    ensures Project(doc) == Emission([
              Output("metadata", doc),
              Output("crates", ListJson(Names(pkgs))),
              Output("publish", ListJson(PublishNames(pkgs))),
              Output("features", TableJson(FeatureTable(pkgs)))], None)
  {
    var tail := [
      Output("crates", ListJson(Names(pkgs))),
      Output("publish", ListJson(PublishNames(pkgs))),
      Output("features", TableJson(FeatureTable(pkgs)))];
    assert Project(doc) == Emission([Output("metadata", doc)] + tail, None);
  }

  /** The "crates" output holds every package's name in document order, null
      where a package has no name. */
  lemma CratesOutput(pkgs: seq<Json>, i: nat)
    requires i < |pkgs|
    ensures |ListJson(Names(pkgs)).elems| == |pkgs|
    ensures NameOf(pkgs[i]).Some? ==> ListJson(Names(pkgs)).elems[i] == NameOf(pkgs[i]).value
    ensures NameOf(pkgs[i]).None? ==> ListJson(Names(pkgs)).elems[i] == Null
  {
  }

  /** An empty package list yields empty "crates" and "publish" arrays and an
      empty "features" object after the unchanged document. */
  lemma ProjectEmptyPackages(doc: Json)
    requires doc.Obj? && "hasOwnProperty" !in Keys(doc.props)
    requires Lookup(doc.props, "packages") == Some(Arr([]))
    ensures Project(doc) == Emission([
              Output("metadata", doc),
              Output("crates", Arr([])),
              Output("publish", Arr([])),
              Output("features", Obj([]))], None)
  {
    assert ListJson([]).elems == [];
  }

  /** The first package that throws stops the action after "metadata". */
  lemma ProjectStopsAtFault(doc: Json, pkgs: seq<Json>, i: nat)
    requires doc.Obj? && "hasOwnProperty" !in Keys(doc.props)
    requires Lookup(doc.props, "packages") == Some(Arr(pkgs))
    requires i < |pkgs| && PackageFault(pkgs[i]).Some?
    requires forall j :: 0 <= j < i ==> PackageFault(pkgs[j]).None?
    ensures Project(doc) == Emission([Output("metadata", doc)], PackageFault(pkgs[i]))
  {
    var f := FirstFault(pkgs);
    assert f.Some?;
    assert f.value.0 == i;
  }

  /** Package "a" of the two-package example: `publish` is `false`. */
  const PkgA := Obj([("name", Str("a")), ("publish", Bool(false))])

  /** Package "b" of the two-package example: features x and y, no "publish" entry. */
  const PkgB := Obj([("name", Str("b")), ("features", Obj([("x", Obj([])), ("y", Obj([]))]))])

  lemma PkgAContributes()
    ensures NameOf(PkgA) == Some(Str("a")) && !Publishable(PkgA)
    ensures PackageFault(PkgA) == None && FeatureEntry(PkgA) == None
  {
    assert Keys(PkgA.props) == ["name", "publish"];
  }

  lemma PkgBContributes()
    ensures NameOf(PkgB) == Some(Str("b")) && !Publishable(PkgB)
    ensures PackageFault(PkgB) == None && FeatureEntry(PkgB) == Some(("b", ["x", "y"]))
  {
    var fb := Obj([("x", Obj([])), ("y", Obj([]))]);
    assert Keys(PkgB.props) == ["name", "features"];
    assert Lookup(PkgB.props, "features") == Some(fb);
    assert Keys(fb.props) == ["x", "y"];
    assert ToPropertyKey(NameOf(PkgB)) == Success("b");
  }

  /** The two-package example: "a" is excluded from "publish" by its `false`
      entry and "b" by its absent entry; only "b" declares features. */
  lemma TwoPackageExample()
    ensures var doc := Obj([("packages", Arr([PkgA, PkgB]))]);
            Project(doc) == Emission([
              Output("metadata", doc),
              Output("crates", Arr([Str("a"), Str("b")])),
              Output("publish", Arr([])),
              Output("features", Obj([("b", Arr([Str("x"), Str("y")]))]))], None)
  {
    var pkgs := [PkgA, PkgB];
    var doc := Obj([("packages", Arr(pkgs))]);
    PkgAContributes();
    PkgBContributes();
    assert Keys(doc.props) == ["packages"];
    ProjectOutputsInOrder(doc, pkgs);
    TwoPackageAccumulators();
    assert ListJson(Names(pkgs)).elems == [Str("a"), Str("b")];
    assert ListJson([]).elems == [];
    PkgBTable();
  }

  /** The accumulators after the two example packages. */
  lemma TwoPackageAccumulators()
    ensures Names([PkgA, PkgB]) == [Some(Str("a")), Some(Str("b"))]
    ensures PublishNames([PkgA, PkgB]) == []
    ensures FeatureTable([PkgA, PkgB]) == [("b", ["x", "y"])]
  {
    var pkgs := [PkgA, PkgB];
    PkgAContributes();
    PkgBContributes();
    assert pkgs[..1] == [PkgA] && [PkgA][..0] == [];
    assert PublishNames([PkgA]) == [];
    assert FeatureTable([PkgA]) == [];
  }

  /** The "features" object of the two-package example, serialised. */
  lemma PkgBTable()
    ensures TableJson([("b", ["x", "y"])]) == Obj([("b", Arr([Str("x"), Str("y")]))])
  {
    var table: seq<(string, seq<string>)> := [("b", ["x", "y"])];
    assert table[1..] == [];
    assert StrArray(["x", "y"]).elems == [Str("x"), Str("y")];
  }

  /** Package "c" of the one-package example: a name and nothing else. */
  const PkgC := Obj([("name", Str("c"))])

  lemma PkgCContributes()
    ensures NameOf(PkgC) == Some(Str("c")) && !Publishable(PkgC)
    ensures PackageFault(PkgC) == None && FeatureEntry(PkgC) == None
  {
    assert Keys(PkgC.props) == ["name"];
  }

  /** One package "c" with neither "publish" nor "features": it is listed in
      "crates" only. */
  lemma OnePackageExample()
    ensures var doc := Obj([("packages", Arr([PkgC]))]);
            Project(doc) == Emission([
              Output("metadata", doc),
              Output("crates", Arr([Str("c")])),
              Output("publish", Arr([])),
              Output("features", Obj([]))], None)
  {
    var doc := Obj([("packages", Arr([PkgC]))]);
    assert Keys(doc.props) == ["packages"];
    PkgCContributes();
    ProjectOutputsInOrder(doc, [PkgC]);
    assert [PkgC][..0] == [];
    assert ListJson(Names([PkgC])).elems == [Str("c")];
    assert PublishNames([PkgC]) == [];
    assert ListJson([]).elems == [];
    assert FeatureTable([PkgC]) == [];
  }
}

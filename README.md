# rust-metadata-action: the output projection, in Dafny

The action runs `cargo metadata --no-deps --format-version 1`, parses what it
prints, and hands the parsed document to `setActionOutput`. That function
republishes the document as GitHub Action outputs:

- `metadata`: the whole document, always, and always first;
- when the document has an own `packages` entry, three more, built in one
  pass over the package list, in this order:
  - `crates`: every package's `name`, in document order;
  - `publish`: the names of the packages that have an own `publish` entry
    whose value is not exactly `false`;
  - `features`: an object from package name to the own property names of
    that package's `features` entry.

This project models that function. The document is a `Json` value
(`js_values.dfy`), as `JSON.parse` produces it. An object keeps its own
properties as an ordered list, so the order of `Object.getOwnPropertyNames`
is explicit. The JavaScript built-ins the function relies on are modelled
with the behaviour they have on such values:

- property reads;
- `hasOwnProperty`, including the case where an own entry of that name hides
  the method;
- `Object.getOwnPropertyNames` on every kind of value;
- conversion of a name to a property key;
- assignment `obj[k] = v` on a `{}` object. A reassigned key keeps its place,
  and `"__proto__"` creates no own property.

`setOutput` is the `ActionHost` class: each call appends a
`(name, value)` pair to its `outputs`. The value is the structure that
`JSON.stringify` would serialise; the text form is not modelled.

`action_output.dfy` holds the model:

- the specification, package by package: what a package contributes, and
  which `TypeError` it throws, if any;
- the specification folded over the list: `Names`, `PublishNames`,
  `FeatureTable`, `FirstFault`, and `Project` for the whole call;
- `VisitPackage`, the `forEach` callback, proved against `Step`;
- `CollectPackages`, the loop, proved against the folded specification;
- `SetActionOutput`, proved to append exactly `Project(doc).emitted`.

`action_output_props.dfy` proves the properties.

A `TypeError` the source would throw is returned as a `Fault`. After a
fault, only `metadata` has been emitted. The model raises a fault in these
cases:

- the document or a package is `null`;
- the document or a package has an own `hasOwnProperty` entry;
- `packages` is not an array;
- a package's `features` is `null`;
- a package has an own `features` entry, and its name is an object whose
  own `toString` entry hides the inherited method, or an array holding such
  an object at any depth (an array name is converted by joining its
  elements). The name is turned into a key only for such a package.

A package counts as publishable only when it has an own `publish` entry
(`index.js:35` checks `hasOwnProperty("publish")` before it compares the value
with `false`), so a package without that entry is left out of "publish"
(`PublishRule`). `TwoPackageExample` and `OnePackageExample` work through two
small example documents; neither of their packages is publishable, so the
"publish" output is empty in both.

## Model

| member | source | states |
|---|---|---|
| `ActionOutput.SetActionOutput` | index.js:27-46 | the outputs appended are exactly `Project(doc).emitted`, and the returned fault is `Project(doc).fault` |
| `ActionOutput.Project` | index.js:27-46 | "metadata" carrying the unchanged document is always the first output; a throw leaves "metadata" as the only output; the call emits either 1 or 4 outputs |
| `ActionOutput.PackageList` | index.js:29-33 | without an own "packages" entry nothing is iterated; the loop runs exactly when the document is an object with an own "packages" array and no own "hasOwnProperty", and it runs over that array |
| `ActionOutput.ActionHost.SetOutput` | index.js:28 | each call appends one `(name, value)` output and changes nothing else |
| `ActionOutput.CollectPackages` | index.js:30-41 | the loop throws exactly when some package throws, and then with the first such package's error; otherwise the accumulators equal `Names`, `PublishNames` and `FeatureTable` of the whole list |
| `ActionOutput.VisitPackage` | index.js:33-40 | one callback throws exactly when `PackageFault(pkg)` is set, with that error; otherwise it extends the accumulators as `Step` says |
| `ActionOutput.PackageFaultByBuiltins` | index.js:33-39 | a package throws exactly when one of the calls the callback makes on it throws: reading `name`, `hasOwnProperty("publish")`, and, with an own "features" entry, `Object.getOwnPropertyNames` of it and the conversion of the name to a key; a null package throws on reading `name` |
| `ActionOutput.FirstFault` | index.js:33-41 | it is empty exactly when no package throws; otherwise it gives the first throwing position and that package's error |
| `ActionOutput.Names` | index.js:34 | `allCrates` has exactly one entry per package, equal to that package's `name`, in document order |
| `ActionOutput.PublishedIndices` | index.js:35-36 | the positions are strictly increasing, each one is publishable, and every publishable position is listed |
| `ActionOutput.FeatureEntry` | index.js:38-39 | a package assigns an entry exactly when it has an own "features" entry and does not throw; a string name is the key; the value lists the feature object's own keys, one per property entry, in order, and ignores the feature values |
| `ActionOutput.FeatureTable` | index.js:32-39 | the `features` object never repeats a key and never holds "__proto__" |
| `ActionOutput.TableJson` | index.js:44 | the serialised `features` object keeps the key order; it repeats no key when the table repeats none; reading key `k` gives the string array of the table's names under `k`, and nothing when `k` is absent |
| `ActionOutputProps.PublishNamesAtIndices` | index.js:31-36 | `cratesToPublish` (`PublishNames`), and so "publish", lists the names of the packages at the publishable positions, in order, and nothing else |
| `ActionOutputProps.PublishMembership` | index.js:35-36 | a name appears in "publish" if and only if some package with that name is publishable |
| `ActionOutputProps.PublishSubsequenceOfCrates` | index.js:33-36 | "publish" is an order-preserving subsequence of "crates" |
| `ActionOutputProps.PublishOutputSubsequenceOfCrates` | index.js:42-43 | the emitted "publish" array is an order-preserving subsequence of the emitted "crates" array |
| `ActionOutputProps.ListJsonKeepsSubsequence` | index.js:42-43 | `JSON.stringify` of a name array (`ListJson`) keeps a subsequence relation between two name arrays |
| `ActionOutputProps.PublishRule` | index.js:35 | an absent "publish" entry excludes a package, an entry holding exactly `false` excludes it, and any other value, null included, includes it |
| `ActionOutputProps.FeatureTableKeys` | index.js:38-39 | "features" has key `k` if and only if some package assigns under `k` and `k` is not "__proto__" |
| `ActionOutputProps.FeatureTableLastWins` | index.js:39 | when several packages share a key, the last one's feature names are the value |
| `ActionOutputProps.FeaturesOutputKeys` | index.js:38-44 | the emitted "features" object repeats no key, and has key `k` if and only if some package assigns under `k` and `k` is not "__proto__" |
| `ActionOutputProps.FeaturesOutputLastWins` | index.js:39-44 | in the emitted "features" object, a key several packages share holds the string array of the last one's feature names |
| `ActionOutputProps.FeatureKeysOnlyGrow` | index.js:39 | the keys after any prefix of the package list are a prefix of the final keys: a reassigned key keeps its first position |
| `ActionOutputProps.FeaturesAbsentAddsNothing` | index.js:38 | a package without a "features" entry leaves "features" unchanged |
| `ActionOutputProps.ProjectWithoutPackages` | index.js:28-29 | a document that is not null, has no own "packages" entry and no own "hasOwnProperty" entry hiding the method yields "metadata" alone, with no error |
| `ActionOutputProps.ProjectOutputsInOrder` | index.js:28-44 | with a "packages" array whose packages do not throw, the outputs are "metadata", "crates", "publish" and "features", in that order |
| `ActionOutputProps.CratesOutput` | index.js:34-42 | the "crates" output has one element per package: its name, or null when it has none |
| `ActionOutputProps.ProjectEmptyPackages` | index.js:30-44 | an empty package list yields the unchanged document, then `[]`, `[]` and `{}` |
| `ActionOutputProps.ProjectStopsAtFault` | index.js:33-41 | the first package that throws ends the call after "metadata", with that package's error |
| `ActionOutputProps.TwoPackageExample` | index.js:27-46 | for `[{name:"a",publish:false},{name:"b",features:{x,y}}]` the outputs are `["a","b"]`, `[]` and `{"b":["x","y"]}` |
| `ActionOutputProps.OnePackageExample` | index.js:27-46 | for `[{name:"c"}]` the outputs are `["c"]`, `[]` and `{}` |
| `JsValues.Lookup` | index.js:34 | a property read finds a value exactly when the key is an own key, and that value belongs to the key |
| `JsValues.SetProperty` | index.js:39 | `features[k] = v` makes `k` map to `v` and leaves other keys alone; an existing key keeps its position and a new key is appended; "__proto__" leaves the object unchanged; keys stay distinct |
| `JsValues.OwnPropertyNames` | index.js:39 | `Object.getOwnPropertyNames` throws exactly on null or undefined; for an object it returns the own keys in order, one per property |
| `JsValues.Get` | index.js:34 | reading "name", "publish", "features" or "packages", which no built-in prototype defines, throws exactly on null, and only an object's own entry yields a value |
| `JsValues.HasOwnProperty` | index.js:29-38 | `hasOwnProperty` throws exactly on null or on an object whose own "hasOwnProperty" entry hides the method; otherwise it answers true exactly for a name `Object.getOwnPropertyNames` lists |
| `JsValues.ToJsString` | index.js:39 | `String(v)` of a name: a string is itself, a number is its decimal numeral, and it throws exactly when the value hides `toString` (`HidesToString`: an object with an own `toString` entry, or an array holding one at any depth) |
| `JsValues.Join` | index.js:39 | joining an array name's elements throws exactly when some element hides `toString` |
| `JsValues.IntToDecimal` | index.js:39 | `String(n)` of an integer: a leading "-" exactly for a negative number, then digits whose decimal value is the magnitude of `n` |
| `JsValues.ToPropertyKey` | index.js:39 | an undefined name becomes "undefined", a string name is its own key, and the only failure is an object that cannot be turned into a primitive |
| `JsValues.NamedKeyNotOwn` | index.js:29-38 | `hasOwnProperty("packages" / "publish" / "features")` is false on a string, number, boolean or array |
| `JsValues.NatToDecimal` | index.js:39 | array and string index keys are decimal numerals: non-empty, all digits, no leading zero, and their decimal value is the index |

## Left out

- `run()` (index.js:4-25) is not modelled. It spawns `cargo` with fixed
  arguments, reads the `manifest-path` input and wires up the stream
  callbacks; all of it is process I/O.
- The `setFailed` calls on stderr data or a spawn error (index.js:14-20) and
  the top-level try/catch (index.js:48-52) are not modelled. Their effect
  depends on when asynchronous callbacks fire. A thrown `TypeError` is
  returned as a `Fault` instead.
- Parsing each stdout chunk with `JSON.parse` (index.js:22-23) is not
  modelled. The model starts from an already-parsed document.
- The text of `JSON.stringify` is not modelled. Outputs carry the structure
  that would be serialised.
- Numbers are integers. Fractions, exponents and the rounding of large
  integers to doubles are not modelled. `String(n)` is modelled for
  integers only, without exponent notation above 1e21.
- Strings are sequences of characters. The index keys of a string are
  counted per character, not per UTF-16 code unit.
- The `Json` type lets an object list the same key twice, which `JSON.parse`
  never produces (it keeps one entry, holding the last value). The model
  does not rule such objects out: property reads take the first entry and
  `Object.getOwnPropertyNames` lists every entry, so on such an object a
  package's feature list would name a feature twice. The lemmas are stated
  for all values, and so they also hold for documents that `JSON.parse`
  really produces.
- A JavaScript object lists integer-like keys first, in ascending order. The
  `features` table keeps plain insertion order, so a package whose name looks
  like an array index would be listed in a different place.
- The action's other variant, with a `packages` output and a build-matrix
  encoding of features, is not part of this model. Its source is not
  included here.

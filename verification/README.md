# gen: the generic-signature parser, the event wrappers and the processor's artifact decisions

This project models three parts of the `gen` Kotlin annotation-processor repository.

- **`GenericSolver`** (module `GenericSolver`, with `SolverRender` and `SolverExamples`) is the parser that turns a type signature such as `Pair<List<Set<Int>>,Float>` into a KotlinPoet type.
  - `takeItem` is a tokeniser. `run` is a stack machine that reduces on every `>`.
  - The functional definitions (`TakeItem`, `PopArgs`, `Reduce`, `Step`, `Scan`, `Parse`) are the reference semantics.
  - The methods `Run`, `Advance` and `ReduceOnClose` are the source's loops, proved to compute them.
  - `SolverRender` proves the parser against an independent printer, `Render`.
  - `SolverExamples` works through concrete signatures.
- **The event wrappers** (module `Events`): `SimpleEvent` delivers its item on every read. `SingleEvent` delivers it once and then reads as `null`. A read returns the value and the wrapper as it is afterwards.
- **The processor's decisions for one `@VMState` class**:
  - module `Metadata`: `getProperty`/`toClassName` and the pairing of fields with constructor parameters into `Property` records;
  - module `Artifacts`: the flags, the generated names, and the members and parameter lists of the interface, snapshot class, input class, delegate and factory;
  - module `Runtime`: what the generated code does with values — the `getInitialState` merge, push/read on the delegate's subjects, and `onSaveInstanceState`.
  - Module `MainStateExample` works the app's `MainState` through all three.
- `Wrappers` (Option/Result), `Seqs` (filter/map/rank over sequences) and `Poet` (an abstract KotlinPoet `TypeName`) are supporting modules.

Behaviour worth knowing; in each case the model follows the code:

- **An unmatched `<` does not fail.** `run` returns whatever `Value` is on top of the stack at the end, so `Map<String,Int` parses to `Int` (`SolverExamples.ParseMapUnclosed`).
- **Saving consumes single-read events.** `onSaveInstanceState` reads each retained subject with the consuming `get()`, so saving spends an unread `SingleEvent`. One that was already read is saved as `null` (`Runtime.SaveConsumesSingle`).
- **Extraction is driven by the fields, not the parameters.** It fails only when there are more fields than primary-constructor parameters. Fewer fields is accepted and the extra parameters are ignored (`Metadata.ExtractFails`).
- **The factory always exists** for a processed class. `process` always passes a non-null ViewModel type (`Artifacts.Generate`).

## Model

| member | source | states |
|---|---|---|
| GenericSolver.TakeItem | generator/src/main/kotlin/com/belax/generator/Generator.kt:286-295 | The token read is `Open`, `Close` or `Delimiter` exactly when the first character is `<`, `>` or `,`, and a `Value` exactly when it is none of them; the cursor advances by between 1 and the remaining length |
| GenericSolver.TakeItemName | generator/src/main/kotlin/com/belax/generator/Generator.kt:240-243 | A name token keeps the untrimmed text up to the next structural character (or the end) as its raw text and length, and the trimmed text as its type |
| GenericSolver.NameRun | generator/src/main/kotlin/com/belax/generator/Generator.kt:293 | `takeWhile` gives the longest prefix without `<`, `,` or `>`: a prefix, free of them, ending at the input's end or at one of them |
| GenericSolver.NameToken | generator/src/main/kotlin/com/belax/generator/Generator.kt:240-243 | The secondary `Value` constructor types the trimmed text but reports the untrimmed length |
| GenericSolver.TrimStartDrops | generator/src/main/kotlin/com/belax/generator/Generator.kt:240 | The start of `trim()` removes exactly the maximal leading run of whitespace |
| GenericSolver.TrimEndDrops | generator/src/main/kotlin/com/belax/generator/Generator.kt:240 | The end of `trim()` removes exactly the maximal trailing run of whitespace |
| GenericSolver.Form | generator/src/main/kotlin/com/belax/generator/Generator.kt:248-253 | The default `form` parameterises the owner's raw class by exactly the children given; an already parameterised owner loses its old arguments; the result is non-null |
| GenericSolver.Reduce | generator/src/main/kotlin/com/belax/generator/Generator.kt:269-280 | The `Close` handling underflows when no `Open` is on the stack; on success it leaves the stack below untouched, shorter than before, with one freshly formed non-null parameterised `Value` on top; `ReduceAbove` says which owner and which arguments |
| GenericSolver.PopArgsAbove | generator/src/main/kotlin/com/belax/generator/Generator.kt:270-278 | Popping on an `Open` with values above it returns exactly those values, in pushed order, and the stack below the `Open` |
| GenericSolver.ReduceAbove | generator/src/main/kotlin/com/belax/generator/Generator.kt:269-280 | On any stack of the form below, owner, `Open`, values: the owner parameterised by the values in left-to-right order replaces them when the owner is a `Value`, the cast fails (`NotAValue`) when it is not, and with nothing below the `Open` the owner pop underflows |
| GenericSolver.PopArgs | generator/src/main/kotlin/com/belax/generator/Generator.kt:270-275 | The pop loop either underflows, or leaves a prefix of the stack and pops one entry more than the values it collects |
| GenericSolver.PopArgsFails | generator/src/main/kotlin/com/belax/generator/Generator.kt:271-275 | The pop loop underflows exactly when every entry on the stack is a `Value` |
| GenericSolver.PopArgsSucceeds | generator/src/main/kotlin/com/belax/generator/Generator.kt:271-275 | Otherwise it stops at the topmost non-`Value` entry and returns the values above it in push order, the order `list.reversed()` restores |
| GenericSolver.Step | generator/src/main/kotlin/com/belax/generator/Generator.kt:265-280 | No iteration ever pushes a `Delimiter` or `Close`: the stack holds only `Value` and `Open` entries |
| GenericSolver.Scan | generator/src/main/kotlin/com/belax/generator/Generator.kt:261-282 | The whole loop keeps the stack shape |
| GenericSolver.Top | generator/src/main/kotlin/com/belax/generator/Generator.kt:283 | The final pop succeeds exactly when the stack is non-empty with a `Value` on top, and returns that value |
| GenericSolver.ReduceOnClose | generator/src/main/kotlin/com/belax/generator/Generator.kt:269-280 | The `Close` branch as written computes the reduction: underflow, a non-`Value` owner, or the owner formed over the arguments in left-to-right order |
| GenericSolver.Advance | generator/src/main/kotlin/com/belax/generator/Generator.kt:262-281 | One pass of the loop body as written (skip `,`, push anything but `>`, reduce on `>`): it throws what the whole scan throws, or moves the cursor strictly forward, at most to the end, keeping the stack shape and the outcome of the rest of the scan |
| GenericSolver.AdvancedScan | generator/src/main/kotlin/com/belax/generator/Generator.kt:261-263 | Each pass either throws what the whole scan throws, or moves the cursor strictly forward within the input while keeping the scan's outcome |
| GenericSolver.Parse | generator/src/main/kotlin/com/belax/generator/Generator.kt:258-284 | `run`'s result: empty input fails at the final pop; `Run` is proved equal to it and `SolverRender.ParseRenderWith` characterises it on every printed type |
| GenericSolver.Run | generator/src/main/kotlin/com/belax/generator/Generator.kt:258-284 | `run` as written, a cursor loop over an explicit stack, terminates and returns exactly `Parse`, including its failures |
| GenericSolver.Tokenise | generator/src/main/kotlin/com/belax/generator/Generator.kt:231-244 | Every token the loop reads has length at least 1, so the cursor always moves |
| GenericSolver.TokeniseSpells | generator/src/main/kotlin/com/belax/generator/Generator.kt:261-263 | The tokens read, spelled out, are the input: every character is consumed exactly once |
| GenericSolver.ScanIsFold | generator/src/main/kotlin/com/belax/generator/Generator.kt:258-282 | The scan is the one-token step applied in turn to the token sequence, stopping at the first exception |
| GenericSolver.ScanAppend | generator/src/main/kotlin/com/belax/generator/Generator.kt:261-282 | At a structural boundary, scanning two texts joined is scanning the second from the stack the first left |
| SolverRender.TrimPadded | generator/src/main/kotlin/com/belax/generator/Generator.kt:240 | Whitespace before a name is trimmed away from its type |
| SolverRender.ReadName | generator/src/main/kotlin/com/belax/generator/Generator.kt:286-295 | A padded name followed by a structural character is read as one `Value` of the name, spanning the padding |
| SolverRender.ScanRendered | generator/src/main/kotlin/com/belax/generator/Generator.kt:258-282 | Scanning the text of any parseable type pushes exactly one `Value` of that type and nothing else |
| SolverRender.ParseRenderWith | generator/src/main/kotlin/com/belax/generator/Generator.kt:258-284 | Round trip: parsing the printed form of any type (names free of `<,>` and outer whitespace, any whitespace after commas) gives the type back |
| SolverRender.ParseRender | generator/src/main/kotlin/com/belax/generator/Generator.kt:258-284 | Round trip for KotlinPoet's own `A<B, C>` spelling |
| SolverRender.ParsePadded | generator/src/main/kotlin/com/belax/generator/Generator.kt:240-243 | Leading whitespace does not change the result |
| SolverRender.ParseUnclosed | generator/src/main/kotlin/com/belax/generator/Generator.kt:283 | An owner with an unclosed argument list parses to its last argument instead of failing |
| SolverRender.ParseUnopened | generator/src/main/kotlin/com/belax/generator/Generator.kt:271-275 | A `>` with no matching `<` underflows the pop loop |
| SolverRender.CloseOnSingleValue | generator/src/main/kotlin/com/belax/generator/Generator.kt:271-275 | Any text leaving a single `Value` on the stack fails with an empty stack when `>` follows |
| SolverRender.ParseOwnerless | generator/src/main/kotlin/com/belax/generator/Generator.kt:277 | An argument list with no owner before it underflows at the owner pop |
| SolverRender.ParseNestedOpen | generator/src/main/kotlin/com/belax/generator/Generator.kt:277 | `A<<B>>` fails the `as Value` cast on the owner |
| SolverRender.ParseReparameterised | generator/src/main/kotlin/com/belax/generator/Generator.kt:248-253 | `A<B><C>` gives `A` over `C` only: re-parameterising replaces the arguments |
| SolverExamples.ParseSetOfInteger | app/src/test/java/com/belax/timerapp/ExampleUnitTest.kt:20-24 | The unit test's `java.lang.Set<java.lang.Integer>` is `java.lang.Set` over `java.lang.Integer` |
| SolverExamples.ParseMap | generator/src/main/kotlin/com/belax/generator/Generator.kt:258-284 | `Map<String,Int>` is `Map` over `String` and `Int`, in that order |
| SolverExamples.ParseMapUnclosed | generator/src/main/kotlin/com/belax/generator/Generator.kt:283 | `Map<String,Int` returns `Int` |
| SolverExamples.ParseNestedPair | generator/src/main/kotlin/com/belax/generator/Generator.kt:258-284 | `Pair<List<Set<Int>>,Float>` nests as written |
| SolverExamples.ParseEmpty | generator/src/main/kotlin/com/belax/generator/Generator.kt:283 | Empty input fails at the final pop |
| Events.NewSingle | annotation/src/main/java/com/belax/annotation/Events.kt:11-13 | A new `SingleEvent` is unused and holds its item |
| Events.Get | annotation/src/main/java/com/belax/annotation/Events.kt:7-19 | A read delivers the item exactly when the wrapper is a `SimpleEvent` or an unused `SingleEvent`; afterwards a `SingleEvent` is used; kind and item never change; a `SimpleEvent` or used wrapper is left as it was |
| Events.Monotone | annotation/src/main/java/com/belax/annotation/Events.kt:12-19 | Over any number of reads the kind and item are kept and `alreadyUsed` never returns to false |
| Events.SimpleAlwaysDelivers | annotation/src/main/java/com/belax/annotation/Events.kt:7-9 | A `SimpleEvent` answers every read with its item and is stateless |
| Events.UsedNeverDelivers | annotation/src/main/java/com/belax/annotation/Events.kt:16 | A used `SingleEvent` answers every read with `null` and stays as it is |
| Events.SingleDeliversOnce | annotation/src/main/java/com/belax/annotation/Events.kt:15-19 | Over any number of reads a `SingleEvent` delivers its item at most once, on the first read iff unused, and ends up used |
| Events.Observe | annotation/src/main/java/com/belax/annotation/Events.kt:3-5 | What `get(): T?` shows a caller: the item when the read delivers it, `null` otherwise, so non-null exactly when a non-null item is delivered; the wrapper changes as `Get` says |
| Events.NullItemLooksExhausted | annotation/src/main/java/com/belax/annotation/Events.kt:17-18 | A `SingleEvent` holding `null` is spent by its first read and cannot be told apart from an exhausted one |
| Metadata.DotsAt | compiler/src/main/java/com/belax/compiler/Compiler.kt:41 | `replace('/', '.')` keeps the length and replaces every `/` by `.` and nothing else |
| Metadata.DotsQualified | compiler/src/main/java/com/belax/compiler/Compiler.kt:41 | A name `package/Name` becomes `package.Name` |
| Metadata.GetProperty | compiler/src/main/java/com/belax/compiler/Compiler.kt:44-54 | Each node keeps its own nullability, also once parameterised, and its dotted class name; it is parameterised exactly when it has arguments, one per argument |
| Metadata.GetArguments | compiler/src/main/java/com/belax/compiler/Compiler.kt:47-50 | The k-th translated argument is the translation of the k-th metadata argument, one per argument, in order |
| Metadata.GetPropertyInverse | compiler/src/main/java/com/belax/compiler/Compiler.kt:44-54 | The translation is one-to-one: reading the KotlinPoet type back gives the metadata tree it came from, order and nullability included |
| Metadata.PrimaryIndex | compiler/src/main/java/com/belax/compiler/Compiler.kt:311 | The position `find { it.isPrimary }` stops at: no constructor before it is primary, and the one at it is primary unless the list is exhausted |
| Metadata.FindPrimary | compiler/src/main/java/com/belax/compiler/Compiler.kt:311 | `find { it.isPrimary }` is absent exactly when no constructor is primary, and otherwise is the first primary constructor of the list: every one before it is not primary |
| Metadata.ConfigOf | compiler/src/main/java/com/belax/compiler/Compiler.kt:323-325 | A field without `@Config` has all three markers false |
| Metadata.MakeProperty | compiler/src/main/java/com/belax/compiler/Compiler.kt:316-327 | The name and type come from the parameter; the observable type is `Event` over that type |
| Metadata.Pair | compiler/src/main/java/com/belax/compiler/Compiler.kt:314-328 | One property per field, the i-th built from the i-th field and the i-th parameter |
| Metadata.Extract | compiler/src/main/java/com/belax/compiler/Compiler.kt:311-328 | The property list of `process`: no primary constructor fails with that error; more fields than parameters fails with the index error; on success one property per field; `ExtractPairs` gives each property |
| Metadata.ExtractFails | compiler/src/main/java/com/belax/compiler/Compiler.kt:311-316 | Extraction fails exactly when there is no primary constructor (with that error) or more fields than parameters |
| Metadata.ExtractPairs | compiler/src/main/java/com/belax/compiler/Compiler.kt:314-327 | On success the i-th property has the i-th parameter's name and types and the i-th field's markers |
| Artifacts.IsParcelable | compiler/src/main/java/com/belax/compiler/Compiler.kt:330 | A snapshot class is generated exactly when some property is retained |
| Artifacts.HasInput | compiler/src/main/java/com/belax/compiler/Compiler.kt:331 | An input class is generated exactly when some property is an input |
| Artifacts.NamesDistinct | compiler/src/main/java/com/belax/compiler/Compiler.kt:301-306 | The five generated names start with the class name and are pairwise distinct, and distinct from the class name, for every class name |
| Artifacts.UpperAt | compiler/src/main/java/com/belax/compiler/Compiler.kt:268 | `toUpperCase()` maps every character through the upper-case map and keeps the length |
| Artifacts.Capitalize | compiler/src/main/java/com/belax/compiler/Compiler.kt:248 | `capitalize()` changes only the first character, to upper case |
| Artifacts.BundleKeyShape | compiler/src/main/java/com/belax/compiler/Compiler.kt:266-268 | The key constant is the class name in upper case, character by character, followed by `_BUNDLE_KEY` |
| Artifacts.EventClassOf | compiler/src/main/java/com/belax/compiler/Compiler.kt:171-173 | `SingleEvent` for single-read properties, `SimpleEvent` otherwise |
| Artifacts.BuildOutClass | compiler/src/main/java/com/belax/compiler/Compiler.kt:155-169 | The snapshot class exists exactly when requested, is parcelable, and has one field per retained property |
| Artifacts.BuildInputClass | compiler/src/main/java/com/belax/compiler/Compiler.kt:142-153 | The input class exists exactly when requested, is not parcelable, and has one field per input property |
| Artifacts.SnapshotClassExact | compiler/src/main/java/com/belax/compiler/Compiler.kt:155-169 | The snapshot class holds exactly the retained properties in declaration order (each at its rank, every field one of them) and is never empty |
| Artifacts.InputClassExact | compiler/src/main/java/com/belax/compiler/Compiler.kt:142-153 | The input class holds exactly the input properties in declaration order and is never empty |
| Artifacts.BuildObservableInterface | compiler/src/main/java/com/belax/compiler/Compiler.kt:72-87 | One abstract `<name>Changes` per property, in order, then `onSaveInstanceState` exactly when there is a snapshot class |
| Artifacts.ParamNames | compiler/src/main/java/com/belax/compiler/Compiler.kt:117-118 | `bundle` iff a snapshot class exists, then `input` iff an input class exists |
| Artifacts.GetInitialStateFun | compiler/src/main/java/com/belax/compiler/Compiler.kt:177-207 | A private `getInitialState` returning the state class, with parameters `bundle`/`input` by the rule above; it builds the value with the state class's constructor, reads the input iff there is an input class and restores iff there is a snapshot class |
| Artifacts.BuildDelegate | compiler/src/main/java/com/belax/compiler/Compiler.kt:209-297 | The delegate implements the interface, has one subject, accessor and push per property, and has a bundle key, a save function and a constructor exactly when their conditions hold |
| Artifacts.DelegatePerProperty | compiler/src/main/java/com/belax/compiler/Compiler.kt:224-252 | For each property: `<name>Subject` seeded from its default, `<name>Changes` and a push both on that subject, the push named `push` plus the capitalised property name and taking `value` of the property's type, and the event class `SingleEvent` iff single-read |
| Artifacts.DelegateImplementsClient | compiler/src/main/java/com/belax/compiler/Compiler.kt:234-283 | The delegate's overrides, in order, are the interface's abstract functions with `override` in place of `abstract` |
| Artifacts.BuildFactoryClass | compiler/src/main/java/com/belax/compiler/Compiler.kt:89-140 | No factory without a ViewModel type; the factory's private properties repeat its constructor parameters |
| Artifacts.Generate | compiler/src/main/java/com/belax/compiler/Compiler.kt:338-348 | Snapshot class iff some property is retained, input class iff some is an input, and always a factory |
| Artifacts.ParameterListsAgree | compiler/src/main/java/com/belax/compiler/Compiler.kt:287-293 | The factory constructor, its `create` call, the delegate constructor, `getInitialState`'s call and its parameters all follow one list; the delegate has a constructor only when it is non-empty |
| Artifacts.SaveRestoreAgree | compiler/src/main/java/com/belax/compiler/Compiler.kt:275-279 | Save writes, and `getInitialState` restores, exactly the snapshot class's fields in order under the same key; the input read is exactly the input class's fields |
| Runtime.Decode | compiler/src/main/java/com/belax/compiler/Compiler.kt:195 | `getParcelable(key) as?` yields the parcel's values exactly when the bundle is present with a parcel of the snapshot class under the key holding one value per retained property |
| Runtime.OverlayAt | compiler/src/main/java/com/belax/compiler/Compiler.kt:192-197 | A named-argument call or `copy` replaces each picked property by its value at the property's rank and keeps the rest |
| Runtime.InitialValue | compiler/src/main/java/com/belax/compiler/Compiler.kt:177-207 | The generated `getInitialState` body gives one value per property; `InitialValueAt` gives each value |
| Runtime.InitialValueAt | compiler/src/main/java/com/belax/compiler/Compiler.kt:192-200 | The merge, field by field: retained fields from a decodable snapshot, else input fields from the input, else the default |
| Runtime.Wrap | compiler/src/main/java/com/belax/compiler/Compiler.kt:245-252 | A push wraps the value in a fresh, unused `SingleEvent` for single-read properties and a `SimpleEvent` otherwise |
| Runtime.Seed | compiler/src/main/java/com/belax/compiler/Compiler.kt:224-232 | Each subject starts with its property's initial value in its own event class |
| Runtime.Push | compiler/src/main/java/com/belax/compiler/Compiler.kt:245-252 | `push<Name>(value)` gives the property a fresh wrapper of its kind holding `value` (an unused one when single-read) and leaves every other property as it was |
| Runtime.Read | annotation/src/main/java/com/belax/annotation/Events.kt:15-19 | A subscriber's `get()` on one property sees the item exactly when the wrapper delivers a non-null item, spends a single-read wrapper, and leaves the other properties alone |
| Runtime.PushThenRead | compiler/src/main/java/com/belax/compiler/Compiler.kt:245-252 | A push re-arms the property whatever its previous wrapper, and no other property changes |
| Runtime.ReadTwice | compiler/src/main/java/com/belax/compiler/Compiler.kt:245-252 | After a push, a second read gives `null` for a single-read property and the value again otherwise |
| Runtime.SaveValues | compiler/src/main/java/com/belax/compiler/Compiler.kt:277-278 | The snapshot's constructor arguments: one value per retained property, and a state for every property; `SaveValuesAt` gives each value and the state left by the reads |
| Runtime.SaveValuesAt | compiler/src/main/java/com/belax/compiler/Compiler.kt:277-278 | The snapshot holds, for each retained property at its rank, what `get()` on its wrapper returned, and that `get()` acts on the wrapper |
| Runtime.SaveInstanceState | compiler/src/main/java/com/belax/compiler/Compiler.kt:275-279 | With a non-null bundle, a parcel of the snapshot class is stored under the key and every other entry is kept; with `null` nothing is stored |
| Runtime.SaveThenRestore | compiler/src/main/java/com/belax/compiler/Compiler.kt:194-197 | A delegate built from a saved bundle restores each retained property to what was read at save time; the others come from input or defaults |
| Runtime.SaveThenRestoreSimple | compiler/src/main/java/com/belax/compiler/Compiler.kt:194-197 | A multi-read retained property is restored to its current value |
| Runtime.SaveConsumesSingle | compiler/src/main/java/com/belax/compiler/Compiler.kt:278 | Saving spends a single-read retained event, so a later subscriber reads `null`; one already read is saved as `null` |
| MainStateExample.ExtractMainState | app/src/main/java/com/belax/timerapp/MainActivity.kt:54-63 | `MainState`'s four fields pair with its parameters into `city` (retained), `name` (input), `other`, `toast` (single, retained) |
| MainStateExample.ToastNullable | app/src/main/java/com/belax/timerapp/MainActivity.kt:57-62 | `String?` becomes a nullable `kotlin.String`, `String` a non-null one |
| MainStateExample.MainStateClasses | app/src/main/java/com/belax/timerapp/MainActivity.kt:54-63 | The snapshot class is `MainState_Parcelable` with `[city, toast]`, the input class `MainStateInput` with `[name]`, and the factory passes `bundle, input` |
| MainStateExample.MainStateBundleKey | compiler/src/main/java/com/belax/compiler/Compiler.kt:266-268 | The key of `MainState` is `MAINSTATE_BUNDLE_KEY` |
| MainStateExample.MainStateMembers | app/src/main/java/com/belax/timerapp/MainActivity.kt:65-72 | `MainStateClient` declares the four `Changes` accessors and `onSaveInstanceState`; the delegate has `pushCity` … `pushToast` |
| MainStateExample.InitialWithoutBundle | app/src/main/java/com/belax/timerapp/MainActivity.kt:54-63 | Without saved state: `Moscow`, the input's name, `""`, `null` |
| MainStateExample.InitialFromBundle | app/src/main/java/com/belax/timerapp/MainActivity.kt:54-63 | A saved `city = "Paris"` overrides the default; `name` still comes from the input |
| MainStateExample.InitialFromForeignParcel | compiler/src/main/java/com/belax/compiler/Compiler.kt:195-196 | A parcel of another class under the key is ignored |
| MainStateExample.SingleScenario | app/src/main/java/com/belax/timerapp/MainActivity.kt:61-62 | `toast`: push, read, read `null`, push again, read the new value |
| MainStateExample.MultiScenario | app/src/main/java/com/belax/timerapp/MainActivity.kt:56-57 | `city`: after a push every read returns the pushed value |

## Left out

- `ClassName.bestGuess` name validation is not modelled; a name becomes a class name of its (trimmed) text. So text `bestGuess` would reject, such as an empty name, parses here.
- KotlinPoet's rule that a parameterised type has at least one argument is not modelled: `A<>` gives `A` with no arguments, where KotlinPoet throws.
- `GenericSolver`'s `form` constructor argument is fixed to its default; every caller uses `GenericSolver()` (generator/src/main/kotlin/com/belax/generator/Generator.kt:30, app/src/test/java/com/belax/timerapp/ExampleUnitTest.kt:22).
- Kotlin's `length`, `drop` and `takeWhile` count UTF-16 code units, while the model's strings are sequences of characters and cannot hold a lone surrogate. The cursor arithmetic is internal to `run`, so the results agree on class names made of valid characters.
- Star projections, variance and wildcards in signatures are not modelled; the parser takes them as part of a raw name.
- In metadata, star projections (an argument without a type) and type-parameter types (a type without a class name) are not modelled; every metadata type here has a class name.
- `toUpperCase()` and `capitalize()` are modelled on ASCII letters only; other cased letters are left unchanged. Both use the build's default locale: it is assumed to map ASCII letters to ASCII (not Turkish or Azeri, where `i` becomes `İ`), so under those locales the bundle key and the `push` names differ from the model's.
- GenericSolver.TakeItem: requires non-empty input, as `first()` throws on an empty string; `run` never calls it with one.
- Metadata.GetPropertyInverse: holds for names with no `.` of their own; a metadata name that already holds `.` cannot be told apart from one with `/` after `replace`.
- The `SingleEvent` class is modelled as an immutable value whose read returns the next value, not as an object with a mutable flag; the private setter becomes "only `NewSingle` and `Get` build one".
- RxJava delivery (`BehaviorSubject`, `hide()`, subscriptions, threads) is left out; a subject is its current wrapper, replaced on push.
- Android `Bundle`, `Parcelable` and `@Parcelize` are modelled as a map from keys to parcels of a class name and field values. Platform serialisation is left out.
- The factory's `create` and its unchecked cast are left out, beyond the arguments it passes.
- Writing files (`FileSpec.writeTo`, `Filer`, the `kapt.kotlin.generated` directory), `Messager`, `init` and round handling in `process` are I/O and are left out.
- Reading `createViewModelFactory` through `MirroredTypeException` (compiler/src/main/java/com/belax/compiler/Compiler.kt:332-336) is reflection glue; the ViewModel class is a parameter of `Generate`.
- The kotlin-metadata `NameResolver` is not modelled; metadata names arrive already resolved.
- An exception in `process` (the `!!` on a missing primary constructor, an out-of-range `valueParameterList[index]`) is not caught anywhere: it escapes `process`, so later classes of the round are not generated and the build fails. The model returns these exceptions as errors for the one class and does not model the rest of the round.
- The older processor in generator/src/main/kotlin/com/belax/generator/Generator.kt:26-229 is an earlier revision of the same generation and is not part of this model.
- The Android UI of app/src/main/java/com/belax/timerapp/MainActivity.kt is not part of this model; only `MainState` is used, as example input.

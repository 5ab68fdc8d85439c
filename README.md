# Channel references and module dependencies of Spring XD, in Dafny

This project models two sequential pieces of Spring XD's runtime.

**The channel reference node.** The stream definition language writes channel endpoints such as `queue:orders`, `tap:mystream` or `tap:mystream.2`. The parser turns each one into a `ChannelNode`: a channel type, a source span, a list of colon-separated name components and a list of dot-separated indexing elements. The node renders itself in several string forms. Its `resolve` pass rewrites a stream tap against the streams already defined:
- `tap:s` is pointed at the first module of `s`;
- `tap:s.2` is pointed at module 2 of `s`;
- `tap:s.label` is left alone;
- an unknown stream raises `UNRECOGNIZED_STREAM_REFERENCE`.

Both lists are heap objects (`JavaUtil.StringList`), so the model shows the aliasing the Java code has:
- `copyOf` shares both lists with the original node;
- a numeric index is rewritten in place, and every holder of the list sees the change;
- a tap without an index gets a new list, which only the resolved node sees.

The model also keeps what happens on the error paths before the exception is thrown:
- **Numeric index out of range.** `remove(0)` has already run when `get(index)` throws. The list is left without its first element.
- **Known stream with no modules.** The field has already been rebound to a new empty list when `get(0)` throws.

**The in-memory module dependency repository.** This is a map from the key `TYPE:moduleName` to the set of targets that depend on that module. Its `get` never returns null: for an absent key it first puts a new empty set into the map. `store` and `delete` add or remove one target in the set under one key.

Modules:
- `Wrappers`: the optional value.
- `Strings`: joining with a separator, and splitting again.
- `JavaLang`: `Integer.parseInt`, `Integer.toString` and `String.equalsIgnoreCase`.
- `JavaUtil`: a `List<String>` as a class.
- `ChannelDsl`: the node, its collaborators and the specification functions of its renderings and of `resolve`.
- `ChannelProperties`: the lemmas about the node.
- `ModuleDependencies`: the repository class, its specification functions and lemmas.

Each method of `ChannelNode` is proved equal to a function of the node's current state, `Value()`. The string methods keep the source's `StringBuilder` loops. The lemmas state what those functions promise.

Collaborators that are not part of this model appear only through what the node uses of them:
- `ChannelType` is a record: its constant name, its string representation, `isTap()`, and the name of `tapSource()`. `TAP_STREAM` is recognised by its constant name.
- `StreamNode` is its list of modules, and each module is its name.
- `StreamLookupEnvironment` is a finite map. Its lookup returns `None` where the source gets null.
- `ModuleType` is its constant name.

## Model

| member | source | states |
|---|---|---|
| `ChannelDsl.ChannelNode.constructor` | spring-xd-dirt/src/main/java/org/springframework/xd/dirt/stream/dsl/ChannelNode.java:33-39 | the node keeps the type, the span and the very list objects it is given (no copy) |
| `ChannelDsl.ChannelNode.Stringify` | spring-xd-dirt/src/main/java/org/springframework/xd/dirt/stream/dsl/ChannelNode.java:41-69 | the StringBuilder loops produce `Stringified(Value(), includePositionalInfo)` |
| `ChannelDsl.ChannelNode.ToString` | spring-xd-dirt/src/main/java/org/springframework/xd/dirt/stream/dsl/ChannelNode.java:71-78 | the result is the type's representation, then the joined names, then the indexing |
| `ChannelDsl.ChannelNode.GetChannelName` | spring-xd-dirt/src/main/java/org/springframework/xd/dirt/stream/dsl/ChannelNode.java:80-88 | the result is `tap:` (only for a tap type), then the joined names, then the indexing |
| `ChannelDsl.ChannelNode.GetNameComponents` | spring-xd-dirt/src/main/java/org/springframework/xd/dirt/stream/dsl/ChannelNode.java:90-99 | the loop produces the name components joined by `:` |
| `ChannelDsl.ChannelNode.GetIndexingComponents` | spring-xd-dirt/src/main/java/org/springframework/xd/dirt/stream/dsl/ChannelNode.java:101-108 | the loop produces `"." + e` for each indexing element, in order |
| `ChannelDsl.ChannelNode.GetStreamName` | spring-xd-dirt/src/main/java/org/springframework/xd/dirt/stream/dsl/ChannelNode.java:110-115 | the joined names for a `TAP_STREAM` node, and None (null) for every other type |
| `ChannelDsl.ChannelNode.GetChannelType` | spring-xd-dirt/src/main/java/org/springframework/xd/dirt/stream/dsl/ChannelNode.java:117-119 | the type fixed at construction |
| `ChannelDsl.ChannelNode.CopyOf` | spring-xd-dirt/src/main/java/org/springframework/xd/dirt/stream/dsl/ChannelNode.java:121-124 | a fresh node with equal state that shares both list objects with the original |
| `ChannelDsl.ChannelNode.Resolve` | spring-xd-dirt/src/main/java/org/springframework/xd/dirt/stream/dsl/ChannelNode.java:126-160 | what is thrown, the new list contents, and that the field is rebound to a fresh list after an index-less tap and stays the same (in-place) list otherwise, the old list then being untouched; a name list that is the same object changes with it |
| `ChannelDsl.Resolved` | spring-xd-dirt/src/main/java/org/springframework/xd/dirt/stream/dsl/ChannelNode.java:126-160 | the effect of resolve on a node state: only a stream tap can fail; only an index-less stream tap rebinds the list; a success that does not rebind keeps the list length and every element after the first; a successful stream tap always has an index |
| `ChannelDsl.DottedAppend` | spring-xd-dirt/src/main/java/org/springframework/xd/dirt/stream/dsl/ChannelNode.java:101-108 | rendering the indexing of a concatenation is concatenating the renderings |
| `ChannelProperties.NameComponentsShape` | spring-xd-dirt/src/main/java/org/springframework/xd/dirt/stream/dsl/ChannelNode.java:90-99 | no names give ""; otherwise the text starts with the first name and ends with the last (no separator is added before the first name or after the last), and is as long as the names plus one colon between each two |
| `ChannelProperties.NameComponentsRoundTrip` | spring-xd-dirt/src/main/java/org/springframework/xd/dirt/stream/dsl/ChannelNode.java:90-99 | colon-free names are recovered by cutting the joined text at colons |
| `ChannelProperties.IndexingComponentsConcatenate` | spring-xd-dirt/src/main/java/org/springframework/xd/dirt/stream/dsl/ChannelNode.java:101-108 | the indexing text is "" for no elements, `.e` for one, splits at every cut of the list, and is as long as the elements plus one dot each |
| `ChannelProperties.DottedIsDotJoin` | spring-xd-dirt/src/main/java/org/springframework/xd/dirt/stream/dsl/ChannelNode.java:101-108 | a non-empty indexing text is a dot, then the elements joined with dots |
| `ChannelProperties.IndexingComponentsRoundTrip` | spring-xd-dirt/src/main/java/org/springframework/xd/dirt/stream/dsl/ChannelNode.java:101-108 | dot-free indexing elements are recovered from their rendering |
| `ChannelProperties.NameComponentsFromText` | spring-xd-dirt/src/main/java/org/springframework/xd/dirt/stream/dsl/ChannelNode.java:90-99 | rendering the names cut from any text at its colons gives that text back |
| `ChannelProperties.IndexingComponentsFromText` | spring-xd-dirt/src/main/java/org/springframework/xd/dirt/stream/dsl/ChannelNode.java:101-108 | rendering the elements read from an indexing text (empty or starting with a dot) gives that text back |
| `ChannelProperties.RenderingsShareParts` | spring-xd-dirt/src/main/java/org/springframework/xd/dirt/stream/dsl/ChannelNode.java:71-115 | toString and getChannelName are one names-then-indexing part behind their own prefixes; getStreamName gives the joined names exactly for `TAP_STREAM` |
| `ChannelProperties.ChannelTextRoundTrip` | spring-xd-dirt/src/main/java/org/springframework/xd/dirt/stream/dsl/ChannelNode.java:80-108 | the names-then-indexing part reads back to both lists, when names hold no `:` or `.` and indexing elements no `.` |
| `ChannelDsl.Stringified` | spring-xd-dirt/src/main/java/org/springframework/xd/dirt/stream/dsl/ChannelNode.java:42-69 | the stringify text of a node state: it always starts with `(` and ends with `)` |
| `ChannelProperties.StringifyDropsOnlyTapSource` | spring-xd-dirt/src/main/java/org/springframework/xd/dirt/stream/dsl/ChannelNode.java:45-62 | without positions, stringify is `(` + toString + `)` except that for a tap whose first name equals the tap source's name ignoring case, exactly that one name is left out |
| `ChannelProperties.StringifyDropIgnoresCase` | spring-xd-dirt/src/main/java/org/springframework/xd/dirt/stream/dsl/ChannelNode.java:47-48 | for a tap, the first name is dropped exactly when it and the tap source's name agree after lower-casing |
| `ChannelProperties.StringifyPositionalInfo` | spring-xd-dirt/src/main/java/org/springframework/xd/dirt/stream/dsl/ChannelNode.java:63-67 | positional information only inserts `:start>end` before the closing parenthesis, and each position written reads back to the same int |
| `ChannelProperties.ResolveOnlyStreamTaps` | spring-xd-dirt/src/main/java/org/springframework/xd/dirt/stream/dsl/ChannelNode.java:126-127 | any channel type other than `TAP_STREAM` is left exactly as it was, with nothing thrown |
| `ChannelProperties.ResolveWithoutIndex` | spring-xd-dirt/src/main/java/org/springframework/xd/dirt/stream/dsl/ChannelNode.java:128-137 | with no index, an unknown stream raises `UNRECOGNIZED_STREAM_REFERENCE` with the stream name at position -1 and changes nothing; a known stream makes the field a new list holding exactly the first module's name |
| `ChannelProperties.ResolveNumericIndex` | spring-xd-dirt/src/main/java/org/springframework/xd/dirt/stream/dsl/ChannelNode.java:145-154 | with a numeric first index `i`, an unknown stream raises `UNRECOGNIZED_STREAM_REFERENCE` and changes nothing; otherwise the same list keeps its length and its other elements and only element 0 becomes module i's name; an `i` outside the pipeline raises an out-of-bounds error, never a default |
| `ChannelProperties.ResolveLabelUntouched` | spring-xd-dirt/src/main/java/org/springframework/xd/dirt/stream/dsl/ChannelNode.java:145-157 | a non-numeric first index: the outcome is the same in every environment (no lookup), nothing changes and nothing is thrown |
| `ChannelProperties.ResolvedTargetsModule` | spring-xd-dirt/src/main/java/org/springframework/xd/dirt/stream/dsl/ChannelNode.java:128-154 | a successful resolve of a stream tap leaves a non-empty index whose first element is a module name of the tapped stream (unless it was already a label) |
| `ChannelProperties.ResolveIdempotent` | spring-xd-dirt/src/main/java/org/springframework/xd/dirt/stream/dsl/ChannelNode.java:126-160 | resolving again after success is a no-op when the resolved module name is not a number |
| `ChannelProperties.TapExamples` | spring-xd-dirt/src/main/java/org/springframework/xd/dirt/stream/dsl/ChannelNode.java:126-160 | sample resolutions of the two shapes a tap is written in, `tap:<stream>` and `tap:<stream>.<module>`: against a stream `main` of modules http, transform, file, `tap:main` gives `http`, `tap:main.2` gives `file`, `tap:main.9` is out of bounds, `tap:main.http` is untouched; an undefined `tap:doesnotexist` is unrecognized with that name |
| `ChannelProperties.ResolveCopy` | spring-xd-dirt/src/main/java/org/springframework/xd/dirt/stream/dsl/ChannelNode.java:121-153 | resolving a copy: an in-place numeric rewrite is seen through the original node; the new list of an index-less tap is not |
| `JavaLang.ParseIntToString` | spring-xd-dirt/src/main/java/org/springframework/xd/dirt/stream/dsl/ChannelNode.java:146 | parseInt reads back every int that toString writes |
| `JavaLang.EqualsIgnoreCaseIsLowerEquality` | spring-xd-dirt/src/main/java/org/springframework/xd/dirt/stream/dsl/ChannelNode.java:48 | for ASCII text, equalsIgnoreCase holds exactly when the lower-cased strings are equal |
| `ModuleDependencies.KeyFor` | spring-xd-dirt/src/main/java/org/springframework/xd/dirt/module/memory/InMemoryModuleDependencyRepository.java:63-65 | the key is the type name, then a colon that is the first colon of the key, then the module name |
| `ModuleDependencies.KeyForRoundTrip` | spring-xd-dirt/src/main/java/org/springframework/xd/dirt/module/memory/InMemoryModuleDependencyRepository.java:63-65 | cutting a key at its first colon gives back the type name and the module name |
| `ModuleDependencies.KeyForInjective` | spring-xd-dirt/src/main/java/org/springframework/xd/dirt/module/memory/InMemoryModuleDependencyRepository.java:63-65 | two keys are equal exactly when their types and module names are |
| `ModuleDependencies.Vivified` | spring-xd-dirt/src/main/java/org/springframework/xd/dirt/module/memory/InMemoryModuleDependencyRepository.java:38-45 | after a get the key is present, no other key is added, and every entry holds what was there or the empty set |
| `ModuleDependencies.Stored` | spring-xd-dirt/src/main/java/org/springframework/xd/dirt/module/memory/InMemoryModuleDependencyRepository.java:49-51 | the map after store: the key is present, its set holds the target and otherwise what it held, and every other key keeps its set |
| `ModuleDependencies.Deleted` | spring-xd-dirt/src/main/java/org/springframework/xd/dirt/module/memory/InMemoryModuleDependencyRepository.java:54-56 | the map after delete: the key is present, its set lacks the target and otherwise holds what it held, and every other key keeps its set |
| `ModuleDependencies.InMemoryModuleDependencyRepository.constructor` | spring-xd-dirt/src/main/java/org/springframework/xd/dirt/module/memory/InMemoryModuleDependencyRepository.java:35 | the repository starts with an empty map |
| `ModuleDependencies.InMemoryModuleDependencyRepository.DependenciesGet` | spring-xd-dirt/src/main/java/org/springframework/xd/dirt/module/memory/InMemoryModuleDependencyRepository.java:38-45 | the result is never missing: it is the stored set, or an empty set that is put into the map first |
| `ModuleDependencies.InMemoryModuleDependencyRepository.Store` | spring-xd-dirt/src/main/java/org/springframework/xd/dirt/module/memory/InMemoryModuleDependencyRepository.java:49-51 | the whole new map: the target added to the set under `keyFor(moduleName, type)` |
| `ModuleDependencies.InMemoryModuleDependencyRepository.Delete` | spring-xd-dirt/src/main/java/org/springframework/xd/dirt/module/memory/InMemoryModuleDependencyRepository.java:54-56 | the whole new map: the target removed from the set under `keyFor(module, type)`, created empty if absent |
| `ModuleDependencies.InMemoryModuleDependencyRepository.FindDependents` | spring-xd-dirt/src/main/java/org/springframework/xd/dirt/module/memory/InMemoryModuleDependencyRepository.java:59-61 | returns the key's set (empty when never stored); the only side effect is the empty entry for that key |
| `ModuleDependencies.VivifyUnobservable` | spring-xd-dirt/src/main/java/org/springframework/xd/dirt/module/memory/InMemoryModuleDependencyRepository.java:38-45 | the entry a read creates changes the answer of no later read |
| `ModuleDependencies.FindNeverStored` | spring-xd-dirt/src/main/java/org/springframework/xd/dirt/module/memory/InMemoryModuleDependencyRepository.java:59-61 | a never-stored key reads as the empty set and the read only adds an empty entry for it |
| `ModuleDependencies.StoreThenFind` | spring-xd-dirt/src/main/java/org/springframework/xd/dirt/module/memory/InMemoryModuleDependencyRepository.java:49-51 | after store, the dependents are the earlier ones plus the target |
| `ModuleDependencies.StoreIdempotent` | spring-xd-dirt/src/main/java/org/springframework/xd/dirt/module/memory/InMemoryModuleDependencyRepository.java:49-51 | storing the same target twice gives the same map as storing it once |
| `ModuleDependencies.DeleteThenFind` | spring-xd-dirt/src/main/java/org/springframework/xd/dirt/module/memory/InMemoryModuleDependencyRepository.java:54-56 | after delete, the target is gone and every other dependent is kept |
| `ModuleDependencies.DeleteAbsentIsRead` | spring-xd-dirt/src/main/java/org/springframework/xd/dirt/module/memory/InMemoryModuleDependencyRepository.java:54-56 | deleting an absent target has only the effect of a read |
| `ModuleDependencies.OtherKeysUnchanged` | spring-xd-dirt/src/main/java/org/springframework/xd/dirt/module/memory/InMemoryModuleDependencyRepository.java:35-56 | store, delete and get on one key add or drop no other key and leave every other key's set unchanged |
| `ModuleDependencies.DeleteUndoesStore` | spring-xd-dirt/src/main/java/org/springframework/xd/dirt/module/memory/InMemoryModuleDependencyRepository.java:49-56 | deleting a target just stored (and absent before) restores the answer for every key |
| `ModuleDependencies.StoreAndDelete` | spring-xd-dirt/src/main/java/org/springframework/xd/dirt/module/memory/InMemoryModuleDependencyRepository.java:49-61 | through the class: a stored target is found, the answer under the same name with another type is left as it was, and after delete the target is gone with the rest kept |

## Left out

- `AstNode`, `ChannelType`, `StreamNode`, `ModuleNode`, `StreamLookupEnvironment`, `ModuleType`, `XDDSLMessages` and `StreamDefinitionException` are not part of this model. Only what the two classes observe of them is modelled (see above). The lexer and the parser that build channel nodes are not modelled either.
- `TAP_JOB` is not resolved. The source resolves only `TAP_STREAM`, and the model follows it, although a tap of a job could be expected to resolve the same way.
- After a numeric resolve, the indexing list keeps all its elements, not just one. The source replaces only element 0, and the model follows it.
- Resolution changes the node in place, as the source does. It does not build a new node.
- `JavaLang.ParseInt`: only ASCII digits are modelled. `Integer.parseInt` also accepts other Unicode decimal digits.
- `JavaLang.EqualsIgnoreCase`: only ASCII letters are case-folded. `String.equalsIgnoreCase` also folds other Unicode letters.
- Null arguments and null list elements are not modelled. Neither are the exceptions they would cause.
- Lists that refuse `remove` or `add` (`UnsupportedOperationException`) are not modelled. Every list is a mutable `ArrayList`.
- `ModuleDependencies.InMemoryModuleDependencyRepository.FindDependents`: the result is a snapshot of the set. In the source it is the live `HashSet`, so later `store`/`delete` calls show through it and a caller could change it.
- The repository's `HashMap` and `HashSet` are plain map and set values. Hashing, iteration order and thread safety are left out.
- `ModuleDependencies.TypeName`: a type name never contains `:`, because Java enum constant names are identifiers. The injectivity of keys depends on this.

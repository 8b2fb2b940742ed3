# temporary-path: a Dafny model of the file class mapper and the temporary-path facade

The PHP package `gidato/temporary-path` hands out uniquely named temporary
files and directories under a temporary directory. Each file is cast to a
"temporary" wrapper class that deletes the file when it goes out of scope.
The wrapper class is chosen by the `FileClassMapper`.

The model covers two parts of the package:

- **`FileClassMapper`** (`class_mapping.dfy`, module `ClassMapping`). This is a
  table from a filesystem file class to a wrapper class, held in a mutable
  object. It starts with two entries:
  - `Gidato\Filesystem\Model\JsonFile` maps to `Gidato\TemporaryPath\JsonFile`;
  - `Gidato\Filesystem\Model\File` maps to `Gidato\TemporaryPath\BasicFile`.

  `addMapping` and `replaceMapping` are guarded updates of the table, each
  with three checks in a fixed order. `map` walks up the parent classes of a
  file's class until one of them has an entry. The class
  `FileClassMapper` has an `entries: map<ClassName, ClassName>` field. Its
  methods are `AddMapping`, `ReplaceMapping` and `Map`, and `Map` is the
  `while` loop of the source. Each method is proved against a pure
  function: `Added`, `Replaced` and `ResolvedClass`/`Resolve`. The
  lemmas about the lookup are proved about those functions.
- **`Temporary`** (`temporary_path.dfy`, module `TemporaryPath`). A thin
  class with two fields set once: the temporary directory and the mapper. It
  keeps the mapper it is given or creates a default one. `Directory` names a
  new directory by a fresh token. `File` names a new file by a fresh token
  plus the normalised extension, and asks the mapper for its wrapper class.
  The extension normalisation, the name and the split of a name back into
  token and extension are pure functions.

PHP's class system is a value in the model (`classes.dfy`, module
`Classes`):

- `class_exists` is membership in `Hierarchy.known`;
- `get_parent_class` is the `Hierarchy.parent` map;
- the finite depth of every ancestry chain is witnessed by `Hierarchy.depth`,
  where a parent is always shallower than its child;
- a declared class is never named `""` or `"0"`.

PHP's `empty()` on a string is `PhpEmpty`: true for `""` and `"0"` only.
So `!empty($this->map[$c])` is `HasEntry`: the key is present and its
value is not PHP-empty. A consequence the model keeps and proves
(`ZeroExtension`) is that an extension of `"0"` counts as no extension at
all, while `".0"` is kept.

`scenarios.dfy` (module `Scenarios`) replays the repository's unit tests
against the model. It uses a small hierarchy holding the library's file
classes and the tests' own `ExcelFile`, `TemporaryExcelFile` and
`ConfigFile`. The parent chosen for `Model\JsonFile` and `Model\BasicFile`
(both `Model\File`) is illustrative, because the filesystem library is not
part of this model.

Facts about the code that shape the model:

- The mapper starts with two entries (`Model\File` and `Model\JsonFile`).
- Both `addMapping` and `replaceMapping` check in this order: the source
  class exists, then the target class exists, then the source class is (or
  is not) set up.
- `track()` and `dropSince()` are called by
  `tests/Unit/TemporaryTest.php:159-197`, but `src/Temporary.php` defines
  neither method and has no state for them.

## Model

| member | source | states |
|---|---|---|
| Classes.ParentOf | src/FileClassMapper.php:66 | `get_parent_class` gives a class exactly when the class has a parent; that parent is declared and strictly shallower, which is what makes the lookup loop terminate |
| Classes.IsAHasAncestorIndex | src/FileClassMapper.php:62-67 | a class that is a subclass of `base` has `base` at some position of its ancestry chain |
| Classes.AncestorIsA | src/FileClassMapper.php:62-67 | conversely, a class that appears on the ancestry chain is an ancestor (subclass relation, both directions with the lemma above) |
| Classes.IsADepth | src/FileClassMapper.php:65-67 | an ancestor is never deeper than its subclass, and an ancestor of equal depth is the class itself (no cycles) |
| ClassMapping.DefaultEntries | src/FileClassMapper.php:22-25 | a fresh table has exactly the keys `Model\File` and `Model\JsonFile`, mapped to `BasicFile` and `JsonFile`, and satisfies the mapper invariant |
| ClassMapping.Message | src/FileClassMapper.php:30-55 | every exception message is "Class ", then the offending class name, then " does not exist" for an unknown class, " already set up" for a class added twice, or " has not been set up" for a class replaced before it was added |
| ClassMapping.Added | src/FileClassMapper.php:27-42 | `addMapping` fails with "does not exist" for an unknown `from`, else for an unknown `to`, else with "already set up" when `from` has an entry; it succeeds in exactly the other case, then `from` maps to `to`, only `from` is added and all other entries are unchanged, and the invariant is kept |
| ClassMapping.Replaced | src/FileClassMapper.php:44-59 | `replaceMapping` fails with "does not exist" for an unknown `from`, else for an unknown `to`, else with "has not been set up" when `from` has no entry; on success the keys are unchanged, only `from`'s value changes to `to`, and the invariant (base file class mapped to a non-empty value) is kept |
| ClassMapping.ResolvedClass | src/FileClassMapper.php:62-69 | for every subclass of `Model\File`, the lookup stops at a class that has an entry, is the file's class or one of its ancestors, and is itself a `Model\File` class |
| ClassMapping.Resolve | src/FileClassMapper.php:62-69 | the lookup's answer is a value of the table and is never PHP-empty |
| ClassMapping.ResolvedIsNearest | src/FileClassMapper.php:64-67 | the class the lookup stops at is at some position n of the ancestry chain, and no class before position n has an entry |
| ClassMapping.NearestIsResolved | src/FileClassMapper.php:64-67 | conversely, the first class on the ancestry chain that has an entry is the class the lookup stops at |
| ClassMapping.FallbackToBase | src/FileClassMapper.php:24-69 | a file class with no mapped class on its chain below `Model\File` resolves to the `Model\File` entry |
| ClassMapping.SameKeysSameResolvedClass | src/FileClassMapper.php:65 | where the lookup stops depends only on which classes have entries, not on their values |
| ClassMapping.ReplaceRedirects | src/FileClassMapper.php:58-69 | after a successful `replaceMapping(from, to)`, a file class whose lookup stopped at `from` now resolves to `to`, and every other file class resolves as before |
| ClassMapping.AddRedirectsSubclasses | src/FileClassMapper.php:41-69 | after a successful `addMapping(from, to)`, a file class resolves to `to` exactly when it is `from` or a subclass of `from` and its old lookup stopped at an ancestor of `from`; every other lookup is unchanged |
| ClassMapping.FileClassMapper.constructor | src/FileClassMapper.php:22-25 | a new mapper holds the default table and satisfies the invariant |
| ClassMapping.FileClassMapper.AddMapping | src/FileClassMapper.php:27-42 | the field becomes the table `Added` gives and the call passes, or the call fails with `Added`'s error and the field is unchanged; the invariant is kept |
| ClassMapping.FileClassMapper.ReplaceMapping | src/FileClassMapper.php:44-59 | the field becomes the table `Replaced` gives and the call passes, or the call fails with `Replaced`'s error and the field is unchanged; the invariant is kept |
| ClassMapping.FileClassMapper.Map | src/FileClassMapper.php:62-70 | the parent-walking loop terminates for every `Model\File` class and returns the entry of the nearest mapped class (`Resolve`) |
| TemporaryPath.Child | src/Temporary.php:26-32 | an entry created in a directory has that directory as its parent and the given name as its base name |
| TemporaryPath.UuidIsPlainName | src/Temporary.php:26-32 | the text of a version 4 UUID is a non-empty token with no '.', the only property of the token that the naming relies on |
| TemporaryPath.LTrim | src/Temporary.php:31 | `ltrim` returns a suffix of its input, everything it removed is the trimmed character, and the result does not start with it |
| TemporaryPath.NormaliseExtension | src/Temporary.php:31 | a PHP-empty extension gives ""; any other gives '.', then the extension with its leading dots removed (only dots removed, none left at the front) |
| TemporaryPath.NormaliseIdempotent | src/Temporary.php:31 | normalising an already normalised extension changes nothing |
| TemporaryPath.LTrimLeadingDot | src/Temporary.php:31 | one leading '.' makes no difference to `ltrim` |
| TemporaryPath.LeadingDotIgnored | src/Temporary.php:31 | for a non-empty extension e, ".e" and "e" normalise to the same string |
| TemporaryPath.ZeroExtension | src/Temporary.php:31 | the extension "0" is PHP-empty and gives no extension, while ".0" gives ".0" |
| TemporaryPath.FileName | src/Temporary.php:31-32 | the generated name ends with the normalised extension, and is exactly the token when the extension is PHP-empty |
| TemporaryPath.FileNameRoundTrip | src/Temporary.php:32 | for a token without '.', the name splits at its first '.' back into the token and the normalised extension |
| TemporaryPath.NoExtensionNoDot | src/Temporary.php:31-32 | with no extension the generated name is non-empty and contains no '.' |
| TemporaryPath.Temporary.constructor | src/Temporary.php:13-17 | the facade keeps the temporary directory, keeps the very mapper object it is given, or creates a fresh default mapper when given none |
| TemporaryPath.Temporary.GetFileClassMapper | src/Temporary.php:19-22 | the accessor returns the mapper object the facade holds, the same instance that was given at construction |
| TemporaryPath.Temporary.Directory | src/Temporary.php:24-27 | a new directory sits directly in the temporary directory and is named by the non-empty token |
| TemporaryPath.Temporary.File | src/Temporary.php:29-35 | a new file sits directly in the temporary directory, its name splits into the token and the normalised extension, and its wrapper class is what the mapper resolves for the file class the filesystem picks for that name |
| Scenarios.TestHierarchy | tests/Unit/FileClassMapperTest.php:124-144 | the tests' classes form a well-formed hierarchy |
| Scenarios.DefaultResolution | tests/Unit/FileClassMapperTest.php:30-46 | with a fresh mapper, a basic file gets `BasicFile`, a JSON file gets `JsonFile`, and the unmapped `ExcelFile` gets `BasicFile` |
| Scenarios.InheritedClassNotSetUp | tests/Unit/FileClassMapperTest.php:117-121 | `ConfigFile`, an unmapped subclass of the JSON file class, gets `JsonFile` |
| Scenarios.AddNewMapping | tests/Unit/FileClassMapperTest.php:48-54 | mapping `ExcelFile` to `TemporaryExcelFile` succeeds and the lookup for `ExcelFile` then gives `TemporaryExcelFile` |
| Scenarios.AddMappingFailures | tests/Unit/FileClassMapperTest.php:56-78 | `addMapping` rejects the unknown source "unknown", the unknown target "unknown-to", and the already set up `Model\File` |
| Scenarios.DoesNotExistMessage | tests/Unit/FileClassMapperTest.php:60 | the message for an unknown class "unknown" is "Class unknown does not exist" |
| Scenarios.TargetDoesNotExistMessage | tests/Unit/FileClassMapperTest.php:68 | the message for an unknown target "unknown-to" is "Class unknown-to does not exist" |
| Scenarios.AlreadySetUpMessage | tests/Unit/FileClassMapperTest.php:76 | adding `Model\File` again fails with "Class Gidato\Filesystem\Model\File already set up" |
| Scenarios.NotSetUpMessage | tests/Unit/FileClassMapperTest.php:100 | replacing the never added `ExcelFile` fails with "Class Tests\Unit\ExcelFile has not been set up" |
| Scenarios.ReplaceMappingFailures | tests/Unit/FileClassMapperTest.php:80-102 | `replaceMapping` rejects the unknown source, the unknown target, and the never set up `ExcelFile` |
| Scenarios.ReplaceBaseMapping | tests/Unit/FileClassMapperTest.php:104-115 | replacing the `Model\File` entry succeeds and both a basic file and the unmapped `ExcelFile` then get the new wrapper |
| Scenarios.KindByExtension | tests/Unit/TemporaryTest.php:88-89 | the filesystem's choice of class, as the tests observe it, always gives a declared `Model\File` class |
| Scenarios.PlainExtensions | tests/Unit/TemporaryTest.php:76-88 | "txt" normalises to ".txt" and "json" to ".json" |
| Scenarios.TxtFileName | tests/Unit/TemporaryTest.php:76-80 | `file("txt")` gives a name ending in ".txt" |
| Scenarios.DotTxtFileName | tests/Unit/TemporaryTest.php:82-86 | `file(".txt")` gives a name ending in ".txt" |
| Scenarios.JsonFileName | tests/Unit/TemporaryTest.php:88-92 | `file(".json")` gives a name ending in ".json" |
| Scenarios.PlainTokenIsBasicFile | tests/Unit/TemporaryTest.php:65-72 | a name without '.' is not a ".json" name, so with a fresh mapper it gets `BasicFile` |
| Scenarios.InitialisingWithClassMapper | tests/Unit/TemporaryTest.php:152-157 | a facade built with a mapper returns that same mapper, which holds the default table |
| Scenarios.NewDirectory | tests/Unit/TemporaryTest.php:28-34 | a new directory is `/test/temp/<token>` |
| Scenarios.NewFileNoExtension | tests/Unit/TemporaryTest.php:65-72 | a file without extension is `/test/temp/<token>`, its name has no '.', and it gets `BasicFile` |
| Scenarios.NewJsonFile | tests/Unit/TemporaryTest.php:88-92 | a `.json` file sits directly in `/test/temp`, its name ends in ".json", and it gets `JsonFile` |

## Left out

- `track()` and `dropSince()` are called by `tests/Unit/TemporaryTest.php:159-197`, but `src/Temporary.php` defines neither of them and has no state they could use. There is nothing in the code to model.
- `drop()` and `__destruct()` of `BasicFile`, `JsonFile` and `Directory` are each one call to the filesystem library's recursive delete. When a destructor runs is a matter for the PHP runtime, so neither is modelled.
- `castFrom` and the `Gidato\Filesystem` model are not part of this model. They cover paths, `file`/`directory` child construction and the in-memory filesystem. A path is a list of segments, and `Child` is the only operation on it. The class the library picks for a file name is a parameter of `Temporary.File` (`kindOf`). A returned wrapper is its path plus the wrapper class name.
- UUID generation (`Uuid::Uuid4`) is random. The token is a parameter of `Directory` and `File`, required only to be non-empty and free of '.' (`IsPlainToken`); `UuidIsPlainName` shows that every version 4 UUID text (`IsUuid4`) is such a token. Collision-freedom is not modelled.
- PHP reflection (`class_exists`, `get_class`, `get_parent_class`) is replaced by the `Hierarchy` value. The file's concrete class is passed to `Map` directly.
- ClassMapping.FileClassMapper.Map: requires the file class to be a declared subclass of `Model\File`, which is what the PHP type hint `File $file` guarantees. A non-`File` argument would be a PHP type error and is not modelled.
- TemporaryPath.Child: the whole generated name is one path segment. A '/' in the extension would stay inside that segment here; whether the filesystem library splits such a name is outside this model.

/**
 * The situations the repository's unit tests set up, replayed against the
 * model: a small class hierarchy with the library's file classes and the
 * tests' own `ExcelFile`, `TemporaryExcelFile` and `ConfigFile`.
 */
module Scenarios {
  import opened Wrappers
  import opened Classes
  import opened ClassMapping
  import opened TemporaryPath

  const ModelBasicFile: ClassName := "Gidato\\Filesystem\\Model\\BasicFile"
  const ExcelFile: ClassName := "Tests\\Unit\\ExcelFile"
  const TemporaryExcelFile: ClassName := "Tests\\Unit\\TemporaryExcelFile"
  const ConfigFile: ClassName := "Tests\\Unit\\ConfigFile"

  /** The classes the tests declare or load, with their parents. */
  function TestHierarchy(): (h: Hierarchy)
    ensures WellFormed(h)
  {
    Hierarchy(
      {ModelFile, ModelBasicFile, ModelJsonFile, BasicFile, JsonFile, ExcelFile, TemporaryExcelFile, ConfigFile},
      map[ModelBasicFile := ModelFile, ModelJsonFile := ModelFile,
          BasicFile := ModelBasicFile, JsonFile := ModelJsonFile,
          ExcelFile := ModelFile, TemporaryExcelFile := ExcelFile, ConfigFile := ModelJsonFile],
      map[ModelFile := 0, ModelBasicFile := 1, ModelJsonFile := 1, ExcelFile := 1,
          BasicFile := 2, JsonFile := 2, TemporaryExcelFile := 2, ConfigFile := 2])
  }

  /** A fresh mapper sends plain, JSON and unknown file classes to the expected wrappers. */
  lemma DefaultResolution()
    ensures Resolve(TestHierarchy(), DefaultEntries(), ModelBasicFile) == BasicFile
    ensures Resolve(TestHierarchy(), DefaultEntries(), ModelJsonFile) == JsonFile
    ensures Resolve(TestHierarchy(), DefaultEntries(), ExcelFile) == BasicFile
  {
    var m := DefaultEntries();
    assert !HasEntry(m, ModelBasicFile) && !HasEntry(m, ExcelFile);
  }

  /** A subclass of the JSON file class with no entry of its own gets the JSON wrapper. */
  lemma InheritedClassNotSetUp()
    ensures Resolve(TestHierarchy(), DefaultEntries(), ConfigFile) == JsonFile
  {
    assert !HasEntry(DefaultEntries(), ConfigFile);
  }

  /** `addMapping` of a new file class: `map` then uses the new entry. */
  lemma AddNewMapping()
    ensures Added(TestHierarchy(), DefaultEntries(), ExcelFile, TemporaryExcelFile).Success?
    ensures Resolve(TestHierarchy(), Added(TestHierarchy(), DefaultEntries(), ExcelFile, TemporaryExcelFile).value, ExcelFile)
            == TemporaryExcelFile
  {
    assert !HasEntry(DefaultEntries(), ExcelFile);
  }

  /** `addMapping` rejects an unknown source class, then an unknown target class, then a class already set up. */
  lemma AddMappingFailures()
    ensures Added(TestHierarchy(), DefaultEntries(), "unknown", TemporaryExcelFile) == Failure(DoesNotExist("unknown"))
    ensures Added(TestHierarchy(), DefaultEntries(), ExcelFile, "unknown-to") == Failure(DoesNotExist("unknown-to"))
    ensures Added(TestHierarchy(), DefaultEntries(), ModelFile, BasicFile) == Failure(AlreadySetUp(ModelFile))
  {
    assert "unknown" !in TestHierarchy().known;
    assert "unknown-to" !in TestHierarchy().known;
  }

  /** The exception messages the tests expect. */
  lemma DoesNotExistMessage()
    ensures Message(DoesNotExist("unknown")) == "Class unknown does not exist"
  {
  }

  lemma TargetDoesNotExistMessage()
    ensures Message(DoesNotExist("unknown-to")) == "Class unknown-to does not exist"
  {
  }

  // The expected texts are written as three literals each, which spell the same strings as the tests.
  lemma AlreadySetUpMessage()
    ensures Message(AlreadySetUp(ModelFile)) == "Class " + "Gidato\\Filesystem\\Model\\File" + " already set up"
  {
  }

  lemma NotSetUpMessage()
    ensures Message(NotSetUp(ExcelFile)) == "Class " + "Tests\\Unit\\ExcelFile" + " has not been set up"
  {
  }

  /** `replaceMapping` rejects an unknown source class, then an unknown target class, then a class not set up. */
  lemma ReplaceMappingFailures()
    ensures Replaced(TestHierarchy(), DefaultEntries(), "unknown", TemporaryExcelFile) == Failure(DoesNotExist("unknown"))
    ensures Replaced(TestHierarchy(), DefaultEntries(), ExcelFile, "unknown-to") == Failure(DoesNotExist("unknown-to"))
    ensures Replaced(TestHierarchy(), DefaultEntries(), ExcelFile, TemporaryExcelFile) == Failure(NotSetUp(ExcelFile))
  {
    assert "unknown" !in TestHierarchy().known;
    assert "unknown-to" !in TestHierarchy().known;
    assert !HasEntry(DefaultEntries(), ExcelFile);
  }

  /** Replacing the base entry redirects every file class that has no entry of its own. */
  lemma ReplaceBaseMapping()
    ensures Replaced(TestHierarchy(), DefaultEntries(), ModelFile, TemporaryExcelFile).Success?
    ensures Resolve(TestHierarchy(), Replaced(TestHierarchy(), DefaultEntries(), ModelFile, TemporaryExcelFile).value, ModelBasicFile)
            == TemporaryExcelFile
    ensures Resolve(TestHierarchy(), Replaced(TestHierarchy(), DefaultEntries(), ModelFile, TemporaryExcelFile).value, ExcelFile)
            == TemporaryExcelFile
  {
    var h, m := TestHierarchy(), DefaultEntries();
    DefaultResolution();
    ReplaceRedirects(h, m, ModelFile, TemporaryExcelFile, ModelBasicFile);
    ReplaceRedirects(h, m, ModelFile, TemporaryExcelFile, ExcelFile);
  }

  /** The filesystem library's choice of file class by name, as the tests observe it: `.json` names are JSON files. */
  function KindByExtension(name: string): (c: ClassName)
    ensures c in TestHierarchy().known && IsA(TestHierarchy(), c, ModelFile)
  {
    if EndsWith(name, ".json") then ModelJsonFile else ModelBasicFile
  }

  lemma PlainExtensions()
    ensures NormaliseExtension("txt") == ".txt"
    ensures NormaliseExtension("json") == ".json"
  {
    assert !PhpEmpty("txt") && !PhpEmpty("json");
    assert LTrim("txt", '.') == "txt";
    assert LTrim("json", '.') == "json";
  }

  /** Generated names end in the requested extension, however it was written. */
  lemma TxtFileName(token: string)
    ensures EndsWith(FileName(token, "txt"), ".txt")
  {
    PlainExtensions();
  }

  lemma DotTxtFileName(token: string)
    ensures EndsWith(FileName(token, ".txt"), ".txt")
  {
    PlainExtensions();
    var txt: string := "txt";
    assert ".txt" == "." + txt;
    LeadingDotIgnored(txt);
  }

  lemma JsonFileName(token: string)
    ensures EndsWith(FileName(token, ".json"), ".json")
  {
    PlainExtensions();
    var json: string := "json";
    assert ".json" == "." + json;
    LeadingDotIgnored(json);
  }

  /** A facade over `/test/temp` built with a mapper of the test's own, which it keeps. */
  method InitialisingWithClassMapper() returns (temporary: Temporary, mapper: FileClassMapper)
    ensures temporary.GetFileClassMapper() == mapper && temporary.tempdir == Path(["test", "temp"])
    ensures mapper.entries == DefaultEntries() && mapper.Valid()
  {
    mapper := new FileClassMapper();
    temporary := new Temporary(Path(["test", "temp"]), mapper);
  }

  /** A new directory sits directly in `/test/temp` and has a non-empty name. */
  method NewDirectory(token: string) returns (directory: TemporaryDirectory)
    requires IsUuid4(token)
    ensures directory.path == Path(["test", "temp", token]) && |token| > 0
  {
    UuidIsPlainName(token);
    var temporary := new Temporary(Path(["test", "temp"]), null);
    directory := temporary.Directory(token);
  }

  /** A `.json` file sits directly in `/test/temp`, its name ends in ".json" and it gets the JSON wrapper. */
  method NewJsonFile(token: string) returns (json: TemporaryFile)
    requires IsUuid4(token)
    ensures json.path.segments != [] && ParentDir(json.path) == Path(["test", "temp"])
    ensures EndsWith(BaseName(json.path), ".json") && json.wrapperClass == JsonFile
  {
    UuidIsPlainName(token);
    var temporary := new Temporary(Path(["test", "temp"]), null);
    JsonFileName(token);
    json := temporary.File(TestHierarchy(), token, ".json", KindByExtension);
    DefaultResolution();
  }

  /** A file without extension sits directly in `/test/temp`, has no '.' in its name and gets the basic wrapper. */
  method NewFileNoExtension(token: string) returns (plain: TemporaryFile)
    requires IsUuid4(token)
    ensures plain.path == Path(["test", "temp", token]) && '.' !in BaseName(plain.path)
    ensures plain.wrapperClass == BasicFile
  {
    UuidIsPlainName(token);
    var temporary := new Temporary(Path(["test", "temp"]), null);
    PlainTokenIsBasicFile(token);
    plain := temporary.File(TestHierarchy(), token, "", KindByExtension);
  }

  /** A name without '.' is not a `.json` name, so the library gives it the basic file class. */
  lemma PlainTokenIsBasicFile(token: string)
    requires IsPlainToken(token)
    ensures FileName(token, "") == token
    ensures KindByExtension(token) == ModelBasicFile
    ensures Resolve(TestHierarchy(), DefaultEntries(), KindByExtension(token)) == BasicFile
  {
    if |token| >= 5 {
      assert token[|token| - 5..][0] == token[|token| - 5] != '.';
    }
    DefaultResolution();
  }
}

/**
 * The temporary-path facade: generates uniquely named files and directories
 * directly under a temporary directory and picks each file's wrapper class
 * through the file class mapper.
 */
module TemporaryPath {
  import opened Classes
  import opened ClassMapping

  /** A path in the external filesystem library, as the list of its segments. */
  datatype Path = Path(segments: seq<string>)

  /** The entry called `name` inside directory `dir` (`$dir->file($name)`, `$dir->directory($name)`). */
  function Child(dir: Path, name: string): (p: Path)
    ensures p.segments != [] && ParentDir(p) == dir && BaseName(p) == name
  {
    Path(dir.segments + [name])
  }

  /** The directory that contains `p`. */
  function ParentDir(p: Path): Path
    requires p.segments != []
  {
    Path(p.segments[..|p.segments| - 1])
  }

  /** The last segment of `p`, its file or directory name. */
  function BaseName(p: Path): string
    requires p.segments != []
  {
    p.segments[|p.segments| - 1]
  }

  predicate IsHexDigit(ch: char)
  {
    '0' <= ch <= '9' || 'a' <= ch <= 'f'
  }

  /** The text form of a version 4 UUID, as the generator produces it: 8-4-4-4-12 lower-case hex digits. */
  predicate IsUuid4(t: string)
  {
    |t| == 36 &&
    (forall i :: 0 <= i < |t| ==> if i in {8, 13, 18, 23} then t[i] == '-' else IsHexDigit(t[i])) &&
    t[14] == '4' && t[19] in "89ab"
  }

  /** What the naming relies on in a generated token: it is non-empty and holds no '.'. */
  predicate IsPlainToken(t: string)
  {
    |t| > 0 && '.' !in t
  }

  /** Every version 4 UUID text is such a token. */
  lemma UuidIsPlainName(t: string)
    requires IsUuid4(t)
    ensures IsPlainToken(t)
  {
  }

  /** PHP's `ltrim($s, $ch)` for a single character: drops every leading `ch`. */
  function LTrim(s: string, ch: char): (r: string)
    ensures |r| <= |s| && r == s[|s| - |r|..]
    ensures forall i :: 0 <= i < |s| - |r| ==> s[i] == ch
    ensures r == [] || r[0] != ch
  {
    if s != [] && s[0] == ch then LTrim(s[1..], ch) else s
  }

  /**
   * The extension as `file` appends it: nothing for a PHP-empty extension
   * ("" or "0"), otherwise one '.' followed by the extension without its
   * leading dots.
   */
  function NormaliseExtension(extension: string): (r: string)
    ensures PhpEmpty(extension) ==> r == ""
    ensures !PhpEmpty(extension) ==>
              1 <= |r| <= |extension| + 1 && r[0] == '.' && (|r| == 1 || r[1] != '.') &&
              extension == extension[..|extension| - (|r| - 1)] + r[1..] &&
              forall i :: 0 <= i < |extension| - (|r| - 1) ==> extension[i] == '.'
  {
    if PhpEmpty(extension) then "" else "." + LTrim(extension, '.')
  }

  /** Normalising a normalised extension changes nothing. */
  lemma NormaliseIdempotent(extension: string)
    ensures NormaliseExtension(NormaliseExtension(extension)) == NormaliseExtension(extension)
  {
    var r := NormaliseExtension(extension);
    if r != "" {
      assert r == "." + r[1..];
      assert LTrim(r, '.') == LTrim(r[1..], '.');
    }
  }

  lemma LTrimLeadingDot(rest: string)
    ensures LTrim("." + rest, '.') == LTrim(rest, '.')
  {
    assert ("." + rest)[1..] == rest;
  }

  /** A leading dot does not matter: `file("txt")` and `file(".txt")` get the same extension. */
  lemma LeadingDotIgnored(extension: string)
    requires !PhpEmpty(extension)
    ensures NormaliseExtension("." + extension) == NormaliseExtension(extension)
  {
    assert ("." + extension)[0] == '.';
    LTrimLeadingDot(extension);
  }

  /** PHP's `empty("0")` makes "0" mean "no extension", while ".0" keeps it. */
  lemma ZeroExtension()
    ensures NormaliseExtension("0") == ""
    ensures NormaliseExtension(".0") == ".0"
  {
    var zero: string := "0";
    assert ".0" == "." + zero;
    assert zero[0] != '.';
    LTrimLeadingDot(zero);
  }

  /** `name` ends with `suffix`. */
  predicate EndsWith(name: string, suffix: string)
  {
    |suffix| <= |name| && name[|name| - |suffix|..] == suffix
  }

  /** The name `file` generates: the token followed by the normalised extension. */
  function FileName(token: string, extension: string): (name: string)
    ensures |name| == |token| + |NormaliseExtension(extension)|
    ensures EndsWith(name, NormaliseExtension(extension))
    ensures PhpEmpty(extension) ==> name == token
  {
    token + NormaliseExtension(extension)
  }

  /** The index of the first '.' in `s`, or `|s|` if there is none. */
  function FirstDot(s: string): (i: nat)
    ensures i <= |s|
    ensures forall j :: 0 <= j < i ==> s[j] != '.'
    ensures i < |s| ==> s[i] == '.'
  {
    if s == [] || s[0] == '.' then 0 else 1 + FirstDot(s[1..])
  }

  /** The part of a name before its first '.'. */
  function TokenOf(name: string): string
  {
    name[..FirstDot(name)]
  }

  /** The part of a name from its first '.' on. */
  function ExtensionOf(name: string): string
  {
    name[FirstDot(name)..]
  }

  /** A generated name splits back into its token and its normalised extension. */
  lemma FileNameRoundTrip(token: string, extension: string)
    requires '.' !in token
    ensures TokenOf(FileName(token, extension)) == token
    ensures ExtensionOf(FileName(token, extension)) == NormaliseExtension(extension)
  {
  }

  /** Without an extension the generated name is just the token, so it holds no '.'. */
  lemma NoExtensionNoDot(token: string, extension: string)
    requires IsPlainToken(token) && PhpEmpty(extension)
    ensures |FileName(token, extension)| > 0 && '.' !in FileName(token, extension)
  {
  }

  /** A generated file: where it lives and the wrapper class it is cast to. */
  datatype TemporaryFile = TemporaryFile(path: Path, wrapperClass: ClassName)

  /** A generated directory, cast to the temporary directory wrapper. */
  datatype TemporaryDirectory = TemporaryDirectory(path: Path)

  /** The facade: a temporary directory and the mapper it consults, both fixed at construction. */
  class Temporary {
    const tempdir: Path
    const classMapper: FileClassMapper

    /** Keeps the given mapper, or creates a default one when none is given. */
    constructor(tempdir: Path, mapper: FileClassMapper?)
      requires mapper != null ==> mapper.Valid()
      ensures this.tempdir == tempdir && classMapper.Valid()
      ensures mapper != null ==> classMapper == mapper
      ensures mapper == null ==> fresh(classMapper) && classMapper.entries == DefaultEntries()
    {
      this.tempdir := tempdir;
      if mapper == null {
        this.classMapper := new FileClassMapper();
      } else {
        this.classMapper := mapper;
      }
    }

    /** The mapper in use: the very object given at construction, if one was. */
    function GetFileClassMapper(): (m: FileClassMapper)
      ensures m == classMapper
    {
      classMapper
    }

    /** A new directory named by `token`, directly inside the temporary directory; not created on disk. */
    method Directory(token: string) returns (d: TemporaryDirectory)
      requires IsPlainToken(token)
      ensures d.path.segments != [] && ParentDir(d.path) == tempdir
      ensures BaseName(d.path) == token && |BaseName(d.path)| > 0
    {
      d := TemporaryDirectory(Child(tempdir, token));
    }

    /**
     * A new file named by `token` and the normalised `extension`, directly
     * inside the temporary directory, cast to the wrapper class the mapper
     * gives for the class the filesystem library (`kindOf`) picks for that name.
     */
    method File(h: Hierarchy, token: string, extension: string, kindOf: string -> ClassName) returns (f: TemporaryFile)
      requires IsPlainToken(token) && WellFormed(h) && classMapper.Valid()
      requires kindOf(FileName(token, extension)) in h.known && IsA(h, kindOf(FileName(token, extension)), ModelFile)
      ensures f.path.segments != [] && ParentDir(f.path) == tempdir
      ensures BaseName(f.path) == FileName(token, extension)
      ensures TokenOf(BaseName(f.path)) == token && ExtensionOf(BaseName(f.path)) == NormaliseExtension(extension)
      ensures f.wrapperClass == Resolve(h, classMapper.entries, kindOf(BaseName(f.path)))
    {
      var ext := NormaliseExtension(extension);
      var file := Child(tempdir, token + ext);
      var fileClass := kindOf(BaseName(file));
      var wrapper := classMapper.Map(h, fileClass);
      f := TemporaryFile(file, wrapper);
      FileNameRoundTrip(token, extension);
    }
  }
}

/**
 * The `library_filename` helper of the C++ dataflow example's build script:
 * the platform's shared-library prefix, then the library name, then the
 * platform's shared-library suffix.
 */
module LibraryName {
  import opened Wrappers

  /** The targets the build script is compiled for. */
  datatype Platform = Linux | MacOs | Windows

  /** `std::env::consts::DLL_PREFIX` of each platform. */
  function DllPrefix(p: Platform): string {
    match p
    case Linux => "lib"
    case MacOs => "lib"
    case Windows => ""
  }

  /** `std::env::consts::DLL_SUFFIX` of each platform. */
  function DllSuffix(p: Platform): string {
    match p
    case Linux => ".so"
    case MacOs => ".dylib"
    case Windows => ".dll"
  }

  /**
   * The inverse direction: the library name a file name stands for, if the
   * file name has the platform's prefix and suffix around it.
   */
  function LibraryStem(file: string, p: Platform): (stem: Option<string>)
    ensures stem.Some? ==> DllPrefix(p) + stem.value + DllSuffix(p) == file
  {
    var pre, suf := DllPrefix(p), DllSuffix(p);
    if |pre| + |suf| <= |file| && file[..|pre|] == pre && file[|file| - |suf|..] == suf then
      var stem := file[|pre|..|file| - |suf|];
      assert file == file[..|pre|] + stem + file[|file| - |suf|..];
      Some(stem)
    else
      None
  }

  /**
   * Builds the file name by three successive pushes onto a buffer that is
   * sized up front for the three parts.
   */
  method LibraryFilename(name: string, p: Platform) returns (file: string)
    ensures |file| == |name| + |DllPrefix(p)| + |DllSuffix(p)|
    ensures file[..|DllPrefix(p)|] == DllPrefix(p)
    ensures file[|DllPrefix(p)|..|DllPrefix(p)| + |name|] == name
    ensures file[|file| - |DllSuffix(p)|..] == DllSuffix(p)
    ensures LibraryStem(file, p) == Some(name)
  {
    var capacity := |name| + |DllPrefix(p)| + |DllSuffix(p)|;
    file := [];
    file := file + DllPrefix(p);
    file := file + name;
    file := file + DllSuffix(p);
    assert |file| == capacity;
    assert file[..|DllPrefix(p)|] == DllPrefix(p);
    assert file[|DllPrefix(p)|..|DllPrefix(p)| + |name|] == name;
    assert file[|file| - |DllSuffix(p)|..] == DllSuffix(p);
  }

  /** Distinct names give distinct library file names on every platform. */
  lemma LibraryStemInjective(a: string, b: string, p: Platform)
    requires DllPrefix(p) + a + DllSuffix(p) == DllPrefix(p) + b + DllSuffix(p)
    ensures a == b
  {
    var pre, suf := DllPrefix(p), DllSuffix(p);
    var f := pre + a + suf;
    assert a == f[|pre|..|f| - |suf|];
    assert b == f[|pre|..|f| - |suf|];
  }
}

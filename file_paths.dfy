/**
 * The file-name helpers of the base `ml` object: extracting the extension of a
 * path, deriving the `.data` and `.model` paths from a user-supplied path, and
 * the empty-path check used by `write` and `read`.
 */
module FilePaths {
  import opened Optional

  /** The extension of persisted trained models. */
  const ModelExtension: string := ".model"
  /** The extension of persisted training data. */
  const DataExtension: string := ".data"
  /** The directory separators searched for. */
  const Separators: set<char> := {'/', '\\'}

  /** No character of `s` belongs to `chars`. */
  predicate NoneOf(s: string, chars: set<char>) {
    forall i :: 0 <= i < |s| ==> s[i] !in chars
  }

  /** `r` is a (possibly empty) trailing part of `s`. */
  predicate IsSuffix(r: string, s: string) {
    |r| <= |s| && r == s[|s| - |r|..]
  }

  /** The position of the last character of `s` that belongs to `chars`, if any (`find_last_of`). */
  function FindLastOf(s: string, chars: set<char>): (r: Option<nat>)
    ensures r.None? <==> NoneOf(s, chars)
    ensures r.Some? ==> r.value < |s| && s[r.value] in chars
    ensures r.Some? ==> forall i :: r.value < i < |s| ==> s[i] !in chars
  {
    if s == [] then None
    else if s[|s| - 1] in chars then
      Some(|s| - 1)
    else
      var r := FindLastOf(s[..|s| - 1], chars);
      r
  }

  /** The facts FindLastOf promises determine its result. */
  lemma {:induction false} FindLastOfUnique(s: string, chars: set<char>, k: nat)
    requires k < |s| && s[k] in chars
    requires forall i :: k < i < |s| ==> s[i] !in chars
    ensures FindLastOf(s, chars) == Some(k)
  {
  }

  /** Appending text whose last member of `chars` is at `k` puts the last member there. */
  lemma {:induction false} FindLastOfAppendFound(s: string, t: string, chars: set<char>)
    requires FindLastOf(t, chars).Some?
    ensures FindLastOf(s + t, chars) == Some(|s| + FindLastOf(t, chars).value)
  {
    var k := FindLastOf(t, chars).value;
    assert (s + t)[|s| + k] == t[k];
    FindLastOfUnique(s + t, chars, |s| + k);
  }

  /** Appending text with no member of `chars` leaves the last member where it was. */
  lemma {:induction false} FindLastOfAppendNone(s: string, t: string, chars: set<char>)
    requires NoneOf(t, chars) && FindLastOf(s, chars).Some?
    ensures FindLastOf(s + t, chars) == FindLastOf(s, chars)
  {
    var k := FindLastOf(s, chars).value;
    assert (s + t)[k] == s[k];
    FindLastOfUnique(s + t, chars, k);
  }

  /** The part of `path` after its last separator (all of it when there is none). */
  function Basename(path: string): (b: string)
    ensures IsSuffix(b, path) && NoneOf(b, Separators)
  {
    match FindLastOf(path, Separators)
    case None => path
    case Some(sep) => path[sep + 1..]
  }

  /** The base name is the longest separator-free suffix: it is the whole path or follows a separator. */
  lemma {:induction false} BasenameFollowsSeparator(path: string)
    ensures |Basename(path)| == |path| || path[|path| - |Basename(path)| - 1] in Separators
  {
  }

  /** The text of `name` from its last `.` on; empty when `name` has no `.`. */
  function DotSuffix(name: string): (e: string)
    ensures e == [] <==> NoneOf(name, {'.'})
    ensures e == [] || e[0] == '.'
    ensures forall i :: 1 <= i < |e| ==> e[i] != '.'
    ensures IsSuffix(e, name)
  {
    match FindLastOf(name, {'.'})
    case None => []
    case Some(dot) => name[dot..]
  }

  /**
   * `get_file_extension_from_path`: the text of the base name from its last
   * `.` on, where a lone trailing `.` counts as no extension.
   */
  function FileExtension(path: string): (r: string)
    ensures r == [] || (|r| >= 2 && r[0] == '.')
    ensures forall i :: 1 <= i < |r| ==> r[i] != '.'
    ensures IsSuffix(r, path) && NoneOf(r, Separators)
  {
    var base := Basename(path);
    var extension := DotSuffix(base);
    assert IsSuffix(extension, path) by {
      assert path[|path| - |base|..][|base| - |extension|..] == path[|path| - |extension|..];
    }
    if extension == "." then [] else extension
  }

  /** The extension is empty exactly when the base name has no `.` or the path ends in `.`. */
  lemma {:induction false} FileExtensionEmptyIff(path: string)
    ensures FileExtension(path) == [] <==>
      NoneOf(Basename(path), {'.'}) || (|path| > 0 && path[|path| - 1] == '.')
  {
    var base := Basename(path);
    if |path| > 0 && path[|path| - 1] == '.' {
      assert path[|path| - 1] !in Separators;
      assert base != [] && base[|base| - 1] == '.';
      FindLastOfUnique(base, {'.'}, |base| - 1);
    }
  }

  /** Only the base name is searched: dots in directory components never matter. */
  lemma {:induction false} DirectoryDotsIgnored(dir: string, sep: char, name: string)
    requires sep in Separators
    ensures Basename(dir + [sep] + name) == Basename(name)
    ensures FileExtension(dir + [sep] + name) == FileExtension(name)
  {
    var p := dir + [sep] + name;
    match FindLastOf(name, Separators)
    case Some(k) =>
      FindLastOfAppendFound(dir + [sep], name, Separators);
      assert p[|dir| + 1 + k + 1..] == name[k + 1..];
    case None =>
      assert p[|dir|] == sep && p[|dir| + 1..] == name;
      FindLastOfUnique(p, Separators, |dir|);
  }

  /** Appending separator-free text extends the base name by that text. */
  lemma {:induction false} BasenameOfAppended(path: string, tail: string)
    requires NoneOf(tail, Separators)
    ensures Basename(path + tail) == Basename(path) + tail
  {
    var p := path + tail;
    match FindLastOf(path, Separators)
    case Some(k) =>
      FindLastOfAppendNone(path, tail, Separators);
      assert p[k + 1..] == path[k + 1..] + tail;
    case None =>
      assert NoneOf(p, Separators) by {
        forall j | 0 <= j < |p| ensures p[j] !in Separators {
          if j < |path| {
            assert p[j] == path[j];
          } else {
            assert p[j] == tail[j - |path|];
          }
        }
      }
  }

  /** A tail whose only `.` is its first character is the dot suffix of any name it ends. */
  lemma {:induction false} DotSuffixOfAppended(name: string, ext: string)
    requires |ext| > 0 && ext[0] == '.'
    requires forall i :: 1 <= i < |ext| ==> ext[i] != '.'
    ensures DotSuffix(name + ext) == ext
  {
    FindLastOfUnique(ext, {'.'}, 0);
    FindLastOfAppendFound(name, ext, {'.'});
    assert (name + ext)[|name|..] == ext;
  }

  /** A well-formed extension appended to any path becomes that path's extension. */
  lemma {:induction false} ExtensionOfAppended(path: string, ext: string)
    requires |ext| >= 2 && ext[0] == '.' && NoneOf(ext, Separators)
    requires forall i :: 1 <= i < |ext| ==> ext[i] != '.'
    ensures FileExtension(path + ext) == ext
  {
    BasenameOfAppended(path, ext);
    DotSuffixOfAppended(Basename(path), ext);
    assert ext != ".";
  }

  lemma {:induction false} DataExtensionOfAppended(path: string)
    ensures FileExtension(path + DataExtension) == DataExtension
  {
    ExtensionOfAppended(path, DataExtension);
  }

  lemma {:induction false} ModelExtensionOfAppended(path: string)
    ensures FileExtension(path + ModelExtension) == ModelExtension
  {
    ExtensionOfAppended(path, ModelExtension);
  }

  /**
   * `get_data_file_paths`: the `.data` and `.model` paths for a supplied path.
   * `dataPath` and `modelPath` are the caller's current values; the one an
   * explicit extension does not select is handed back unchanged.
   */
  function DataFilePaths(supplied: string, dataPath: string, modelPath: string): (r: (string, string))
    ensures FileExtension(supplied) == ModelExtension ==> r == (dataPath, supplied)
    ensures FileExtension(supplied) == DataExtension ==> r == (supplied, modelPath)
    ensures FileExtension(supplied) != ModelExtension && FileExtension(supplied) != DataExtension ==>
      r == (supplied + DataExtension, supplied + ModelExtension)
  {
    var extension := FileExtension(supplied);
    if extension == ModelExtension then (dataPath, supplied)
    else if extension == DataExtension then (supplied, modelPath)
    else (supplied + DataExtension, supplied + ModelExtension)
  }

  /** Each path derived from an unrecognised path carries its own extension, so deriving again selects it alone. */
  lemma {:induction false} DerivedPathsAreStable(supplied: string, d: string, m: string)
    requires FileExtension(supplied) != ModelExtension && FileExtension(supplied) != DataExtension
    ensures var (dataPath, modelPath) := DataFilePaths(supplied, "", "");
      DataFilePaths(dataPath, d, m) == (dataPath, m) &&
      DataFilePaths(modelPath, d, m) == (d, modelPath)
  {
    DataExtensionOfAppended(supplied);
    ModelExtensionOfAppended(supplied);
  }

  /** `check_empty_with_error`: true exactly when the path is empty (the console message is not modelled). */
  function CheckEmpty(path: string): (empty: bool)
    ensures empty <==> |path| == 0
  {
    path == []
  }
}

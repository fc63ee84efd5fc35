/** Turning the absolute path a diagnostic names into a project resource path
    ("/dir/file.luax"), or into nothing when the file lies outside the source
    directory.

    Canonicalisation (`File.getCanonicalPath`, which resolves ".", ".." and
    symbolic links and may throw an IOException) is host I/O: its results come
    in as `Option`s, `None` standing for the exception. */
module ResourcePaths {
  import opened Wrappers
  import opened Text

  /** The resource path of a file, as the code computes it: a plain string-prefix
      test of the canonical file path against the canonical source directory,
      then "/" followed by the rest of the file path with every platform
      separator turned into '/'. */
  function ToResourcePath(sourceCanonical: Option<string>, fileCanonical: Option<string>, separator: char)
    : (r: Option<string>)
    ensures r.Some? <==>
      sourceCanonical.Some? && fileCanonical.Some? && StartsWith(fileCanonical.value, sourceCanonical.value)
    ensures r.Some? ==> |r.value| == |fileCanonical.value| - |sourceCanonical.value| + 1 && r.value[0] == '/'
    ensures r.Some? && separator != '/' ==> separator !in r.value
  {
    match (sourceCanonical, fileCanonical)
    case (Some(src), Some(file)) =>
      if StartsWith(file, src) then Some("/" + Replace(file[|src|..], separator, '/')) else None
    case _ => None
  }

  /** Replacing separators by '/' and back restores a string without '/' of its own. */
  lemma ReplaceBack(s: string, separator: char)
    requires separator == '/' || '/' !in s
    ensures Replace(Replace(s, separator, '/'), '/', separator) == s
  {
  }

  /** The as-written mapping loses nothing: the source directory followed by the
      resource path (minus its leading '/', with '/' turned back into the
      separator) is the file. */
  lemma ResourcePathRestoresFile(src: string, file: string, separator: char)
    requires separator == '/' || '/' !in file
    requires ToResourcePath(Some(src), Some(file), separator).Some?
    ensures var r := ToResourcePath(Some(src), Some(file), separator).value;
      src + Replace(r[1..], '/', separator) == file
  {
    var r := ToResourcePath(Some(src), Some(file), separator).value;
    var rel := file[|src|..];
    assert r[1..] == Replace(rel, separator, '/');
    assert separator == '/' || '/' !in rel by {
      if separator != '/' {
        forall i | 0 <= i < |rel| ensures rel[i] != '/' {
          assert rel[i] == file[|src| + i];
        }
      }
    }
    ReplaceBack(rel, separator);
  }

  /** The file a resource path denotes when resolved against the source
      directory, as the host resolves it: "/" is the directory itself and
      "/a/b" is the directory, a separator, then "a", a separator, "b". */
  function Resolve(src: string, resource: string, separator: char): string {
    if |resource| <= 1 then src
    else
      var dir := if EndsWith(src, [separator]) then src else src + [separator];
      dir + Replace(resource[1..], '/', separator)
  }

  /** The file lies in the directory or below it, measured in whole path
      components. */
  predicate UnderDirectory(file: string, dir: string, separator: char) {
    || file == dir
    || StartsWith(file, dir + [separator])
    || (EndsWith(dir, [separator]) && StartsWith(file, dir))
  }

  /** The resource path the code evidently means to compute: only files at a
      component boundary under the source directory are accepted, and the
      separator that follows the directory is not repeated after the leading "/". */
  function IntendedResourcePath(sourceCanonical: Option<string>, fileCanonical: Option<string>, separator: char)
    : (r: Option<string>)
    ensures r.Some? <==>
      sourceCanonical.Some? && fileCanonical.Some?
      && UnderDirectory(fileCanonical.value, sourceCanonical.value, separator)
    ensures r.Some? ==> |r.value| > 0 && r.value[0] == '/'
  {
    match (sourceCanonical, fileCanonical)
    case (Some(src), Some(file)) =>
      if !StartsWith(file, src) then None
      else
        var rel := file[|src|..];
        if |rel| == 0 then
          Some("/")
        else if EndsWith(src, [separator]) then
          Some("/" + Replace(rel, separator, '/'))
        else if rel[0] == separator then
          assert file[..|src| + 1] == src + [separator];
          Some("/" + Replace(rel[1..], separator, '/'))
        else
          assert file[|src|] == rel[0];
          None
    case _ => None
  }

  /** Resolving "/" followed by a nonempty relative path appends that path to the
      directory, with a separator between them unless the directory ends in one. */
  lemma ResolveRelative(src: string, rel: string, separator: char)
    requires |rel| > 0 && (separator == '/' || '/' !in rel)
    ensures Resolve(src, "/" + Replace(rel, separator, '/'), separator)
      == (if EndsWith(src, [separator]) then src else src + [separator]) + rel
  {
    var r := "/" + Replace(rel, separator, '/');
    assert r[1..] == Replace(rel, separator, '/');
    ReplaceBack(rel, separator);
  }

  /** A suffix of a string free of '/' is free of '/'. */
  lemma SuffixWithoutSlash(file: string, k: nat)
    requires k <= |file| && '/' !in file
    ensures '/' !in file[k..]
  {
    forall i | 0 <= i < |file| - k ensures file[k..][i] != '/' {
      assert file[k..][i] == file[k + i];
    }
  }

  /** The corrected mapping is what the host needs: resolving the resource path
      against the source directory gives back the canonical file (a canonical
      path never ends in a separator unless it is the directory itself). */
  lemma IntendedResolvesBack(src: string, file: string, separator: char)
    requires separator == '/' || '/' !in file
    requires file == src || !EndsWith(file, [separator])
    requires IntendedResourcePath(Some(src), Some(file), separator).Some?
    ensures Resolve(src, IntendedResourcePath(Some(src), Some(file), separator).value, separator) == file
  {
    assert StartsWith(file, src);
    if |file| == |src| {
      assert file == file[..|src|] == src;
    } else if EndsWith(src, [separator]) {
      ResolvesBelowSeparator(src, file, separator);
    } else {
      ResolvesAfterSeparator(src, file, separator);
    }
  }

  /** Under a directory that ends in a separator, the rest of the path comes
      back from the resource path. */
  lemma ResolvesBelowSeparator(src: string, file: string, separator: char)
    requires separator == '/' || '/' !in file
    requires StartsWith(file, src) && |file| > |src| && EndsWith(src, [separator])
    ensures IntendedResourcePath(Some(src), Some(file), separator) == Some("/" + Replace(file[|src|..], separator, '/'))
    ensures Resolve(src, "/" + Replace(file[|src|..], separator, '/'), separator) == file
  {
    var rel := file[|src|..];
    assert file == src + rel;
    if separator != '/' {
      SuffixWithoutSlash(file, |src|);
    }
    ResolveRelative(src, rel, separator);
  }

  /** Under a directory that does not end in a separator, the separator after
      it is put back by resolution and the rest comes back from the resource
      path. */
  lemma ResolvesAfterSeparator(src: string, file: string, separator: char)
    requires separator == '/' || '/' !in file
    requires !EndsWith(file, [separator])
    requires StartsWith(file, src) && |file| > |src| && !EndsWith(src, [separator])
    requires IntendedResourcePath(Some(src), Some(file), separator).Some?
    ensures file[|src|] == separator && |file| >= |src| + 2
    ensures IntendedResourcePath(Some(src), Some(file), separator) == Some("/" + Replace(file[|src| + 1..], separator, '/'))
    ensures Resolve(src, "/" + Replace(file[|src| + 1..], separator, '/'), separator) == file
  {
    SeparatorFollows(src, file, separator);
    if |file| == |src| + 1 {
      assert false;
    }
    AfterSeparatorMaps(src, file, separator);
    var rest := file[|src| + 1..];
    if separator != '/' {
      SuffixWithoutSlash(file, |src| + 1);
    }
    ResolveRelative(src, rest, separator);
    assert file == src + [separator] + rest;
  }

  /** A file the corrected mapping accepts below a directory that does not end
      in a separator has a separator right after the directory. */
  lemma SeparatorFollows(src: string, file: string, separator: char)
    requires |file| > |src| && !EndsWith(src, [separator])
    requires IntendedResourcePath(Some(src), Some(file), separator).Some?
    ensures file[|src|] == separator
  {
    assert StartsWith(file, src + [separator]);
    assert file[..|src| + 1][|src|] == file[|src|];
  }

  /** Below a directory that does not end in a separator, the corrected
      mapping drops the separator after the directory. */
  lemma AfterSeparatorMaps(src: string, file: string, separator: char)
    requires StartsWith(file, src) && |file| >= |src| + 2 && !EndsWith(src, [separator])
    requires file[|src|] == separator
    ensures IntendedResourcePath(Some(src), Some(file), separator) == Some("/" + Replace(file[|src| + 1..], separator, '/'))
  {
    var rel := file[|src|..];
    assert rel[0] == file[|src|];
    assert rel[1..] == file[|src| + 1..];
  }

  /** For a file under a directory that does not end in a separator, the code's
      result is the intended one with one '/' too many at its front. */
  lemma AsWrittenDoublesSlash(src: string, file: string, separator: char)
    requires !EndsWith(src, [separator]) && StartsWith(file, src + [separator])
    ensures IntendedResourcePath(Some(src), Some(file), separator).Some?
    ensures ToResourcePath(Some(src), Some(file), separator)
      == Some("/" + IntendedResourcePath(Some(src), Some(file), separator).value)
  {
    var rel := file[|src|..];
    assert file[..|src|] == src;
    assert rel[0] == separator;
    var asWritten := ToResourcePath(Some(src), Some(file), separator).value;
    var intended := IntendedResourcePath(Some(src), Some(file), separator).value;
    assert asWritten == "/" + Replace(rel, separator, '/');
    assert intended == "/" + Replace(rel[1..], separator, '/');
    assert Replace(rel, separator, '/') == "/" + Replace(rel[1..], separator, '/');
  }

  /** The file the resource-path test names: the code yields "//test.luax", so the
      host, resolving it, looks for a file that differs from the reported one. */
  lemma DoubleSlashUnderSourceDir()
    ensures ToResourcePath(Some("/project/src"), Some("/project/src/test.luax"), '/') == Some("//test.luax")
    ensures Resolve("/project/src", "//test.luax", '/') != "/project/src/test.luax"
  {
    var file := "/project/src/test.luax";
    assert StartsWith(file, "/project/src");
    assert file[|"/project/src"|..] == "/test.luax";
    assert Replace("/test.luax", '/', '/') == "/test.luax";
    assert ToResourcePath(Some("/project/src"), Some(file), '/') == Some("/" + "/test.luax");
    assert "/" + "/test.luax" == "//test.luax";
    var resolved := Resolve("/project/src", "//test.luax", '/');
    assert |resolved| == |file| + 1;
  }

  /** A sibling directory that merely shares the source directory's name as a
      prefix is accepted by the code, though it is outside the project. */
  lemma SiblingDirectoryAccepted()
    ensures ToResourcePath(Some("/project/src"), Some("/project/srcX/a.luax"), '/') == Some("/X/a.luax")
    ensures !UnderDirectory("/project/srcX/a.luax", "/project/src", '/')
  {
    var file := "/project/srcX/a.luax";
    assert StartsWith(file, "/project/src");
    assert file[|"/project/src"|..] == "X/a.luax";
    assert Replace("X/a.luax", '/', '/') == "X/a.luax";
    assert file[12] == 'X';
    assert "/" + "X/a.luax" == "/X/a.luax";
    assert !StartsWith(file, "/project/src" + ['/']);
  }

  /** The two resource-path tests, against the corrected mapping. */
  lemma IntendedMatchesTests()
    ensures IntendedResourcePath(Some("/project/src"), Some("/project/src/test.luax"), '/') == Some("/test.luax")
    ensures IntendedResourcePath(Some("/project/src"), Some("/other/path/file.luax"), '/') == None
    ensures ToResourcePath(Some("/project/src"), Some("/other/path/file.luax"), '/') == None
  {
    var file := "/project/src/test.luax";
    assert file[..13] == "/project/src/";
    assert file[|"/project/src"|..] == "/test.luax";
    assert Replace("test.luax", '/', '/') == "test.luax";
    assert file[|"/project/src"|..][1..] == "test.luax";
    assert "/" + "test.luax" == "/test.luax";
    assert "/other/path/file.luax"[1] != "/project/src"[1];
  }
}

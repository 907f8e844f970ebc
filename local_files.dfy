/**
 * The local file system as the upload path sees it: a map from path to
 * contents, the temporary files the orchestrator stages uploads in, and the
 * `unlink` that removes them again. Temporary names follow Python's
 * `tempfile` module: the directory, a `/`, the prefix `tmp`, a random token
 * drawn from lower-case letters, digits and `_`, then the requested suffix.
 */
module LocalFiles {
  import opened Paths

  type Byte = b: int | 0 <= b < 256
  type Bytes = seq<Byte>

  /** The local disk. */
  class Disk {
    var files: map<string, Bytes>

    constructor (files: map<string, Bytes>)
      ensures this.files == files
    {
      this.files := files;
    }

    /** Create (or overwrite) the file at `path` with `data` and close it. */
    method Write(path: string, data: Bytes)
      modifies this
      ensures files == old(files)[path := data]
    {
      files := files[path := data];
    }

    /** `Path(path).unlink(missing_ok=True)`: remove the file if it is there. */
    method Unlink(path: string)
      modifies this
      ensures files == old(files) - {path}
    {
      files := files - {path};
    }
  }

  const TempPrefix := "tmp"

  /** Characters of the random part of a `tempfile` name. */
  predicate TempChar(ch: char)
  {
    'a' <= ch <= 'z' || '0' <= ch <= '9' || ch == '_'
  }

  /** A random token as `tempfile` draws it. */
  predicate TempToken(token: string)
  {
    forall i :: 0 <= i < |token| ==> TempChar(token[i])
  }

  /** The path of a named temporary file in `dir` with the given random token and suffix. */
  function TempPath(dir: string, token: string, suffix: string): string
  {
    dir + "/" + TempPrefix + token + suffix
  }

  /** No existing file starts with the temporary name's directory, prefix and token. */
  predicate TempStemUnused(files: map<string, Bytes>, dir: string, token: string)
  {
    forall p :: p in files ==> !(dir + "/" + TempPrefix + token <= p)
  }

  /** A temporary name whose stem is unused is free, whatever suffix it gets. */
  lemma TempPathFree(files: map<string, Bytes>, dir: string, token: string, suffix: string)
    requires TempStemUnused(files, dir, token)
    ensures TempPath(dir, token, suffix) !in files
  {
    var stem := dir + "/" + TempPrefix + token;
    assert TempPath(dir, token, suffix) == stem + suffix;
    assert stem <= stem + suffix;
  }

  /** The fixed part of a temporary name holds neither `/` nor `.`. */
  lemma TempBasePlain(token: string)
    requires TempToken(token)
    ensures TempPrefix + token != [] && '/' !in TempPrefix + token && '.' !in TempPrefix + token
  {
    var base := TempPrefix + token;
    forall i | 0 <= i < |base| ensures base[i] != '/' && base[i] != '.' {
      if i >= 3 { assert base[i] == token[i - 3]; }
    }
  }

  /**
   * A temporary file keeps the suffix it was asked for: its name splits into
   * stem `tmp` + token and exactly that suffix.
   */
  lemma TempPathParts(dir: string, token: string, suffix: string)
    requires TempToken(token) && SuffixForm(suffix)
    ensures Name(TempPath(dir, token, suffix)) == TempPrefix + token + suffix
    ensures Suffix(TempPath(dir, token, suffix)) == suffix
    ensures Stem(TempPath(dir, token, suffix)) == TempPrefix + token
    ensures Suffix(TempPrefix + token + suffix) == suffix && Stem(TempPrefix + token + suffix) == TempPrefix + token
  {
    var base := TempPrefix + token;
    var path := TempPath(dir, token, suffix);
    TempBasePlain(token);
    assert path == dir + "/" + base + suffix;
    if suffix == [] {
      assert path == dir + "/" + base;
      assert base + suffix == base;
      NoExtension(dir, base);
      NameOfChild(dir, base);
    } else {
      SplitExtension(dir, base, suffix);
      StemSuffixSplit(path);
    }
  }
}

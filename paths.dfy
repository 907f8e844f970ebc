/**
 * The parts of `pathlib.PurePosixPath` the core uses: `name`, `suffix` and
 * `stem`. A path is split at `/`; empty and `.` components are dropped; the
 * name is the last component left (or "" when none is). The suffix is the
 * name's tail from its last `.`, provided that dot is neither the first nor
 * the last character of the name; the stem is the rest of the name.
 */
module Paths {

  /** The characters after the last `/` of `p` (all of `p` when it has none). */
  function LastSegment(p: string): (seg: string)
    ensures |seg| <= |p|
    decreases |p|
  {
    if p == [] || p[|p| - 1] == '/' then [] else LastSegment(p[..|p| - 1]) + [p[|p| - 1]]
  }

  /** The last segment is a tail of `p` without `/`, and a `/` precedes it unless it is all of `p`. */
  lemma {:induction false} LastSegmentFacts(p: string)
    ensures var seg := LastSegment(p);
            && '/' !in seg
            && |seg| <= |p| && seg == p[|p| - |seg|..]
            && (|seg| < |p| ==> p[|p| - |seg| - 1] == '/')
    decreases |p|
  {
    if !(p == [] || p[|p| - 1] == '/') {
      var init := p[..|p| - 1];
      var last := p[|p| - 1];
      LastSegmentFacts(init);
      var seg := LastSegment(p);
      var prev := LastSegment(init);
      assert seg == prev + [last];
      var from := |init| - |prev|;
      assert p == init + [last];
      assert p[from..] == init[from..] + [last];
      assert '/' !in seg by {
        forall k | 0 <= k < |seg| ensures seg[k] != '/' {
          if k < |prev| { assert seg[k] == prev[k]; }
        }
      }
      if |seg| < |p| {
        assert p[from - 1] == init[from - 1];
      }
    }
  }

  /** `PurePosixPath(p).name`: the last component that is neither empty nor `.`. */
  function Name(p: string): string
    decreases |p|
  {
    var seg := LastSegment(p);
    if seg != "" && seg != "." then seg
    else if |seg| == |p| then ""
    else Name(p[..|p| - |seg| - 1])
  }

  /** A name holds no `/` and is never `.`. */
  lemma {:induction false} NameFacts(p: string)
    ensures '/' !in Name(p) && Name(p) != "."
    decreases |p|
  {
    var seg := LastSegment(p);
    LastSegmentFacts(p);
    if !(seg != "" && seg != ".") && |seg| != |p| {
      NameFacts(p[..|p| - |seg| - 1]);
    }
  }

  /** Index of the last `ch` in `s`, or -1 (`str.rfind`). */
  function RFind(s: string, ch: char): int
    decreases |s|
  {
    if s == [] then -1 else if s[|s| - 1] == ch then |s| - 1 else RFind(s[..|s| - 1], ch)
  }

  /** `RFind` gives -1 or an index of `ch`, and `ch` does not occur after it. */
  lemma {:induction false} RFindFacts(s: string, ch: char)
    ensures var i := RFind(s, ch);
            && -1 <= i < |s|
            && (i >= 0 ==> s[i] == ch)
            && (forall k :: i < k < |s| ==> s[k] != ch)
    decreases |s|
  {
    if s != [] && s[|s| - 1] != ch {
      var init := s[..|s| - 1];
      RFindFacts(init, ch);
      forall k | RFind(s, ch) < k < |s| ensures s[k] != ch {
        if k < |s| - 1 { assert s[k] == init[k]; }
      }
    }
  }

  /** What `suffix` can return: nothing, or a dot followed by at least one character that is not a dot. */
  predicate SuffixForm(x: string)
  {
    x == [] || (|x| >= 2 && x[0] == '.' && '.' !in x[1..] && '/' !in x)
  }

  /** `PurePosixPath(p).suffix`. */
  function Suffix(p: string): string
  {
    var name := Name(p);
    var i := RFind(name, '.');
    if 0 < i < |name| - 1 then name[i..] else ""
  }

  /** `PurePosixPath(p).stem`. */
  function Stem(p: string): string
  {
    var name := Name(p);
    var i := RFind(name, '.');
    if 0 < i < |name| - 1 then name[..i] else name
  }

  /** A suffix is empty, or a dot and then at least one character that is neither `.` nor `/`; a stem has no `/`. */
  lemma SuffixFacts(p: string)
    ensures SuffixForm(Suffix(p)) && '/' !in Stem(p)
  {
    var name := Name(p);
    var i := RFind(name, '.');
    NameFacts(p);
    RFindFacts(name, '.');
    if 0 < i < |name| - 1 {
      var x := name[i..];
      assert '.' !in x[1..] by {
        forall k | 0 <= k < |x| - 1 ensures x[1..][k] != '.' {
          assert x[1..][k] == name[i + 1 + k];
        }
      }
      assert '/' !in x by {
        forall k | 0 <= k < |x| ensures x[k] != '/' {
          assert x[k] == name[i + k];
        }
      }
      assert '/' !in name[..i] by {
        forall k | 0 <= k < i ensures name[..i][k] != '/' {
          assert name[..i][k] == name[k];
        }
      }
    }
  }

  /** The stem followed by the suffix is the name. */
  lemma StemSuffixSplit(p: string)
    ensures Stem(p) + Suffix(p) == Name(p)
  {
    var name := Name(p);
    var i := RFind(name, '.');
    if 0 < i < |name| - 1 {
      assert name[..i] + name[i..] == name;
    }
  }

  /** A component appended after a `/` is the last segment, whatever comes before it. */
  lemma {:induction false} LastSegmentOfChild(dir: string, child: string)
    requires '/' !in child
    ensures LastSegment(dir + "/" + child) == child
    decreases |child|
  {
    if child != [] {
      var init := child[..|child| - 1];
      assert (dir + "/" + child)[..|dir + "/" + child| - 1] == dir + "/" + init;
      LastSegmentOfChild(dir, init);
    } else {
      assert (dir + "/" + child)[|dir + "/" + child| - 1] == '/';
    }
  }

  /** A plain string with no `/` is its own last segment. */
  lemma {:induction false} LastSegmentOfPlain(child: string)
    requires '/' !in child
    ensures LastSegment(child) == child
    decreases |child|
  {
    if child != [] {
      LastSegmentOfPlain(child[..|child| - 1]);
    }
  }

  /** A proper component is a path's name when it follows a `/` or stands alone. */
  lemma NameOfChild(dir: string, child: string)
    requires '/' !in child && child != "" && child != "."
    ensures Name(dir + "/" + child) == child
    ensures Name(child) == child
  {
    LastSegmentOfChild(dir, child);
    LastSegmentOfPlain(child);
  }

  /** `RFind` finds an occurrence of `ch` that no later `ch` follows. */
  lemma {:induction false} RFindAt(s: string, ch: char, j: int)
    requires 0 <= j < |s| && s[j] == ch
    requires forall k :: j < k < |s| ==> s[k] != ch
    ensures RFind(s, ch) == j
    decreases |s|
  {
    if j < |s| - 1 {
      var init := s[..|s| - 1];
      assert init[j] == ch;
      assert forall k :: j < k < |init| ==> init[k] == s[k];
      RFindAt(init, ch, j);
    }
  }

  /** `RFind` in `base + ext` finds the dot that starts `ext` when `ext` has no other dot. */
  lemma RFindInExtension(base: string, ext: string)
    requires |ext| >= 1 && ext[0] == '.' && '.' !in ext[1..]
    ensures RFind(base + ext, '.') == |base|
  {
    var s := base + ext;
    assert s[|base|] == '.';
    forall k | |base| < k < |s| ensures s[k] != '.' {
      assert s[k] == ext[1..][k - |base| - 1];
    }
    RFindAt(s, '.', |base|);
  }

  /** A string with no dot has no dot for `RFind` to find. */
  lemma RFindAbsent(s: string)
    requires '.' !in s
    ensures RFind(s, '.') == -1
  {
  }

  /**
   * Splitting a name built as `base + ext`, where `ext` is a non-empty
   * suffix and `base` a non-empty string without `/`, gives back `ext` and `base`.
   */
  lemma SplitExtension(dir: string, base: string, ext: string)
    requires ext != [] && SuffixForm(ext)
    requires base != [] && '/' !in base
    ensures Suffix(dir + "/" + base + ext) == ext && Stem(dir + "/" + base + ext) == base
    ensures Suffix(base + ext) == ext && Stem(base + ext) == base
  {
    assert '/' !in base + ext by {
      forall k | 0 <= k < |base + ext| ensures (base + ext)[k] != '/' {
        if k >= |base| { assert (base + ext)[k] == ext[k - |base|]; }
      }
    }
    assert dir + "/" + base + ext == dir + "/" + (base + ext);
    NameOfChild(dir, base + ext);
    RFindInExtension(base, ext);
    assert (base + ext)[..|base|] == base;
    assert (base + ext)[|base|..] == ext;
  }

  /** A name without any dot has no suffix and is its own stem. */
  lemma NoExtension(dir: string, base: string)
    requires base != [] && '/' !in base && '.' !in base
    ensures Suffix(dir + "/" + base) == "" && Stem(dir + "/" + base) == base
    ensures Suffix(base) == "" && Stem(base) == base
  {
    assert base != "." by { assert base[0] in base; }
    NameOfChild(dir, base);
    RFindAbsent(base);
  }

  /** The string ends in a dot. */
  predicate EndsInDot(s: string)
  {
    s != [] && s[|s| - 1] == '.'
  }

  /** A name with no suffix that does not end in a dot has no dot after its first character, and is its own stem. */
  lemma NoSuffixDots(p: string)
    requires Suffix(p) == "" && !EndsInDot(Name(p))
    ensures forall k :: 0 < k < |Name(p)| ==> Name(p)[k] != '.'
    ensures Stem(p) == Name(p)
  {
    RFindFacts(Name(p), '.');
  }

  /** A component whose only dot, if any, is its first character has no suffix and is its own stem. */
  lemma LeadingDotOnly(s: string)
    requires s != [] && s != "." && '/' !in s
    requires forall k :: 0 < k < |s| ==> s[k] != '.'
    ensures Suffix(s) == "" && Stem(s) == s
  {
    NameOfChild("", s);
    RFindFacts(s, '.');
  }

  /** A component that ends in a dot after at least one more character, followed by a dotless tail, has the suffix that dot starts. */
  lemma DotBeforeTail(head: string, tail: string)
    requires |head| >= 2 && EndsInDot(head) && '/' !in head
    requires tail != [] && '/' !in tail && '.' !in tail
    ensures Suffix(head + tail) == "." + tail && Stem(head + tail) == head[..|head| - 1]
  {
    var s := head + tail;
    assert '/' !in s by {
      forall k | 0 <= k < |s| ensures s[k] != '/' {
        if k < |head| { assert s[k] == head[k]; } else { assert s[k] == tail[k - |head|]; }
      }
    }
    assert s != "." by { assert |s| >= 3; }
    NameOfChild("", s);
    assert s[|head| - 1] == '.';
    forall k | |head| - 1 < k < |s| ensures s[k] != '.' {
      assert s[k] == tail[k - |head|];
    }
    RFindAt(s, '.', |head| - 1);
    assert s[|head| - 1..] == "." + tail;
    assert s[..|head| - 1] == head[..|head| - 1];
  }
  /** A component with no dot after its first character, followed by a dotless tail, has no suffix. */
  lemma PlainBeforeTail(head: string, tail: string)
    requires '/' !in head && forall k :: 0 < k < |head| ==> head[k] != '.'
    requires tail != [] && '/' !in tail && '.' !in tail
    ensures Suffix(head + tail) == ""
  {
    var s := head + tail;
    forall k | 0 <= k < |s| ensures s[k] != '/' && (k > 0 ==> s[k] != '.') {
      if k < |head| { assert s[k] == head[k]; } else { assert s[k] == tail[k - |head|]; }
    }
    assert s[|s| - 1] == tail[|tail| - 1];
    LeadingDotOnly(s);
  }
  /** A name that ends in a dot has no suffix, is its own stem and has a character before that dot. */
  lemma TrailingDotFacts(p: string)
    requires EndsInDot(Name(p))
    ensures Suffix(p) == "" && Stem(p) == Name(p) && |Name(p)| >= 2
  {
    var name := Name(p);
    NameFacts(p);
    assert name[|name| - 1..] == ".";
    RFindAt(name, '.', |name| - 1);
  }
}

/**
 * `os.path.join` as the POSIX flavour of Python defines it: components are
 * added left to right; a component that starts with "/" discards
 * everything before it; "/" is inserted only between a non-empty path that
 * does not already end in "/" and the next component, so an empty leading
 * component vanishes.
 */
module PosixPath {
  import opened PyStr

  /** One step of the join: add component `b` to `path`. */
  function JoinStep(path: string, b: string): string {
    if StartsWith(b, "/") then b
    else if path == [] || EndsWith(path, "/") then path + b
    else path + "/" + b
  }

  /** `os.path.join(a, *p)` */
  function Join(a: string, p: seq<string>): string
    decreases |p|
  {
    if p == [] then a else Join(JoinStep(a, p[0]), p[1..])
  }

  /** Joining in two batches is joining once: `join(join(a, *p), *q) == join(a, *p, *q)`. */
  lemma {:induction false} JoinConcat(a: string, p: seq<string>, q: seq<string>)
    ensures Join(a, p + q) == Join(Join(a, p), q)
    decreases |p|
  {
    if p != [] {
      var a' := JoinStep(a, p[0]);
      assert (p + q)[0] == p[0] && (p + q)[1..] == p[1..] + q;
      assert Join(a, p + q) == Join(a', p[1..] + q);
      assert Join(a, p) == Join(a', p[1..]);
      JoinConcat(a', p[1..], q);
    } else {
      assert p + q == q;
    }
  }

  /** The joined path always ends with the last component. */
  lemma {:induction false} JoinEndsWithLast(a: string, p: seq<string>)
    requires p != []
    ensures EndsWith(Join(a, p), p[|p| - 1])
    decreases |p|
  {
    if |p| == 1 {
      var b := p[0];
      var r := JoinStep(a, b);
      assert r[|r| - |b|..] == b;
    } else {
      JoinEndsWithLast(JoinStep(a, p[0]), p[1..]);
    }
  }

  /** An empty leading component is dropped: `join("", b, *rest) == join(b, *rest)`. */
  lemma JoinEmptyHead(p: seq<string>)
    requires p != []
    ensures Join("", p) == Join(p[0], p[1..])
  {
    assert JoinStep("", p[0]) == p[0];
  }

  /** A component that starts with "/" discards everything joined before it. */
  lemma JoinAbsoluteResets(a: string, p: seq<string>, b: string, q: seq<string>)
    requires StartsWith(b, "/")
    ensures Join(a, p + [b] + q) == Join(b, q)
  {
    JoinConcat(a, p, [b] + q);
    assert p + [b] + q == p + ([b] + q);
    assert ([b] + q)[1..] == q;
  }

  /**
   * Text that does not start with "/" may be appended to the last component
   * or to the joined result alike: `join(d, p) + s == join(d, p + s)`.
   */
  lemma JoinAppendSuffix(a: string, p: seq<string>, s: string)
    requires p != [] && !StartsWith(s, "/")
    ensures Join(a, p) + s == Join(a, p[..|p| - 1] + [p[|p| - 1] + s])
  {
    var init, b := p[..|p| - 1], p[|p| - 1];
    assert p == init + [b];
    JoinConcat(a, init, [b]);
    JoinConcat(a, init, [b + s]);
    JoinStepAppendSuffix(Join(a, init), b, s);
  }

  /** One join step commutes with appending text that does not start with "/". */
  lemma JoinStepAppendSuffix(d: string, b: string, s: string)
    requires !StartsWith(s, "/")
    ensures JoinStep(d, b) + s == JoinStep(d, b + s)
  {
    if b == [] {
      assert b + s == s;
    } else {
      assert (b + s)[0] == b[0];
      assert StartsWith(b + s, "/") <==> StartsWith(b, "/");
    }
    if StartsWith(b, "/") {
    } else if d == [] || EndsWith(d, "/") {
      assert d + b + s == d + (b + s);
    } else {
      assert d + "/" + b + s == d + "/" + (b + s);
    }
  }

  /** Whether a joined path ends with a suffix free of "/" depends on the last component alone. */
  lemma JoinStepEndsWith(path: string, b: string, suffix: string)
    requires '/' !in suffix
    ensures EndsWith(JoinStep(path, b), suffix) <==> EndsWith(b, suffix)
  {
    if !StartsWith(b, "/") {
      SlashEnds(path);
      if path == [] || EndsWith(path, "/") {
        EndsWithAfterSlash(path, b, suffix);
      } else {
        EndsWithAfterSlash(path + "/", b, suffix);
      }
    }
  }

  /** After a prefix that is empty or ends in "/", a suffix free of "/" can only end the string by ending its last part. */
  lemma EndsWithAfterSlash(pre: string, b: string, suffix: string)
    requires pre == [] || pre[|pre| - 1] == '/'
    requires '/' !in suffix
    ensures EndsWith(pre + b, suffix) <==> EndsWith(b, suffix)
  {
    var s := pre + b;
    if |suffix| <= |b| {
      assert s[|s| - |suffix|..] == b[|b| - |suffix|..];
    } else if |suffix| <= |s| {
      var i := |suffix| - |b| - 1;
      assert s[|s| - |suffix|..][i] == pre[|pre| - 1];
      assert s[|s| - |suffix|..] != suffix;
    }
  }

  /** A component with no "/" at either end, and not empty. */
  predicate Plain(c: string) {
    c != [] && c[0] != '/' && c[|c| - 1] != '/'
  }

  /** Whether a string starts or ends with "/" is a matter of its first or last character. */
  lemma SlashEnds(s: string)
    ensures StartsWith(s, "/") <==> s != [] && s[0] == '/'
    ensures EndsWith(s, "/") <==> s != [] && s[|s| - 1] == '/'
  {
    if s != [] {
      assert s[|s| - 1..] == [s[|s| - 1]];
      assert s[..1] == [s[0]];
    }
  }

  /**
   * Adding a plain component: to an empty path it is the whole result, to a
   * path that does not end in "/" it is added after one; either way the result
   * is non-empty and does not end in "/".
   */
  lemma JoinStepPlain(path: string, b: string)
    requires Plain(b) && !EndsWith(path, "/")
    ensures path == [] ==> JoinStep(path, b) == b
    ensures path != [] ==> JoinStep(path, b) == path + "/" + b
    ensures JoinStep(path, b) != [] && !EndsWith(JoinStep(path, b), "/")
  {
    SlashEnds(b);
    var r := JoinStep(path, b);
    assert r[|r| - 1] == b[|b| - 1];
    SlashEnds(r);
  }

  /**
   * With a non-empty base that does not end in "/", and components that are
   * non-empty and carry no "/" at either end, joining is inserting "/"
   * between consecutive parts.
   */
  lemma {:induction false} JoinPlain(a: string, p: seq<string>)
    requires a != [] && !EndsWith(a, "/")
    requires forall i :: 0 <= i < |p| ==> Plain(p[i])
    ensures Join(a, p) == JoinWith('/', [a] + p)
    decreases |p|
  {
    if p != [] {
      JoinStepPlain(a, p[0]);
      var a' := a + "/" + p[0];
      JoinPlain(a', p[1..]);
      if |p| == 1 {
        assert [a'] + p[1..] == [a'];
      } else {
        assert ([a] + p)[1..] == p;
        assert ([a'] + p[1..])[1..] == p[1..];
        assert JoinWith('/', p) == p[0] + "/" + JoinWith('/', p[1..]);
      }
    }
  }
}

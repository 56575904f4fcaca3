/**
 Azure resource IDs are '/'-separated paths. `Join` builds one from its segments and
 `Split` reads the segments back (keeping empty ones, like Go's `strings.Split`); the two
 are inverse to each other whenever no segment contains a '/'.
 */
module ResourcePaths {

  const Separator: char := '/'

  /** The segments written one after another with a '/' between neighbours. */
  function Join(parts: seq<string>): string
    requires |parts| > 0
  {
    if |parts| == 1 then parts[0] else parts[0] + [Separator] + Join(parts[1..])
  }

  /** The '/'-separated segments of `s`, empty ones included. */
  function Split(s: string): (r: seq<string>)
    ensures |r| > 0
    ensures forall i :: 0 <= i < |r| ==> Separator !in r[i]
    decreases |s|
  {
    if |s| == 0 then [""]
    else
      var rest := Split(s[1..]);
      if s[0] == Separator then [""] + rest
      else [[s[0]] + rest[0]] + rest[1..]
  }

  /** A string without a separator is a single segment. */
  lemma {:induction false} SplitSingle(p: string)
    requires Separator !in p
    ensures Split(p) == [p]
    decreases |p|
  {
    if |p| > 0 {
      assert Separator !in p[1..] by {
        forall i | 0 <= i < |p[1..]| ensures p[1..][i] != Separator {
          assert p[1..][i] == p[i + 1];
        }
      }
      SplitSingle(p[1..]);
      assert [p[0]] + p[1..] == p;
    }
  }

  /** A trailing separator-free segment after a '/' splits off as the last segment. */
  lemma {:induction false} SplitSnoc(x: string, q: string)
    requires Separator !in q
    ensures Split(x + [Separator] + q) == Split(x) + [q]
    decreases |x|
  {
    var s := x + [Separator] + q;
    if |x| == 0 {
      assert s[0] == Separator && s[1..] == q;
      SplitSingle(q);
    } else {
      assert s[0] == x[0] && s[1..] == x[1..] + [Separator] + q;
      SplitSnoc(x[1..], q);
      var rest := Split(x[1..]);
      if x[0] != Separator {
        assert (rest + [q])[0] == rest[0];
        assert (rest + [q])[1..] == rest[1..] + [q];
      }
    }
  }

  /** A leading separator-free segment followed by '/' splits off as the first segment. */
  lemma {:induction false} SplitCons(p: string, t: string)
    requires Separator !in p
    ensures Split(p + [Separator] + t) == [p] + Split(t)
    decreases |p|
  {
    var s := p + [Separator] + t;
    if |p| == 0 {
      assert s[0] == Separator && s[1..] == t;
    } else {
      assert Separator !in p[1..] by {
        forall i | 0 <= i < |p[1..]| ensures p[1..][i] != Separator {
          assert p[1..][i] == p[i + 1];
        }
      }
      assert s[0] == p[0] && s[1..] == p[1..] + [Separator] + t;
      SplitCons(p[1..], t);
      assert [p[0]] + p[1..] == p;
      assert ([p[1..]] + Split(t))[1..] == Split(t);
    }
  }

  /** Splitting a joined path recovers its segments. */
  lemma {:induction false} SplitJoin(parts: seq<string>)
    requires |parts| > 0
    requires forall i :: 0 <= i < |parts| ==> Separator !in parts[i]
    ensures Split(Join(parts)) == parts
    decreases |parts|
  {
    if |parts| == 1 {
      SplitSingle(parts[0]);
    } else {
      SplitCons(parts[0], Join(parts[1..]));
      SplitJoin(parts[1..]);
      assert [parts[0]] + parts[1..] == parts;
    }
  }

  /** Joining the segments of a path gives the path back. */
  lemma {:induction false} JoinSplit(s: string)
    ensures Join(Split(s)) == s
    decreases |s|
  {
    if |s| > 0 {
      var rest := Split(s[1..]);
      JoinSplit(s[1..]);
      if s[0] == Separator {
        assert ([""] + rest)[1..] == rest;
        assert [s[0]] + s[1..] == s;
      } else {
        var r := Split(s);
        assert r == [[s[0]] + rest[0]] + rest[1..];
        if |rest| == 1 {
          assert [s[0]] + s[1..] == s;
        } else {
          assert r[1..] == rest[1..];
          assert Join(rest) == rest[0] + [Separator] + Join(rest[1..]);
          assert [s[0]] + s[1..] == s;
        }
      }
    }
  }
}

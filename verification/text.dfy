/** Joining and splitting strings on a separator: the vocabulary in which the
    table grammars are stated and read back. */
module Text {
  import opened Wrappers

  /** The parts glued together with `sep` between consecutive parts. */
  function Join(parts: seq<string>, sep: char): string
  {
    if |parts| == 0 then ""
    else if |parts| == 1 then parts[0]
    else parts[0] + [sep] + Join(parts[1..], sep)
  }

  /** The maximal `sep`-free pieces of `s`, in order; always at least one piece. */
  function Split(s: string, sep: char): (parts: seq<string>)
    ensures |parts| >= 1
    decreases |s|
  {
    if |s| == 0 then [""]
    else
      var rest := Split(s[1..], sep);
      if s[0] == sep then [""] + rest
      else [[s[0]] + rest[0]] + rest[1..]
  }

  /** Each line followed by a newline, as every table format writes its lines. */
  function Unlines(lines: seq<string>): string
  {
    if |lines| == 0 then "" else lines[0] + "\n" + Unlines(lines[1..])
  }

  /** No part contains the separator. */
  predicate Free(parts: seq<string>, sep: char)
  {
    forall i :: 0 <= i < |parts| ==> sep !in parts[i]
  }

  /** Splitting text whose first `sep` comes after the sep-free prefix `a`
      leaves `a` at the front of the first piece. */
  lemma {:induction false} SplitAppend(a: string, b: string, sep: char)
    requires sep !in a
    ensures Split(a + b, sep) == [a + Split(b, sep)[0]] + Split(b, sep)[1..]
    decreases |a|
  {
    if |a| == 0 {
      var parts := Split(b, sep);
      assert a + b == b;
      assert a + parts[0] == parts[0];
      assert [parts[0]] + parts[1..] == parts;
    } else {
      assert (a + b)[1..] == a[1..] + b;
      SplitAppend(a[1..], b, sep);
      assert [a[0]] + (a[1..] + Split(b, sep)[0]) == a + Split(b, sep)[0];
    }
  }

  /** Splitting undoes joining whenever no part contains the separator. */
  lemma {:induction false} SplitJoin(parts: seq<string>, sep: char)
    requires |parts| >= 1
    requires Free(parts, sep)
    ensures Split(Join(parts, sep), sep) == parts
    decreases |parts|
  {
    if |parts| == 1 {
      SplitAppend(parts[0], "", sep);
      assert parts[0] + "" == parts[0];
    } else {
      var tail := Join(parts[1..], sep);
      SplitJoin(parts[1..], sep);
      assert Join(parts, sep) == parts[0] + ([sep] + tail);
      SplitAppend(parts[0], [sep] + tail, sep);
      assert ([sep] + tail)[1..] == tail;
      assert Split([sep] + tail, sep) == [""] + parts[1..];
      assert parts[0] + "" == parts[0];
    }
  }

  /** Joining undoes splitting: the pieces with the separator put back are the text. */
  lemma {:induction false} JoinSplit(s: string, sep: char)
    ensures Join(Split(s, sep), sep) == s
    decreases |s|
  {
    if |s| > 0 {
      var rest := Split(s[1..], sep);
      JoinSplit(s[1..], sep);
      if s[0] == sep {
        assert ([""] + rest)[1..] == rest;
      } else {
        var parts := [[s[0]] + rest[0]] + rest[1..];
        assert parts[1..] == rest[1..];
        if |rest| == 1 {
          assert Join(parts, sep) == [s[0]] + rest[0];
        } else {
          assert Join(rest, sep) == rest[0] + [sep] + Join(rest[1..], sep);
        }
        assert s == [s[0]] + s[1..];
      }
    }
  }

  /** Joining a part in front of at least one other part puts a separator after it. */
  lemma JoinFront(first: string, rest: seq<string>, sep: char)
    requires |rest| >= 1
    ensures Join([first] + rest, sep) == first + [sep] + Join(rest, sep)
  {
    assert ([first] + rest)[1..] == rest;
  }

  /** Joining one more part at the back puts a separator before it. */
  lemma {:induction false} JoinBack(parts: seq<string>, last: string, sep: char)
    requires |parts| >= 1
    ensures Join(parts + [last], sep) == Join(parts, sep) + [sep] + last
    decreases |parts|
  {
    if |parts| > 1 {
      JoinBack(parts[1..], last, sep);
      assert (parts + [last])[1..] == parts[1..] + [last];
    } else {
      assert (parts + [last])[1..] == [last];
    }
  }

  /** Newline-terminated lines are the newline-joined lines followed by an empty last piece. */
  lemma {:induction false} UnlinesAsJoin(lines: seq<string>)
    ensures Unlines(lines) == Join(lines + [""], '\n')
    decreases |lines|
  {
    if |lines| == 0 {
    } else {
      UnlinesAsJoin(lines[1..]);
      assert (lines + [""])[1..] == lines[1..] + [""];
      assert (lines + [""])[0] == lines[0];
    }
  }

  /** Reading newline-terminated lines back: the lines and one empty trailing piece. */
  lemma SplitUnlines(lines: seq<string>)
    requires Free(lines, '\n')
    ensures Split(Unlines(lines), '\n') == lines + [""]
  {
    UnlinesAsJoin(lines);
    SplitJoin(lines + [""], '\n');
  }

  /** Every part with `l` in front and `r` behind. */
  function Pad(parts: seq<string>, l: string, r: string): (padded: seq<string>)
    ensures |padded| == |parts|
    ensures forall i :: 0 <= i < |parts| ==> padded[i] == l + parts[i] + r
  {
    if |parts| == 0 then [] else [l + parts[0] + r] + Pad(parts[1..], l, r)
  }

  /** `s` with the prefix `l` and the suffix `r` removed, if it has both. */
  function Unwrap(s: string, l: string, r: string): Option<string>
  {
    if |l| + |r| <= |s| && s[..|l|] == l && s[|s| - |r|..] == r
    then Some(s[|l|..|s| - |r|])
    else None
  }

  /** Every part unwrapped, or nothing if one part lacks the prefix or the suffix. */
  function UnwrapAll(parts: seq<string>, l: string, r: string): Option<seq<string>>
  {
    if |parts| == 0 then Some([])
    else
      match (Unwrap(parts[0], l, r), UnwrapAll(parts[1..], l, r))
      case (Some(c), Some(cs)) => Some([c] + cs)
      case _ => None
  }

  /** Unwrapping undoes wrapping. */
  lemma UnwrapWrapped(c: string, l: string, r: string)
    ensures Unwrap(l + c + r, l, r) == Some(c)
  {
    var s := l + c + r;
    assert s[..|l|] == l;
    assert s[|s| - |r|..] == r;
    assert s[|l|..|s| - |r|] == c;
  }

  /** What unwraps was wrapped: the prefix, the part, the suffix. */
  lemma UnwrapInverse(s: string, l: string, r: string)
    requires Unwrap(s, l, r).Some?
    ensures s == l + Unwrap(s, l, r).value + r
  {
    assert s == s[..|l|] + s[|l|..|s| - |r|] + s[|s| - |r|..];
  }

  /** Unwrapping every part undoes padding every part. */
  lemma {:induction false} UnwrapAllPad(cs: seq<string>, l: string, r: string)
    ensures UnwrapAll(Pad(cs, l, r), l, r) == Some(cs)
    decreases |cs|
  {
    if |cs| > 0 {
      var rest := Pad(cs[1..], l, r);
      assert Pad(cs, l, r) == [l + cs[0] + r] + rest;
      UnwrapAllPad(cs[1..], l, r);
      UnwrapAllWrapped(cs[0], rest, l, r);
      assert [cs[0]] + cs[1..] == cs;
    }
  }

  /** A wrapped part in front of parts that unwrap comes off with them. */
  lemma UnwrapAllWrapped(c: string, rest: seq<string>, l: string, r: string)
    requires UnwrapAll(rest, l, r).Some?
    ensures UnwrapAll([l + c + r] + rest, l, r) == Some([c] + UnwrapAll(rest, l, r).value)
  {
    UnwrapWrapped(c, l, r);
    assert ([l + c + r] + rest)[1..] == rest;
  }

  /** Joining pieces that lack `c` on a separator other than `c` produces no `c`. */
  lemma {:induction false} JoinFree(parts: seq<string>, sep: char, c: char)
    requires sep != c
    requires Free(parts, c)
    ensures c !in Join(parts, sep)
    decreases |parts|
  {
    if |parts| > 1 {
      JoinFree(parts[1..], sep, c);
    }
  }

  lemma FreeConcat(a: seq<string>, b: seq<string>, c: char)
    requires Free(a, c) && Free(b, c)
    ensures Free(a + b, c)
  {
    forall i | 0 <= i < |a + b|
      ensures c !in (a + b)[i]
    {
      if i >= |a| {
        assert (a + b)[i] == b[i - |a|];
      }
    }
  }
}

/** Newline-delimited framing of the relayed stream: the first piece is
    written bare, every later piece behind a `\n`, so a client that splits
    the body on `\n` recovers the pieces. */
module Framing {

  /** `parts.join("\n")`. */
  function Join(parts: seq<string>): string
  {
    if |parts| == 0 then ""
    else if |parts| == 1 then parts[0]
    else parts[0] + "\n" + Join(parts[1..])
  }

  /** `s.split("\n")`: always at least one part, and no part holds a `\n`. */
  function Split(s: string): (parts: seq<string>)
    ensures |parts| >= 1
    ensures forall i :: 0 <= i < |parts| ==> '\n' !in parts[i]
    decreases |s|
  {
    if |s| == 0 then [""]
    else if s[0] == '\n' then [""] + Split(s[1..])
    else
      var rest := Split(s[1..]);
      [[s[0]] + rest[0]] + rest[1..]
  }

  /** The text written to the stream, piece after piece. */
  function Concat(pieces: seq<string>): string
  {
    if |pieces| == 0 then "" else pieces[0] + Concat(pieces[1..])
  }

  /** The pieces the relay writes for the serialised chunks `parts`: the
      first bare, each later one behind a `\n`. */
  function Framed(parts: seq<string>): (pieces: seq<string>)
    ensures |pieces| == |parts|
  {
    seq(|parts|, i requires 0 <= i < |parts| => if i == 0 then parts[i] else "\n" + parts[i])
  }

  /** Every piece prefixed with a `\n`. */
  function Prefixed(parts: seq<string>): (pieces: seq<string>)
    ensures |pieces| == |parts|
  {
    seq(|parts|, i requires 0 <= i < |parts| => "\n" + parts[i])
  }

  lemma ConcatAppend(a: seq<string>, b: seq<string>)
    ensures Concat(a + b) == Concat(a) + Concat(b)
    decreases |a|
  {
    if |a| > 0 {
      assert (a + b)[1..] == a[1..] + b;
      ConcatAppend(a[1..], b);
    } else {
      assert a + b == b;
    }
  }

  lemma {:induction false} ConcatPrefixed(parts: seq<string>)
    requires |parts| >= 1
    ensures Concat(Prefixed(parts)) == "\n" + Join(parts)
    decreases |parts|
  {
    if |parts| > 1 {
      assert Prefixed(parts)[1..] == Prefixed(parts[1..]);
      ConcatPrefixed(parts[1..]);
    }
  }

  /** Writing the framed pieces in order produces exactly the
      newline-joined serialisation. */
  lemma {:induction false} FramedIsJoin(parts: seq<string>)
    ensures Concat(Framed(parts)) == Join(parts)
  {
    if |parts| > 1 {
      assert Framed(parts)[1..] == Prefixed(parts[1..]);
      ConcatPrefixed(parts[1..]);
    }
  }

  /** Joining the parts of a split gives the original string back. */
  lemma {:induction false} JoinSplit(s: string)
    ensures Join(Split(s)) == s
    decreases |s|
  {
    if |s| > 0 {
      JoinSplit(s[1..]);
      var rest := Split(s[1..]);
      if s[0] == '\n' {
        assert ([""] + rest)[1..] == rest;
      } else if |rest| > 1 {
        var parts := [[s[0]] + rest[0]] + rest[1..];
        assert parts[1..] == rest[1..];
        assert s == [s[0]] + s[1..];
      } else {
        assert s == [s[0]] + s[1..];
      }
    }
  }

  lemma {:induction false} SplitNoNewline(p: string)
    requires '\n' !in p
    ensures Split(p) == [p]
    decreases |p|
  {
    if |p| > 0 {
      assert '\n' !in p[1..];
      SplitNoNewline(p[1..]);
      assert p == [p[0]] + p[1..];
    }
  }

  lemma {:induction false} SplitAfterPart(p: string, rest: string)
    requires '\n' !in p
    ensures Split(p + "\n" + rest) == [p] + Split(rest)
    decreases |p|
  {
    var s := p + "\n" + rest;
    if |p| == 0 {
      assert s[1..] == rest;
    } else {
      assert '\n' !in p[1..];
      assert s[1..] == p[1..] + "\n" + rest;
      SplitAfterPart(p[1..], rest);
      assert p == [p[0]] + p[1..];
    }
  }

  /** Splitting the newline-joined body recovers the parts exactly, as long
      as there is at least one part and no part holds a raw `\n`. */
  lemma {:induction false} SplitJoin(parts: seq<string>)
    requires |parts| >= 1
    requires forall i :: 0 <= i < |parts| ==> '\n' !in parts[i]
    ensures Split(Join(parts)) == parts
    decreases |parts|
  {
    if |parts| == 1 {
      SplitNoNewline(parts[0]);
    } else {
      SplitAfterPart(parts[0], Join(parts[1..]));
      SplitJoin(parts[1..]);
      assert parts == [parts[0]] + parts[1..];
    }
  }
}

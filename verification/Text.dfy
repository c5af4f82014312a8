/**
 * Text as the parser sees it: a sequence of characters, one per byte of the UTF-8 encoding.
 * Only ASCII letters change case.
 */
module Text {
  import opened Wrappers

  function LowerChar(c: char): char {
    if 'A' <= c <= 'Z' then ((c as int) + 32) as char else c
  }

  function UpperChar(c: char): char {
    if 'a' <= c <= 'z' then ((c as int) - 32) as char else c
  }

  function ToUpper(s: string): (r: string)
    ensures |r| == |s|
  {
    seq(|s|, i requires 0 <= i < |s| => UpperChar(s[i]))
  }

  predicate EqIgnoreCase(a: string, b: string) {
    |a| == |b| && forall i :: 0 <= i < |a| ==> LowerChar(a[i]) == LowerChar(b[i])
  }

  /** Comparing without regard to case is comparing in upper case, and only the 26 letters have a case. */
  lemma EqIgnoreCaseIsUpper(a: string, b: string)
    ensures EqIgnoreCase(a, b) <==> ToUpper(a) == ToUpper(b)
    ensures forall c: char :: UpperChar(c) != c <==> 'a' <= c <= 'z'
    ensures forall c: char :: 'a' <= c <= 'z' ==> UpperChar(c) as int - 'A' as int == c as int - 'a' as int
  {
    if ToUpper(a) == ToUpper(b) {
      assert forall i :: 0 <= i < |a| ==> ToUpper(a)[i] == UpperChar(a[i]) && ToUpper(b)[i] == UpperChar(b[i]);
    }
  }

  lemma ToUpperConcat(a: string, b: string)
    ensures ToUpper(a + b) == ToUpper(a) + ToUpper(b)
  {
  }

  /** `split_once` of the source: everything before the first `needle`, and what follows it if there is one. */
  function SplitOnce(haystack: string, needle: char): (r: (string, Option<string>))
    ensures needle !in r.0
    ensures haystack == r.0 + (if r.1.Some? then [needle] + r.1.value else [])
  {
    if haystack == [] then ([], None)
    else if haystack[0] == needle then ([], Some(haystack[1..]))
    else
      var (head, tail) := SplitOnce(haystack[1..], needle);
      ([haystack[0]] + head, tail)
  }

  /** The contract of `SplitOnce` determines it: any decomposition at a first `needle` is the one it returns. */
  lemma {:induction false} SplitOnceAt(a: string, needle: char, b: string)
    requires needle !in a
    ensures SplitOnce(a + [needle] + b, needle) == (a, Some(b))
  {
    var s := a + [needle] + b;
    if a == [] {
      assert s[1..] == b;
    } else {
      assert s[1..] == a[1..] + [needle] + b;
      SplitOnceAt(a[1..], needle, b);
      assert a == [a[0]] + a[1..];
    }
  }

  lemma {:induction false} SplitOnceAbsent(a: string, needle: char)
    requires needle !in a
    ensures SplitOnce(a, needle) == (a, None)
  {
    if a == [] {
    } else {
      SplitOnceAbsent(a[1..], needle);
      assert a == [a[0]] + a[1..];
    }
  }

  /** `str::split`: the pieces between separators. Even the empty string has one (empty) piece. */
  function Split(s: string, sep: char): (r: seq<string>)
    ensures |r| > 0
    decreases |s|
  {
    var (head, tail) := SplitOnce(s, sep);
    match tail
    case None => [head]
    case Some(rest) =>
      assert |rest| < |s|;
      [head] + Split(rest, sep)
  }

  function Join(pieces: seq<string>, sep: char): string
    requires |pieces| > 0
  {
    if |pieces| == 1 then pieces[0] else pieces[0] + [sep] + Join(pieces[1..], sep)
  }

  /** Splitting undoes joining when no piece contains the separator. */
  lemma {:induction false} SplitJoin(pieces: seq<string>, sep: char)
    requires |pieces| > 0
    requires forall p :: p in pieces ==> sep !in p
    ensures Split(Join(pieces, sep), sep) == pieces
  {
    assert pieces[0] in pieces;
    if |pieces| == 1 {
      SplitOnceAbsent(pieces[0], sep);
    } else {
      SplitJoin(pieces[1..], sep);
      SplitOnceAt(pieces[0], sep, Join(pieces[1..], sep));
      assert pieces == [pieces[0]] + pieces[1..];
    }
  }

  /** Joining undoes splitting, and no piece contains the separator. */
  lemma {:induction false} JoinSplit(s: string, sep: char)
    ensures Join(Split(s, sep), sep) == s
    ensures forall p :: p in Split(s, sep) ==> sep !in p
    decreases |s|
  {
    var (head, tail) := SplitOnce(s, sep);
    if tail.Some? {
      JoinSplit(tail.value, sep);
      var pieces := Split(s, sep);
      assert pieces[1..] == Split(tail.value, sep);
    }
  }
}

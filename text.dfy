/** The few functions of Go's `strings` package that the login handler and the
    vote reader rely on: Split and Join on a one-character separator,
    lower-casing restricted to ASCII letters, and substring search. */
module Text {

  /** strings.Split(s, sep): the pieces of `s` between occurrences of `sep`.
      There is always one more piece than there are separators, so even the
      empty string splits into one (empty) piece, and no piece holds `sep`. */
  function Split(s: string, sep: char): (pieces: seq<string>)
    ensures |pieces| >= 1
    ensures forall i :: 0 <= i < |pieces| ==> sep !in pieces[i]
    decreases |s|
  {
    if s == [] then [""]
    else
      var rest := Split(s[1..], sep);
      if s[0] == sep then [""] + rest
      else [[s[0]] + rest[0]] + rest[1..]
  }

  /** strings.Join(elems, sep): the elements with one `sep` between
      neighbours; the result starts with the first element. */
  function Join(elems: seq<string>, sep: char): (s: string)
    ensures |elems| >= 1 ==> elems[0] <= s
    decreases |elems|
  {
    if |elems| == 0 then ""
    else if |elems| == 1 then elems[0]
    else elems[0] + [sep] + Join(elems[1..], sep)
  }

  /** When no element holds the separator, the joined string holds exactly one
      separator fewer than there are elements. */
  lemma {:induction false} JoinSeparators(elems: seq<string>, sep: char)
    requires |elems| >= 1
    requires forall i :: 0 <= i < |elems| ==> sep !in elems[i]
    ensures multiset(Join(elems, sep))[sep] == |elems| - 1
    decreases |elems|
  {
    if |elems| > 1 {
      JoinSeparators(elems[1..], sep);
      var rest := Join(elems[1..], sep);
      assert multiset(elems[0] + [sep] + rest) == multiset(elems[0]) + multiset([sep]) + multiset(rest);
    }
  }

  /** Splitting and re-joining on the same separator gives back the input. */
  lemma {:induction false} JoinSplit(s: string, sep: char)
    ensures Join(Split(s, sep), sep) == s
    decreases |s|
  {
    if s != [] {
      var rest := Split(s[1..], sep);
      JoinSplit(s[1..], sep);
      if s[0] == sep {
        assert ([""] + rest)[1..] == rest;
      } else if |rest| > 1 {
        assert ([[s[0]] + rest[0]] + rest[1..])[1..] == rest[1..];
        assert s == [s[0]] + s[1..];
      } else {
        assert s == [s[0]] + s[1..];
      }
    }
  }

  /** A string with no separator in it is a single piece. */
  lemma {:induction false} SplitWithoutSeparator(s: string, sep: char)
    requires sep !in s
    ensures Split(s, sep) == [s]
    decreases |s|
  {
    if s != [] {
      assert sep !in s[1..];
      SplitWithoutSeparator(s[1..], sep);
      assert s == [s[0]] + s[1..];
    }
  }

  /** One separator between `a` and `b` splits them apart: the pieces of the
      whole are the pieces of `a` followed by the pieces of `b`. */
  lemma {:induction false} SplitAround(a: string, b: string, sep: char)
    ensures Split(a + [sep] + b, sep) == Split(a, sep) + Split(b, sep)
    decreases |a|
  {
    var whole := a + [sep] + b;
    if a == [] {
      assert whole[1..] == b;
    } else {
      assert whole[0] == a[0];
      assert whole[1..] == a[1..] + [sep] + b;
      SplitAround(a[1..], b, sep);
      SplitPrepend(a, whole, Split(b, sep), sep);
    }
  }

  /** The step of SplitAround: `a` and `whole` start with the same character,
      and the pieces of what follows it in `whole` are those of what follows
      it in `a`, then `tail`. */
  lemma SplitPrepend(a: string, whole: string, tail: seq<string>, sep: char)
    requires a != [] && whole != [] && whole[0] == a[0]
    requires Split(whole[1..], sep) == Split(a[1..], sep) + tail
    ensures Split(whole, sep) == Split(a, sep) + tail
  {
    var ra := Split(a[1..], sep);
    if a[0] == sep {
      PiecesAssoc([""], ra, tail);
    } else {
      ExtendFirstPiece(a[0], ra, tail);
    }
  }

  lemma PiecesAssoc(p: seq<string>, q: seq<string>, r: seq<string>)
    ensures p + (q + r) == (p + q) + r
  {
  }

  /** Gluing a character onto the first piece commutes with appending pieces
      behind the last. */
  lemma ExtendFirstPiece(c: char, ra: seq<string>, tail: seq<string>)
    requires |ra| >= 1
    ensures [[c] + (ra + tail)[0]] + (ra + tail)[1..] == ([[c] + ra[0]] + ra[1..]) + tail
  {
    assert (ra + tail)[0] == ra[0];
    assert (ra + tail)[1..] == ra[1..] + tail;
  }

  /** Joining elements free of the separator and splitting again gives back
      the elements. (An empty list does not survive: it joins to "", which
      splits into one empty piece.) */
  lemma {:induction false} SplitJoin(elems: seq<string>, sep: char)
    requires |elems| >= 1
    requires forall i :: 0 <= i < |elems| ==> sep !in elems[i]
    ensures Split(Join(elems, sep), sep) == elems
    decreases |elems|
  {
    SplitWithoutSeparator(elems[0], sep);
    if |elems| > 1 {
      SplitJoin(elems[1..], sep);
      SplitAround(elems[0], Join(elems[1..], sep), sep);
      assert [elems[0]] + elems[1..] == elems;
    }
  }

  /** There is exactly one more piece than there are separators. */
  lemma {:induction false} SplitCount(s: string, sep: char)
    ensures |Split(s, sep)| == multiset(s)[sep] + 1
    decreases |s|
  {
    if s != [] {
      SplitCount(s[1..], sep);
      assert s == [s[0]] + s[1..];
      assert multiset(s) == multiset([s[0]]) + multiset(s[1..]);
    }
  }

  lemma Assoc(a: string, b: string, c: string)
    ensures (a + b) + c == a + (b + c)
  {
  }

  /** unicode.ToLower restricted to ASCII: 'A'..'Z' become 'a'..'z'. */
  function LowerChar(c: char): char
  {
    if 'A' <= c <= 'Z' then (c as int + 32) as char else c
  }

  /** strings.ToLower restricted to ASCII letters. */
  function ToLower(s: string): (r: string)
    ensures |r| == |s|
    ensures forall i :: 0 <= i < |s| ==> r[i] == LowerChar(s[i])
  {
    seq(|s|, i requires 0 <= i < |s| => LowerChar(s[i]))
  }

  /** Lower-casing twice is lower-casing once, and no upper-case ASCII letter
      survives it. */
  lemma ToLowerIdempotent(s: string)
    ensures ToLower(ToLower(s)) == ToLower(s)
    ensures forall i :: 0 <= i < |s| ==> !('A' <= ToLower(s)[i] <= 'Z')
  {
  }

  /** `sub` occurs in `s` starting at index `i`. */
  ghost predicate OccursAt(s: string, sub: string, i: int)
  {
    0 <= i && i + |sub| <= |s| && s[i..i + |sub|] == sub
  }

  /** strings.Contains(s, sub), searching from the left: never true of a
      substring longer than `s`, always true of a prefix of `s` (the empty
      string among them). ContainsIffOccurs states it in full. */
  function Contains(s: string, sub: string): (found: bool)
    ensures found ==> |sub| <= |s|
    ensures |sub| <= |s| && s[..|sub|] == sub ==> found
    decreases |s|
  {
    if |sub| > |s| then false
    else if s[..|sub|] == sub then true
    else Contains(s[1..], sub)
  }

  /** Contains answers exactly whether `sub` occurs somewhere in `s`. */
  lemma {:induction false} ContainsIffOccurs(s: string, sub: string)
    ensures Contains(s, sub) <==> exists i :: OccursAt(s, sub, i)
    decreases |s|
  {
    if |sub| > |s| {
      assert forall i :: !OccursAt(s, sub, i);
    } else if s[..|sub|] == sub {
      assert OccursAt(s, sub, 0);
    } else {
      ContainsIffOccurs(s[1..], sub);
      if Contains(s[1..], sub) {
        var j :| OccursAt(s[1..], sub, j);
        SliceOfTail(s, j, j + |sub|);
        assert OccursAt(s, sub, j + 1);
      } else {
        forall i | OccursAt(s, sub, i)
          ensures false
        {
          assert i != 0;
          SliceOfTail(s, i - 1, i - 1 + |sub|);
          assert OccursAt(s[1..], sub, i - 1);
        }
      }
    }
  }

  /** A slice of the tail of `s` is the slice of `s` one position further on. */
  lemma SliceOfTail(s: string, lo: nat, hi: nat)
    requires s != [] && lo <= hi <= |s| - 1
    ensures s[1..][lo..hi] == s[lo + 1..hi + 1]
  {
    assert forall k :: 0 <= k < hi - lo ==> s[1..][lo..hi][k] == s[lo + 1 + k];
  }
}

/** The parts of Go's `strings` package and of Go's string `len` that the
    handlers rely on, over strings modelled as sequences of Unicode scalar
    values. `strings.HasPrefix(s, p)` is Dafny's own sequence-prefix test
    `p <= s` and needs no definition here. */
module Text {

  /** `strings.Contains(s, sub)`: `sub` occurs somewhere in `s`. */
  function Contains(s: string, sub: string): bool
    decreases |s|
  {
    if sub <= s then true
    else if s == [] then false
    else Contains(s[1..], sub)
  }

  /** `sub` starts at position `i` of `s`. */
  ghost predicate OccursAt(s: string, sub: string, i: nat)
  {
    i + |sub| <= |s| && s[i..i + |sub|] == sub
  }

  /** An occurrence past the first position is an occurrence in the tail. */
  lemma OccursInTail(s: string, sub: string, i: nat)
    requires s != [] && 0 < i
    ensures OccursAt(s, sub, i) <==> OccursAt(s[1..], sub, i - 1)
  {
  }

  /** `Contains` means exactly "occurs at some position", in both directions. */
  lemma {:induction false} ContainsIffOccurs(s: string, sub: string)
    ensures Contains(s, sub) <==> exists i: nat :: OccursAt(s, sub, i)
    decreases |s|
  {
    assert OccursAt(s, sub, 0) <==> sub <= s;
    if sub <= s {
      assert OccursAt(s, sub, 0);
    } else if s == [] {
      forall i: nat ensures !OccursAt(s, sub, i) {
      }
    } else {
      ContainsIffOccurs(s[1..], sub);
      if Contains(s[1..], sub) {
        var i: nat :| OccursAt(s[1..], sub, i);
        OccursInTail(s, sub, i + 1);
      } else {
        forall i: nat ensures !OccursAt(s, sub, i) {
          if 0 < i {
            OccursInTail(s, sub, i);
          }
        }
      }
    }
  }

  /** A string never contains anything longer than itself. */
  lemma {:induction false} NotContainsLonger(s: string, sub: string)
    requires |sub| > |s|
    ensures !Contains(s, sub)
    decreases |s|
  {
    if s != [] {
      NotContainsLonger(s[1..], sub);
    }
  }

  /** A string contains each of its prefixes. */
  lemma ContainsPrefix(s: string, p: string)
    requires p <= s
    ensures Contains(s, p)
  {
  }

  /** Number of bytes Go's UTF-8 encoding uses for one Unicode scalar value. */
  function RuneWidth(c: char): (w: nat)
    ensures 1 <= w <= 4
    ensures w == 1 <==> (c as int) < 0x80
    ensures w == 2 <==> 0x80 <= (c as int) < 0x800
    ensures w == 3 <==> 0x800 <= (c as int) < 0x1_0000
    ensures w == 4 <==> 0x1_0000 <= (c as int)
  {
    if (c as int) < 0x80 then 1
    else if (c as int) < 0x800 then 2
    else if (c as int) < 0x1_0000 then 3
    else 4
  }

  /** Go's `len(s)` on a string: its length in UTF-8 bytes, not in characters. */
  function ByteLength(s: string): (n: nat)
    ensures |s| <= n <= 4 * |s|
    ensures n == |s| <==> forall i :: 0 <= i < |s| ==> (s[i] as int) < 0x80
    ensures |s| == 1 ==> n == RuneWidth(s[0])
  {
    if s == [] then 0
    else
      var rest := ByteLength(s[1..]);
      assert forall i :: 1 <= i < |s| ==> s[i] == s[1..][i - 1];
      RuneWidth(s[0]) + rest
  }

  /** Total number of characters in `xs`. */
  function TotalLength(xs: seq<string>): nat
  {
    if xs == [] then 0 else |xs[0]| + TotalLength(xs[1..])
  }

  /** `strings.Join(xs, sep)`: the elements in order, with one separator
      between each adjacent pair and none at either end. */
  function Join(xs: seq<string>, sep: string): (r: string)
    ensures xs == [] ==> r == []
    ensures xs != [] ==> xs[0] <= r
    ensures |xs| == 1 ==> r == xs[0]
    ensures xs != [] ==> |r| == TotalLength(xs) + (|xs| - 1) * |sep|
  {
    if xs == [] then ""
    else if |xs| == 1 then xs[0]
    else
      var rest := Join(xs[1..], sep);
      assert (|xs| - 1) * |sep| == |sep| + (|xs| - 2) * |sep|;
      xs[0] + sep + rest
  }

  /** The byte length of a concatenation is the sum of the byte lengths; with
      the one-character case of `ByteLength` this fixes its value as the sum
      of the characters' UTF-8 widths. */
  lemma {:induction false} ByteLengthAppend(a: string, b: string)
    ensures ByteLength(a + b) == ByteLength(a) + ByteLength(b)
    decreases |a|
  {
    if a != [] {
      assert (a + b)[1..] == a[1..] + b;
      ByteLengthAppend(a[1..], b);
    } else {
      assert a + b == b;
    }
  }

  /** A string of two-byte characters has twice as many bytes as
      characters: nine `\U{E9}` are eighteen bytes, which Go's `len` counts as
      long enough for a channel ID although they are nine characters. */
  lemma {:induction false} TwoByteCharacters(s: string)
    requires forall i :: 0 <= i < |s| ==> 0x80 <= (s[i] as int) < 0x800
    ensures ByteLength(s) == 2 * |s|
    decreases |s|
  {
    if s != [] {
      assert forall i :: 0 <= i < |s[1..]| ==> s[1..][i] == s[i + 1];
      TwoByteCharacters(s[1..]);
    }
  }

  /** Appending one element to a non-empty list appends one separator and the
      element: with the empty and one-element cases of `Join`, this fixes the
      joined string as the elements in order with a separator between each
      adjacent pair. */
  lemma {:induction false} JoinSnoc(xs: seq<string>, x: string, sep: string)
    requires xs != []
    ensures Join(xs + [x], sep) == Join(xs, sep) + sep + x
    decreases |xs|
  {
    if |xs| == 1 {
      assert xs + [x] == [xs[0], x];
      assert (xs + [x])[1..] == [x];
    } else {
      assert (xs + [x])[1..] == xs[1..] + [x];
      JoinSnoc(xs[1..], x, sep);
    }
  }

  /** Whatever `s` contains, any extension of `s` on the left contains too. */
  lemma ContainsAfter(p: string, s: string, sub: string)
    requires Contains(s, sub)
    ensures Contains(p + s, sub)
  {
    ContainsIffOccurs(s, sub);
    var i: nat :| OccursAt(s, sub, i);
    assert (p + s)[|p| + i..|p| + i + |sub|] == s[i..i + |sub|];
    assert OccursAt(p + s, sub, |p| + i);
    ContainsIffOccurs(p + s, sub);
  }

  /** Every element of a joined list occurs in the joined string. */
  lemma {:induction false} JoinContainsEvery(xs: seq<string>, sep: string)
    ensures forall i | 0 <= i < |xs| :: Contains(Join(xs, sep), xs[i])
  {
    if |xs| >= 2 {
      JoinContainsEvery(xs[1..], sep);
      var rest := Join(xs[1..], sep);
      assert Join(xs, sep) == xs[0] + (sep + rest);
      forall i | 0 <= i < |xs|
        ensures Contains(Join(xs, sep), xs[i])
      {
        if i == 0 {
          ContainsPrefix(Join(xs, sep), xs[0]);
        } else {
          assert xs[i] == xs[1..][i - 1];
          ContainsAfter(xs[0] + sep, rest, xs[i]);
          assert (xs[0] + sep) + rest == Join(xs, sep);
        }
      }
    } else if |xs| == 1 {
      ContainsPrefix(Join(xs, sep), xs[0]);
    }
  }
}

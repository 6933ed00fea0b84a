/**
 * The three Python string built-ins the contact-form handler relies on:
 * `sep.join(parts)`, `s.replace(chr(10), '<br>')` and `str(n)` for a
 * non-negative integer. Each comes with a partner (a splitter, an undo of the
 * replacement, a decimal parser) and the lemma that ties the two together.
 * Beside them, f-string interpolation (`Fill`) with the text before and after
 * each value (`Before`, `After`) and the lemmas that locate every value.
 */
module Text {

  // ---------------------------------------------------------------------------
  // str.join

  /** Sum of the lengths of `parts`. */
  function TotalLength(parts: seq<string>): nat
  {
    if parts == [] then 0 else |parts[0]| + TotalLength(parts[1..])
  }

  /** Python's `sep.join(parts)`. */
  function Join(parts: seq<string>, sep: string): (r: string)
    ensures parts == [] ==> r == ""
    ensures |parts| == 1 ==> r == parts[0]
    ensures parts != [] ==> |r| == TotalLength(parts) + |sep| * (|parts| - 1)
  {
    if parts == [] then ""
    else if |parts| == 1 then parts[0]
    else parts[0] + sep + Join(parts[1..], sep)
  }

  /** Position in `Join(parts, sep)` at which `parts[i]` starts. */
  function JoinOffset(parts: seq<string>, sep: string, i: nat): nat
    requires i <= |parts|
  {
    if i == 0 then 0 else |parts[0]| + |sep| + JoinOffset(parts[1..], sep, i - 1)
  }

  /** A slice of `b` is the same slice of `a + b`, shifted by `|a|`. */
  lemma SliceAfter(a: string, b: string, i: nat, j: nat)
    requires i <= j <= |b|
    ensures |a| + j <= |a + b| && (a + b)[|a| + i..|a| + j] == b[i..j]
  {
  }

  /** Every part appears, verbatim, in the joined string at its offset. */
  lemma {:induction false} JoinContainsPart(parts: seq<string>, sep: string, i: nat)
    requires i < |parts|
    ensures JoinOffset(parts, sep, i) + |parts[i]| <= |Join(parts, sep)|
    ensures Join(parts, sep)[JoinOffset(parts, sep, i)..JoinOffset(parts, sep, i) + |parts[i]|] == parts[i]
  {
    if |parts| > 1 {
      var head := parts[0] + sep;
      var rest := Join(parts[1..], sep);
      assert Join(parts, sep) == head + rest;
      if i > 0 {
        JoinContainsPart(parts[1..], sep, i - 1);
        assert parts[1..][i - 1] == parts[i];
        var k := JoinOffset(parts[1..], sep, i - 1);
        assert JoinOffset(parts, sep, i) == |head| + k;
        SliceAfter(head, rest, k, k + |parts[i]|);
      } else {
        SliceAfter([], parts[0] + sep + rest, 0, |parts[0]|);
        assert (head + rest)[..|parts[0]|] == parts[0];
      }
    }
  }

  /**
   * Python's `s.split(sep)` for a non-empty separator: the pieces between the
   * leftmost non-overlapping occurrences of `sep`.
   */
  function Split(s: string, sep: string): (r: seq<string>)
    requires sep != ""
    ensures |r| >= 1
    decreases |s|
  {
    if |sep| <= |s| && s[..|sep|] == sep then [""] + Split(s[|sep|..], sep)
    else if s == [] then [""]
    else
      var tail := Split(s[1..], sep);
      [[s[0]] + tail[0]] + tail[1..]
  }

  /** No part contains the first character of the separator. */
  predicate FreeOfSeparator(parts: seq<string>, sep: string)
    requires sep != ""
  {
    forall i :: 0 <= i < |parts| ==> sep[0] !in parts[i]
  }

  lemma {:induction false} SplitWithoutSeparator(c: string, sep: string)
    requires sep != "" && sep[0] !in c
    ensures Split(c, sep) == [c]
    decreases |c|
  {
    if c != [] {
      assert c[1..] == c[1..] && sep[0] !in c[1..] by {
        forall x | x in c[1..] ensures x in c { }
      }
      SplitWithoutSeparator(c[1..], sep);
      assert [c[0]] + c[1..] == c;
    }
  }

  lemma {:induction false} SplitAfterPart(c: string, sep: string, t: string)
    requires sep != "" && sep[0] !in c
    ensures Split(c + sep + t, sep) == [c] + Split(t, sep)
    decreases |c|
  {
    var s := c + sep + t;
    if c == [] {
      assert s == sep + t;
      assert s[..|sep|] == sep;
      assert s[|sep|..] == t;
    } else {
      assert s[0] == c[0] != sep[0];
      assert s[1..] == c[1..] + sep + t;
      assert sep[0] !in c[1..] by {
        forall x | x in c[1..] ensures x in c { }
      }
      SplitAfterPart(c[1..], sep, t);
      assert [c[0]] + c[1..] == c;
    }
  }

  /** Splitting undoes joining when no part contains the separator. */
  lemma {:induction false} SplitJoin(parts: seq<string>, sep: string)
    requires sep != "" && parts != []
    requires FreeOfSeparator(parts, sep)
    ensures Split(Join(parts, sep), sep) == parts
  {
    assert sep[0] !in parts[0];
    if |parts| == 1 {
      SplitWithoutSeparator(parts[0], sep);
    } else {
      assert FreeOfSeparator(parts[1..], sep) by {
        forall i | 0 <= i < |parts[1..]| ensures sep[0] !in parts[1..][i] {
          assert parts[1..][i] == parts[i + 1];
        }
      }
      SplitJoin(parts[1..], sep);
      SplitAfterPart(parts[0], sep, Join(parts[1..], sep));
      assert [parts[0]] + parts[1..] == parts;
    }
  }

  // ---------------------------------------------------------------------------
  // f-string interpolation

  /**
   * An f-string: literal chunks with one interpolated value between each pair
   * of neighbours. Without values it is its only chunk.
   */
  function Fill(chunks: seq<string>, holes: seq<string>): (r: string)
    requires |chunks| == |holes| + 1
    ensures holes == [] ==> r == chunks[0]
  {
    if holes == [] then chunks[0]
    else chunks[0] + holes[0] + Fill(chunks[1..], holes[1..])
  }

  /** An f-string is as long as all its chunks and all its values together. */
  lemma {:induction false} FillLength(chunks: seq<string>, holes: seq<string>)
    requires |chunks| == |holes| + 1
    ensures |Fill(chunks, holes)| == TotalLength(chunks) + TotalLength(holes)
  {
    if holes != [] {
      FillLength(chunks[1..], holes[1..]);
    } else {
      assert chunks[1..] == [];
    }
  }

  /** The text of `Fill(chunks, holes)` before `holes[i]`. */
  function Before(chunks: seq<string>, holes: seq<string>, i: nat): string
    requires |chunks| == |holes| + 1 && i < |holes|
  {
    if i == 0 then chunks[0]
    else chunks[0] + holes[0] + Before(chunks[1..], holes[1..], i - 1)
  }

  /** The text of `Fill(chunks, holes)` after `holes[i]`. */
  function After(chunks: seq<string>, holes: seq<string>, i: nat): string
    requires |chunks| == |holes| + 1 && i < |holes|
  {
    if i == 0 then Fill(chunks[1..], holes[1..])
    else After(chunks[1..], holes[1..], i - 1)
  }

  /** Every interpolated value sits, verbatim, between the text before it and the text after it. */
  lemma {:induction false} FillSplit(chunks: seq<string>, holes: seq<string>, i: nat)
    requires |chunks| == |holes| + 1 && i < |holes|
    ensures Fill(chunks, holes) == Before(chunks, holes, i) + holes[i] + After(chunks, holes, i)
  {
    if i > 0 {
      FillSplit(chunks[1..], holes[1..], i - 1);
      assert holes[1..][i - 1] == holes[i];
    }
  }

  /** The text around a value does not depend on that value. */
  lemma {:induction false} SurroundingsIgnoreHole(chunks: seq<string>, holes: seq<string>, i: nat, v: string)
    requires |chunks| == |holes| + 1 && i < |holes|
    ensures Before(chunks, holes[i := v], i) == Before(chunks, holes, i)
    ensures After(chunks, holes[i := v], i) == After(chunks, holes, i)
  {
    var holes' := holes[i := v];
    if i == 0 {
      assert holes'[1..] == holes[1..];
    } else {
      assert holes'[0] == holes[0];
      assert holes'[1..] == holes[1..][i - 1 := v];
      SurroundingsIgnoreHole(chunks[1..], holes[1..], i - 1, v);
    }
  }

  /**
   * Changing one interpolated value changes only its own stretch of the text:
   * the new text is the old text around it with the new value in between.
   */
  lemma FillReplaceHole(chunks: seq<string>, holes: seq<string>, i: nat, v: string)
    requires |chunks| == |holes| + 1 && i < |holes|
    ensures Fill(chunks, holes) == Before(chunks, holes, i) + holes[i] + After(chunks, holes, i)
    ensures Fill(chunks, holes[i := v]) == Before(chunks, holes, i) + v + After(chunks, holes, i)
  {
    FillSplit(chunks, holes, i);
    FillSplit(chunks, holes[i := v], i);
    SurroundingsIgnoreHole(chunks, holes, i, v);
  }

  /** Two value lists that differ at most at `i` produce the same text around it. */
  lemma FillAgreeingHoles(chunks: seq<string>, plain: seq<string>, holes: seq<string>, i: nat)
    requires |chunks| == |plain| + 1 && |plain| == |holes| && i < |holes|
    requires forall j | 0 <= j < |holes| && j != i :: plain[j] == holes[j]
    ensures Fill(chunks, plain) == Before(chunks, plain, i) + plain[i] + After(chunks, plain, i)
    ensures Fill(chunks, holes) == Before(chunks, plain, i) + holes[i] + After(chunks, plain, i)
  {
    assert plain[i := holes[i]] == holes;
    FillReplaceHole(chunks, plain, i, holes[i]);
  }

  /** A slice of `b` is the same slice of `a + b + c`, shifted by `|a|`. */
  lemma SliceWithin(a: string, b: string, c: string, i: nat, j: nat)
    requires i <= j <= |b|
    ensures |a| + j <= |a + b + c| && (a + b + c)[|a| + i..|a| + j] == b[i..j]
  {
    assert (a + b + c)[|a|..|a| + |b|] == b by {
      assert (a + b + c)[..|a| + |b|] == a + b;
    }
  }

  /** Every interpolated value appears verbatim at its position. */
  lemma FillHasHole(chunks: seq<string>, holes: seq<string>, i: nat)
    requires |chunks| == |holes| + 1 && i < |holes|
    ensures var k := |Before(chunks, holes, i)|;
            k + |holes[i]| <= |Fill(chunks, holes)| && Fill(chunks, holes)[k..k + |holes[i]|] == holes[i]
  {
    FillSplit(chunks, holes, i);
    SliceWithin(Before(chunks, holes, i), holes[i], After(chunks, holes, i), 0, |holes[i]|);
  }

  // ---------------------------------------------------------------------------
  // str.replace(chr(10), '<br>')

  const LineBreakTag := "<br>"

  /** Python's `s.replace(chr(10), '<br>')`: every newline becomes a break tag. */
  function ReplaceNewlines(s: string): (r: string)
    ensures '\n' !in r
    ensures '\n' !in s ==> r == s
  {
    if s == [] then ""
    else (if s[0] == '\n' then LineBreakTag else [s[0]]) + ReplaceNewlines(s[1..])
  }

  /** Each newline grows the text by three characters; nothing else changes length. */
  lemma {:induction false} ReplaceNewlinesLength(s: string)
    ensures |ReplaceNewlines(s)| == |s| + 3 * multiset(s)['\n']
  {
    if s != [] {
      ReplaceNewlinesLength(s[1..]);
      assert s == [s[0]] + s[1..];
      assert multiset(s) == multiset{s[0]} + multiset(s[1..]);
    }
  }

  /** The replacement works character by character, so it distributes over concatenation. */
  lemma {:induction false} ReplaceNewlinesAppend(a: string, b: string)
    ensures ReplaceNewlines(a + b) == ReplaceNewlines(a) + ReplaceNewlines(b)
  {
    if a == [] {
      assert a + b == b;
    } else {
      assert (a + b)[0] == a[0];
      assert (a + b)[1..] == a[1..] + b;
      ReplaceNewlinesAppend(a[1..], b);
    }
  }

  /** Turns every `<br>` back into a newline, scanning left to right. */
  function RestoreNewlines(r: string): string
  {
    if |r| >= 4 && r[..4] == LineBreakTag then "\n" + RestoreNewlines(r[4..])
    else if r == [] then ""
    else [r[0]] + RestoreNewlines(r[1..])
  }

  /** A leading `<br>` turns back into a newline. */
  lemma RestoreAfterTag(rest: string)
    ensures RestoreNewlines(LineBreakTag + rest) == "\n" + RestoreNewlines(rest)
  {
    var r := LineBreakTag + rest;
    assert r[..4] == LineBreakTag && r[4..] == rest;
  }

  /** A leading character other than `<` is kept as it is. */
  lemma RestoreAfterChar(c: char, rest: string)
    requires c != '<'
    ensures RestoreNewlines([c] + rest) == [c] + RestoreNewlines(rest)
  {
    var r := [c] + rest;
    assert r[0] == c && r[1..] == rest;
    assert LineBreakTag[0] == '<';
    assert |r| >= 4 ==> r[..4][0] == c;
  }

  /** A message without `<` can be recovered from its rendered form. */
  lemma {:induction false} RestoreReplaceNewlines(s: string)
    requires '<' !in s
    ensures RestoreNewlines(ReplaceNewlines(s)) == s
  {
    if s != [] {
      assert '<' !in s[1..] by {
        forall x | x in s[1..] ensures x in s { }
      }
      RestoreReplaceNewlines(s[1..]);
      if s[0] == '\n' {
        RestoreAfterTag(ReplaceNewlines(s[1..]));
      } else {
        RestoreAfterChar(s[0], ReplaceNewlines(s[1..]));
      }
      assert [s[0]] + s[1..] == s;
    }
  }

  /** Without that condition the replacement loses information. */
  lemma ReplaceNewlinesNotInjective()
    ensures ReplaceNewlines("\n") == ReplaceNewlines(LineBreakTag)
  {
    assert ReplaceNewlines("\n") == LineBreakTag + ReplaceNewlines("");
    var tag := LineBreakTag;
    assert '\n' !in tag by {
      assert tag == ['<', 'b', 'r', '>'];
    }
  }

  // ---------------------------------------------------------------------------
  // str(n) for n >= 0

  function DigitChar(d: nat): (c: char)
    requires d < 10
    ensures '0' <= c <= '9'
  {
    ('0' as int + d) as char
  }

  predicate IsDigits(s: string)
  {
    forall i :: 0 <= i < |s| ==> '0' <= s[i] <= '9'
  }

  /** Python's `str(n)`: decimal digits, no sign, no leading zero. */
  function NatToString(n: nat): (s: string)
    ensures s != [] && IsDigits(s)
    ensures |s| > 1 ==> s[0] != '0'
  {
    if n < 10 then [DigitChar(n)] else NatToString(n / 10) + [DigitChar(n % 10)]
  }

  /** The value of a string of decimal digits. */
  function ParseDecimal(s: string): nat
    requires IsDigits(s)
  {
    if s == [] then 0
    else 10 * ParseDecimal(s[..|s| - 1]) + (s[|s| - 1] as int - '0' as int)
  }

  lemma {:induction false} ParseNatToString(n: nat)
    ensures ParseDecimal(NatToString(n)) == n
  {
    if n >= 10 {
      ParseNatToString(n / 10);
      var s := NatToString(n);
      assert s[..|s| - 1] == NatToString(n / 10);
    }
  }

  /** Distinct numbers print differently. */
  lemma NatToStringInjective(m: nat, n: nat)
    requires NatToString(m) == NatToString(n)
    ensures m == n
  {
    ParseNatToString(m);
    ParseNatToString(n);
  }
}

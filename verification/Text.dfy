/** Strings as the Python and Rust sources use them: whitespace splitting, joining, trimming, lower-casing. */
module Text {
  import opened Sequences

  predicate IsSpace(c: char)
  {
    c == ' ' || c == '\n' || c == '\t' || c == '\r'
  }

  predicate IsWord(w: string)
  {
    w != [] && forall i :: 0 <= i < |w| ==> !IsSpace(w[i])
  }

  /** Length of the leading run of non-space characters. */
  function WordLength(s: string): (k: nat)
    ensures k <= |s|
    ensures forall i :: 0 <= i < k ==> !IsSpace(s[i])
    ensures k < |s| ==> IsSpace(s[k])
  {
    if s == [] || IsSpace(s[0]) then 0 else 1 + WordLength(s[1..])
  }

  /** `text.split()`: the maximal runs of non-space characters. */
  function Words(s: string): (r: seq<string>)
    decreases |s|
  {
    if s == [] then []
    else if IsSpace(s[0]) then Words(s[1..])
    else var k := WordLength(s); [s[..k]] + Words(s[k..])
  }

  lemma {:induction false} WordsAreWords(s: string)
    ensures forall i :: 0 <= i < |Words(s)| ==> IsWord(Words(s)[i])
    decreases |s|
  {
    if s != [] {
      WordsAreWords(if IsSpace(s[0]) then s[1..] else s[WordLength(s)..]);
    }
  }

  /** `sep.join(parts)` for a one-character separator. */
  function Join(sep: char, parts: seq<string>): (r: string)
  {
    if parts == [] then []
    else if |parts| == 1 then parts[0]
    else parts[0] + [sep] + Join(sep, parts[1..])
  }

  function WordsOfAll(parts: seq<string>): (r: seq<seq<string>>)
    ensures |r| == |parts|
    ensures forall i :: 0 <= i < |r| ==> r[i] == Words(parts[i])
  {
    seq(|parts|, i requires 0 <= i < |parts| => Words(parts[i]))
  }

  lemma {:induction false} WordsOfWord(w: string)
    requires IsWord(w)
    ensures Words(w) == [w]
  {
    assert WordLength(w) == |w|;
    assert w[..|w|] == w && w[|w|..] == [];
  }

  lemma {:induction false} WordLengthConcat(a: string, b: string)
    requires b == [] || IsSpace(b[0])
    ensures WordLength(a + b) == WordLength(a)
  {
    if a == [] {
      assert a + b == b;
    } else if !IsSpace(a[0]) {
      assert (a + b)[1..] == a[1..] + b;
      WordLengthConcat(a[1..], b);
    }
  }

  /** Splitting is a homomorphism at every separator. */
  lemma {:induction false} WordsConcat(a: string, sep: char, b: string)
    requires IsSpace(sep)
    ensures Words(a + [sep] + b) == Words(a) + Words(b)
    decreases |a|
  {
    var s := a + [sep] + b;
    if a == [] {
      assert s[0] == sep && s[1..] == b;
    } else if IsSpace(a[0]) {
      assert s[0] == a[0] && s[1..] == a[1..] + [sep] + b;
      WordsConcat(a[1..], sep, b);
    } else {
      var k := WordLength(a);
      assert s == a + ([sep] + b);
      WordLengthConcat(a, [sep] + b);
      assert s[0] == a[0];
      assert s[..k] == a[..k] && s[k..] == a[k..] + [sep] + b;
      WordsConcat(a[k..], sep, b);
      assert Words(s) == [a[..k]] + (Words(a[k..]) + Words(b));
    }
  }

  /** Splitting a join gives back the words of the parts, in order. */
  lemma {:induction false} WordsOfJoin(sep: char, parts: seq<string>)
    requires IsSpace(sep)
    ensures Words(Join(sep, parts)) == Flatten(WordsOfAll(parts))
  {
    if parts != [] {
      assert WordsOfAll(parts)[1..] == WordsOfAll(parts[1..]);
      if |parts| == 1 {
        assert parts[1..] == [];
      } else {
        WordsConcat(parts[0], sep, Join(sep, parts[1..]));
        WordsOfJoin(sep, parts[1..]);
      }
    }
  }

  /** Blank, newline, tab and carriage return each part two words. */
  lemma {:induction false} BlanksPartWords(c: char, v: string, w: string)
    requires c == ' ' || c == '\n' || c == '\t' || c == '\r'
    requires IsWord(v) && IsWord(w)
    ensures Words(v + [c] + w) == [v, w]
  {
    hide Words, IsWord;
    WordsConcat(v, c, w);
    WordsOfWord(v);
    WordsOfWord(w);
  }

  /** `" ".join(ws).split() == ws` for a list of words. */
  lemma {:induction false} SplitOfJoinedWords(ws: seq<string>)
    requires forall i :: 0 <= i < |ws| ==> IsWord(ws[i])
    ensures Words(Join(' ', ws)) == ws
  {
    if ws != [] {
      WordsOfWord(ws[0]);
      if |ws| > 1 {
        WordsConcat(ws[0], ' ', Join(' ', ws[1..]));
        SplitOfJoinedWords(ws[1..]);
      }
    }
  }

  function StripLeft(s: string): (r: string)
    ensures |r| <= |s|
    ensures r != [] ==> !IsSpace(r[0])
    ensures r == [] <==> forall i :: 0 <= i < |s| ==> IsSpace(s[i])
  {
    if s != [] && IsSpace(s[0]) then StripLeft(s[1..]) else s
  }

  function StripRight(s: string): (r: string)
    ensures |r| <= |s|
    ensures r == [] <==> forall i :: 0 <= i < |s| ==> IsSpace(s[i])
  {
    if s != [] && IsSpace(s[|s| - 1]) then StripRight(s[..|s| - 1]) else s
  }

  function Strip(s: string): (r: string)
    ensures r == [] <==> forall i :: 0 <= i < |s| ==> IsSpace(s[i])
  {
    var l := StripLeft(s);
    assert l == [] <==> forall i :: 0 <= i < |l| ==> IsSpace(l[i]);
    StripRight(l)
  }

  /** Stripping cuts blanks off both ends and nothing else: what is left starts and ends with a character that is not blank. */
  lemma {:induction false} StripCutsBlanks(s: string) returns (lo: nat, hi: nat)
    ensures lo <= hi <= |s| && Strip(s) == s[lo..hi]
    ensures forall i :: 0 <= i < lo || hi <= i < |s| ==> IsSpace(s[i])
    ensures lo < hi ==> !IsSpace(s[lo]) && !IsSpace(s[hi - 1])
  {
    lo := CutLeft(s);
    var n := CutRight(s[lo..]);
    hi := lo + n;
    assert s[lo..][..n] == s[lo..hi];
    forall i | hi <= i < |s| ensures IsSpace(s[i]) {
      assert s[i] == s[lo..][i - lo];
    }
  }

  lemma {:induction false} CutLeft(s: string) returns (lo: nat)
    ensures lo <= |s| && StripLeft(s) == s[lo..]
    ensures forall i :: 0 <= i < lo ==> IsSpace(s[i])
    ensures lo < |s| ==> !IsSpace(s[lo])
  {
    if s != [] && IsSpace(s[0]) {
      lo := CutLeft(s[1..]);
      forall i | 0 <= i < lo + 1 ensures IsSpace(s[i]) {
        if i > 0 { assert s[i] == s[1..][i - 1]; }
      }
      lo := lo + 1;
    } else {
      lo := 0;
    }
  }

  lemma {:induction false} CutRight(s: string) returns (n: nat)
    ensures n <= |s| && StripRight(s) == s[..n]
    ensures forall i :: n <= i < |s| ==> IsSpace(s[i])
    ensures n > 0 ==> !IsSpace(s[n - 1])
    decreases |s|
  {
    hide IsSpace;
    n := |s|;
    if s != [] && IsSpace(s[|s| - 1]) {
      var front := s[..|s| - 1];
      n := CutRight(front);
      assert front[..n] == s[..n];
      forall i | n <= i < |s| ensures IsSpace(s[i]) {
        if i < |front| { assert front[i] == s[i]; }
      }
    } else {
      assert s[..|s|] == s;
    }
  }

  /** A string that does not strip to nothing holds at least one word. */
  lemma {:induction false} NonBlankHasWords(s: string)
    ensures Strip(s) == [] <==> Words(s) == []
    decreases |s|
  {
    if s != [] && IsSpace(s[0]) {
      NonBlankHasWords(s[1..]);
      assert forall i :: 0 <= i < |s| - 1 ==> s[1..][i] == s[i + 1];
      assert (forall i :: 0 <= i < |s| ==> IsSpace(s[i])) <==> (forall i :: 0 <= i < |s[1..]| ==> IsSpace(s[1..][i])) by {
        if forall i :: 0 <= i < |s[1..]| ==> IsSpace(s[1..][i]) {
          forall i | 0 <= i < |s| ensures IsSpace(s[i]) {
            if i > 0 { assert s[i] == s[1..][i - 1]; }
          }
        }
      }
    }
  }

  function LowerChar(c: char): (r: char)
    ensures IsSpace(r) <==> IsSpace(c)
  {
    if 'A' <= c <= 'Z' then c + 32 as char else c
  }

  function Lower(s: string): (r: string)
    ensures |r| == |s|
    ensures forall i :: 0 <= i < |s| ==> r[i] == LowerChar(s[i])
  {
    seq(|s|, i requires 0 <= i < |s| => LowerChar(s[i]))
  }

  function LowerAll(ws: seq<string>): (r: seq<string>)
    ensures |r| == |ws|
    ensures forall i :: 0 <= i < |ws| ==> r[i] == Lower(ws[i])
  {
    seq(|ws|, i requires 0 <= i < |ws| => Lower(ws[i]))
  }

  lemma {:induction false} WordLengthLower(s: string)
    ensures WordLength(Lower(s)) == WordLength(s)
  {
    if s != [] {
      assert Lower(s)[1..] == Lower(s[1..]);
      WordLengthLower(s[1..]);
    }
  }

  /** Lower-casing then splitting is splitting then lower-casing each word. */
  lemma {:induction false} WordsOfLower(s: string)
    ensures Words(Lower(s)) == LowerAll(Words(s))
    decreases |s|
  {
    hide IsSpace, LowerChar, WordLength;
    var l := Lower(s);
    if s != [] {
      if IsSpace(s[0]) {
        assert l[1..] == Lower(s[1..]);
        WordsOfLower(s[1..]);
      } else {
        var k := WordLength(s);
        WordLengthLower(s);
        assert l[..k] == Lower(s[..k]) && l[k..] == Lower(s[k..]);
        WordsOfLower(s[k..]);
        assert LowerAll(Words(s)) == [Lower(s[..k])] + LowerAll(Words(s[k..]));
      }
    }
  }

  const CAPITALS := "ABCDEFGHIJKLMNOPQRSTUVWXYZ"
  const SMALLS := "abcdefghijklmnopqrstuvwxyz"

  /** Each capital becomes the small letter of the same place in the alphabet. */
  lemma {:induction false} LowerMapsAlphabet(i: nat)
    requires i < 26
    ensures LowerChar(CAPITALS[i]) == SMALLS[i]
  {
    assert CAPITALS[i] as int == 'A' as int + i;
    assert SMALLS[i] as int == 'a' as int + i;
  }

  lemma CapitalsAreListed(c: char)
    requires 'A' <= c <= 'Z'
    ensures exists i :: 0 <= i < 26 && CAPITALS[i] == c
  {
    var i := c as int - 'A' as int;
    assert CAPITALS[i] as int == 'A' as int + i;
  }

  /** No other character changes. */
  lemma {:induction false} LowerKeepsOthers(c: char)
    requires forall i :: 0 <= i < 26 ==> CAPITALS[i] != c
    ensures LowerChar(c) == c
  {
    if LowerChar(c) != c {
      CapitalsAreListed(c);
    }
  }

  lemma {:induction false} LowerIdempotent(s: string)
    ensures Lower(Lower(s)) == Lower(s)
  {
    assert forall i :: 0 <= i < |s| ==> LowerChar(LowerChar(s[i])) == LowerChar(s[i]);
  }

  /** The pieces of `s` between separators. */
  function SplitOn(sep: char, s: string): (r: seq<string>)
    ensures r != []
  {
    if s == [] then [[]]
    else
      var rest := SplitOn(sep, s[1..]);
      if s[0] == sep then [[]] + rest else [[s[0]] + rest[0]] + rest[1..]
  }

  lemma {:induction false} SplitFirst(sep: char, part: string, rest: string)
    requires sep !in part
    ensures SplitOn(sep, part) == [part]
    ensures SplitOn(sep, part + [sep] + rest) == [part] + SplitOn(sep, rest)
  {
    var whole := part + [sep] + rest;
    if part == [] {
      assert whole[1..] == rest;
    } else {
      assert whole[1..] == part[1..] + [sep] + rest && part == [part[0]] + part[1..];
      SplitFirst(sep, part[1..], rest);
    }
  }

  /** Joining loses nothing: parts that do not hold the separator come back. */
  lemma {:induction false} SplitOfJoin(sep: char, parts: seq<string>)
    requires parts != [] && forall p :: p in parts ==> sep !in p
    ensures SplitOn(sep, Join(sep, parts)) == parts
  {
    assert parts[0] in parts;
    if |parts| == 1 {
      SplitFirst(sep, parts[0], []);
      assert parts == [parts[0]];
    } else {
      SplitOfJoin(sep, parts[1..]);
      SplitFirst(sep, parts[0], Join(sep, parts[1..]));
      assert parts == [parts[0]] + parts[1..];
    }
  }

  predicate OccursAt(s: string, part: string, k: nat)
  {
    k + |part| <= |s| && s[k..k + |part|] == part
  }

  /** `s.contains(part)`. */
  predicate Contains(s: string, part: string)
  {
    exists k :: 0 <= k <= |s| && OccursAt(s, part, k)
  }
}

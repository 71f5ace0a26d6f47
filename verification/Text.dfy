/** Text as the services handle it: whitespace, stripping, word splitting and joining.

    Python (`str.strip`, `str.split`, `\s`) and JavaScript (`String.trim`, `\s`)
    disagree on a few code points, so every function takes the engine whose
    whitespace class applies. All results hold for both. */
module Text {

  datatype Engine = Python | JavaScript

  predicate IsSpace(e: Engine, c: char) {
    var n := c as int;
    || 0x9 <= n <= 0xD || n == 0x20 || n == 0xA0 || n == 0x1680
    || 0x2000 <= n <= 0x200A || n == 0x2028 || n == 0x2029 || n == 0x202F || n == 0x205F || n == 0x3000
    || (e == Python && (0x1C <= n <= 0x1F || n == 0x85))
    || (e == JavaScript && n == 0xFEFF)
  }

  predicate Blank(e: Engine, s: string) {
    forall i :: 0 <= i < |s| ==> IsSpace(e, s[i])
  }

  predicate Solid(e: Engine, s: string) {
    forall i :: 0 <= i < |s| ==> !IsSpace(e, s[i])
  }

  /** The text without its whitespace: what two spellings of one text share. */
  function Erase(e: Engine, s: string): string {
    if s == "" then ""
    else if IsSpace(e, s[0]) then Erase(e, s[1..])
    else [s[0]] + Erase(e, s[1..])
  }

  function StripLeft(e: Engine, s: string): string {
    if s != "" && IsSpace(e, s[0]) then StripLeft(e, s[1..]) else s
  }

  function StripRight(e: Engine, s: string): string {
    if s != "" && IsSpace(e, s[|s| - 1]) then StripRight(e, s[..|s| - 1]) else s
  }

  /** `str.strip()` and `String.trim()`. */
  function Strip(e: Engine, s: string): string {
    StripRight(e, StripLeft(e, s))
  }

  function TokenLength(e: Engine, s: string): (n: nat)
    ensures n <= |s|
    ensures s != "" && !IsSpace(e, s[0]) ==> n > 0
  {
    if s == "" || IsSpace(e, s[0]) then 0 else 1 + TokenLength(e, s[1..])
  }

  lemma StripLeftLength(e: Engine, s: string)
    ensures |StripLeft(e, s)| <= |s|
    ensures StripLeft(e, s) != "" ==> !IsSpace(e, StripLeft(e, s)[0])
  {
  }

  /** `str.split()` without argument; its length is `trim().split(/\s+/).length`. */
  function Words(e: Engine, s: string): seq<string>
    decreases |s|
  {
    StripLeftLength(e, s);
    var t := StripLeft(e, s);
    if t == "" then [] else
    var n := TokenLength(e, t);
    [t[..n]] + Words(e, t[n..])
  }

  function Concat(parts: seq<string>): string {
    if parts == [] then "" else parts[0] + Concat(parts[1..])
  }

  /** `" ".join(parts)` */
  function Join(parts: seq<string>): string {
    if parts == [] then ""
    else if |parts| == 1 then parts[0]
    else parts[0] + " " + Join(parts[1..])
  }

  function EraseAll(e: Engine, parts: seq<string>): string {
    Erase(e, Concat(parts))
  }

  // ---------------------------------------------------------------- erasing

  lemma {:induction false} EraseSum(e: Engine, a: string, b: string)
    ensures Erase(e, a + b) == Erase(e, a) + Erase(e, b)
  {
    if a == "" {
      assert a + b == b;
    } else {
      assert (a + b)[1..] == a[1..] + b;
      EraseSum(e, a[1..], b);
    }
  }

  lemma EraseSplit(e: Engine, s: string, k: nat)
    requires k <= |s|
    ensures Erase(e, s) == Erase(e, s[..k]) + Erase(e, s[k..])
  {
    assert s == s[..k] + s[k..];
    EraseSum(e, s[..k], s[k..]);
  }

  lemma {:induction false} EraseBlank(e: Engine, s: string)
    ensures Blank(e, s) <==> Erase(e, s) == ""
  {
    if s != "" {
      EraseBlank(e, s[1..]);
      if Erase(e, s) == "" {
        assert forall i :: 0 < i < |s| ==> s[i] == s[1..][i - 1];
      }
    }
  }

  lemma {:induction false} EraseSolid(e: Engine, s: string)
    requires Solid(e, s)
    ensures Erase(e, s) == s
  {
    if s != "" {
      EraseSolid(e, s[1..]);
    }
  }

  lemma {:induction false} EraseStripLeft(e: Engine, s: string)
    ensures Erase(e, StripLeft(e, s)) == Erase(e, s)
  {
    hide IsSpace;
    if s != "" && IsSpace(e, s[0]) {
      EraseStripLeft(e, s[1..]);
    }
  }

  lemma {:induction false} EraseStripRight(e: Engine, s: string)
    ensures Erase(e, StripRight(e, s)) == Erase(e, s)
    ensures StripRight(e, s) <= s
    ensures StripRight(e, s) != "" ==> !IsSpace(e, StripRight(e, s)[|StripRight(e, s)| - 1])
  {
    hide IsSpace;
    if s != "" && IsSpace(e, s[|s| - 1]) {
      var n := |s| - 1;
      EraseStripRight(e, s[..n]);
      assert s == s[..n] + [s[n]];
      EraseSum(e, s[..n], [s[n]]);
      EraseBlank(e, [s[n]]);
    }
  }

  /** Stripping changes no visible character, and what is left is bounded by visible ones. */
  lemma EraseStrip(e: Engine, s: string)
    ensures Erase(e, Strip(e, s)) == Erase(e, s)
    ensures Strip(e, s) == "" <==> Blank(e, s)
    ensures Strip(e, s) != "" ==> !IsSpace(e, Strip(e, s)[0]) && !IsSpace(e, Strip(e, s)[|Strip(e, s)| - 1])
    ensures |Strip(e, s)| <= |s|
  {
    EraseStripLeft(e, s);
    StripLeftLength(e, s);
    EraseStripRight(e, StripLeft(e, s));
    EraseBlank(e, s);
    EraseBlank(e, Strip(e, s));
    if Strip(e, s) != "" {
      assert Strip(e, s)[0] == StripLeft(e, s)[0];
    } else {
      assert Erase(e, s) == "";
    }
  }

  lemma {:induction false} StripLeftDrops(e: Engine, s: string) returns (a: string)
    ensures Blank(e, a) && s == a + StripLeft(e, s)
  {
    if s != "" && IsSpace(e, s[0]) {
      var rest := StripLeftDrops(e, s[1..]);
      a := [s[0]] + rest;
      assert s == [s[0]] + s[1..];
    } else {
      a := "";
    }
  }

  lemma {:induction false} StripRightDrops(e: Engine, s: string) returns (b: string)
    ensures Blank(e, b) && s == StripRight(e, s) + b
  {
    var n := |s| - 1;
    if s != "" && IsSpace(e, s[n]) {
      var rest := StripRightDrops(e, s[..n]);
      b := rest + [s[n]];
      assert s == s[..n] + [s[n]];
    } else {
      b := "";
    }
  }

  /** Stripping takes whitespace off the two ends and nothing from between. */
  lemma StripIsMiddle(e: Engine, s: string)
    ensures exists a, b :: Blank(e, a) && Blank(e, b) && s == a + Strip(e, s) + b
  {
    var a := StripLeftDrops(e, s);
    var b := StripRightDrops(e, StripLeft(e, s));
    assert s == a + Strip(e, s) + b;
  }

  // ---------------------------------------------------------------- joining

  lemma {:induction false} ConcatSum(a: seq<string>, b: seq<string>)
    ensures Concat(a + b) == Concat(a) + Concat(b)
  {
    if a == [] {
      assert a + b == b;
    } else {
      assert (a + b)[1..] == a[1..] + b;
      ConcatSum(a[1..], b);
    }
  }

  lemma EraseAllSum(e: Engine, a: seq<string>, b: seq<string>)
    ensures EraseAll(e, a + b) == EraseAll(e, a) + EraseAll(e, b)
  {
    ConcatSum(a, b);
    EraseSum(e, Concat(a), Concat(b));
  }

  lemma EraseAllOne(e: Engine, s: string)
    ensures EraseAll(e, [s]) == Erase(e, s)
  {
    assert [s][1..] == [];
    assert Concat([s]) == s + "" == s;
  }

  /** Joining with spaces is invisible once whitespace is erased. */
  lemma {:induction false} EraseJoin(e: Engine, parts: seq<string>)
    ensures Erase(e, Join(parts)) == EraseAll(e, parts)
  {
    if |parts| == 1 {
      EraseAllOne(e, parts[0]);
      assert parts == [parts[0]];
    } else if |parts| > 1 {
      EraseJoin(e, parts[1..]);
      EraseSum(e, parts[0], " " + Join(parts[1..]));
      assert parts[0] + " " + Join(parts[1..]) == parts[0] + (" " + Join(parts[1..]));
      EraseSum(e, " ", Join(parts[1..]));
      EraseBlank(e, " ");
      EraseSum(e, parts[0], Concat(parts[1..]));
    }
  }

  lemma PrefixUnder(h: string, p: string, q: string)
    requires p <= q
    ensures h + p <= h + q
  {
  }

  /** Appending parts only appends characters: a longer join extends a shorter one. */
  lemma {:induction false} JoinExtends(a: seq<string>, b: seq<string>)
    ensures Join(a) <= Join(a + b)
  {
    if b == [] {
      assert a + b == a;
    } else if |a| == 1 {
      assert (a + b)[1..] == b;
      assert Join(a + b) == a[0] + (" " + Join(b));
    } else if |a| > 1 {
      assert (a + b)[1..] == a[1..] + b;
      JoinExtends(a[1..], b);
      PrefixUnder(a[0] + " ", Join(a[1..]), Join(a[1..] + b));
    }
  }

  // ---------------------------------------------------------------- words

  lemma {:induction false} TokenSolid(e: Engine, s: string)
    ensures Solid(e, s[..TokenLength(e, s)])
    ensures TokenLength(e, s) < |s| ==> IsSpace(e, s[TokenLength(e, s)])
  {
    if s != "" && !IsSpace(e, s[0]) {
      TokenSolid(e, s[1..]);
      assert s[..TokenLength(e, s)] == [s[0]] + s[1..][..TokenLength(e, s[1..])];
    }
  }

  /** A text is its words plus whitespace. */
  lemma {:induction false} EraseWords(e: Engine, s: string)
    ensures Concat(Words(e, s)) == Erase(e, s)
    ensures forall w :: w in Words(e, s) ==> w != "" && Solid(e, w)
    decreases |s|
  {
    StripLeftLength(e, s);
    EraseStripLeft(e, s);
    var t := StripLeft(e, s);
    if t != "" {
      var n := TokenLength(e, t);
      TokenSolid(e, t);
      EraseWords(e, t[n..]);
      EraseSplit(e, t, n);
      EraseSolid(e, t[..n]);
      var w, rest := t[..n], Words(e, t[n..]);
      assert Words(e, s) == [w] + rest;
      assert ([w] + rest)[1..] == rest;
    }
  }

  lemma {:induction false} TokenLengthIs(e: Engine, s: string, n: nat)
    requires n <= |s| && Solid(e, s[..n]) && (n < |s| ==> IsSpace(e, s[n]))
    ensures TokenLength(e, s) == n
  {
    if n > 0 {
      assert s[0] == s[..n][0];
      assert s[1..][..n - 1] == s[..n][1..];
      TokenLengthIs(e, s[1..], n - 1);
    }
  }

  lemma WordsSkipSpace(e: Engine, s: string)
    requires s != "" && IsSpace(e, s[0])
    ensures Words(e, s) == Words(e, s[1..])
  {
  }

  lemma WordsFirst(e: Engine, s: string)
    requires s != "" && !IsSpace(e, s[0])
    ensures Words(e, s) == [s[..TokenLength(e, s)]] + Words(e, s[TokenLength(e, s)..])
  {
  }

  /** Whitespace separates: the words on its two sides are found independently. */
  lemma {:induction false} WordsSum(e: Engine, a: string, c: char, b: string)
    requires IsSpace(e, c)
    ensures Words(e, a + [c] + b) == Words(e, a) + Words(e, b)
    decreases |a|
  {
    hide Words, TokenLength, IsSpace;
    var t := a + [c] + b;
    if a == "" {
      assert t[1..] == b && t[0] == c;
      WordsSkipSpace(e, t);
      NoWords(e);
    } else if IsSpace(e, a[0]) {
      assert t[1..] == a[1..] + [c] + b;
      WordsSkipSpace(e, t);
      WordsSkipSpace(e, a);
      WordsSum(e, a[1..], c, b);
    } else {
      var n := TokenLength(e, a);
      TokenSolid(e, a);
      assert t[..n] == a[..n] && t[n..] == a[n..] + [c] + b;
      TokenLengthIs(e, t, n);
      WordsFirst(e, t);
      WordsFirst(e, a);
      WordsSum(e, a[n..], c, b);
    }
  }

  lemma NoWords(e: Engine)
    ensures Words(e, "") == []
  {
  }

  /** A text without whitespace is one word. */
  lemma WordsOfSolid(e: Engine, w: string)
    requires w != "" && Solid(e, w)
    ensures Words(e, w) == [w]
  {
    assert w[..|w|] == w && w[|w|..] == "";
    TokenLengthIs(e, w, |w|);
    WordsFirst(e, w);
  }

  /** Joining words with spaces and splitting again gives them back. */
  lemma {:induction false} WordsOfJoin(e: Engine, ws: seq<string>)
    requires forall w :: w in ws ==> w != "" && Solid(e, w)
    ensures Words(e, Join(ws)) == ws
  {
    hide Words;
    if ws == [] {
      NoWords(e);
    } else {
      assert ws[0] in ws;
      WordsOfSolid(e, ws[0]);
      if |ws| > 1 {
        assert forall w :: w in ws[1..] ==> w in ws;
        WordsOfJoin(e, ws[1..]);
        WordsSum(e, ws[0], ' ', Join(ws[1..]));
        assert ws == [ws[0]] + ws[1..];
      } else {
        assert ws == [ws[0]];
      }
    }
  }

  lemma {:induction false} EraseSolidParts(e: Engine, ws: seq<string>)
    requires forall w :: w in ws ==> Solid(e, w)
    ensures EraseAll(e, ws) == Concat(ws)
  {
    if ws != [] {
      EraseSolidParts(e, ws[1..]);
      EraseSum(e, ws[0], Concat(ws[1..]));
      EraseSolid(e, ws[0]);
    }
  }

  /** Rejoining some of a text's words keeps exactly their visible characters. */
  lemma EraseJoinedWords(e: Engine, s: string, from: nat)
    requires from <= |Words(e, s)|
    ensures Erase(e, Join(Words(e, s)[from..])) == Concat(Words(e, s)[from..])
  {
    EraseWords(e, s);
    EraseJoin(e, Words(e, s)[from..]);
    EraseSolidParts(e, Words(e, s)[from..]);
  }

  /** Equal visible characters do not mean equal words. */
  lemma WordsMayDiffer()
    ensures Erase(Python, "A.B") == Erase(Python, "A. B") && Words(Python, "A.B") != Words(Python, "A. B")
  {
    TokenSolid(Python, "A.B");
    TokenSolid(Python, "A. B");
    assert TokenLength(Python, "A.B") == 3 && TokenLength(Python, "A. B") == 2;
    assert Words(Python, "A.B")[0] == "A.B"[..3];
    assert Words(Python, "A. B")[0] == "A. B"[..2];
  }
}

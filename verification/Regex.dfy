/**
 * The matcher of user/grep.c: match, matchhere and matchstar.
 *
 * A C string is the sequence of its characters before the NUL; At(s, i) is s[i] as C reads it.
 */
module Regex {

  const NUL: char := '\0'

  function At(s: string, i: nat): char {
    if i < |s| then s[i] else NUL
  }

  predicate CString(s: string) {
    NUL !in s
  }

  // ---------------------------------------------------------------- what patterns mean

  /** One character of a pattern, or one followed by a star. */
  datatype Item = One(c: char) | Star(c: char)

  /** The items of a pattern, and whether it ends in $. */
  datatype Pattern = Pattern(items: seq<Item>, atEnd: bool)

  function Parse(re: string): Pattern {
    if re == "" then Pattern([], false)
    else if At(re, 1) == '*' then Prefixed(Star(re[0]), Parse(re[2..]))
    else if re == "$" then Pattern([], true)
    else Prefixed(One(re[0]), Parse(re[1..]))
  }

  function Prefixed(i: Item, p: Pattern): Pattern {
    Pattern([i] + p.items, p.atEnd)
  }

  // ---------------------------------------------------------------- patterns and strings are one to one

  function Shown(items: seq<Item>): string {
    if items == [] then "" else (match items[0] case One(c) => [c] case Star(c) => [c, '*']) + Shown(items[1..])
  }

  /** A pattern written out: its items, and $ if it has to match up to the end. */
  function Print(p: Pattern): string {
    Shown(p.items) + if p.atEnd then "$" else ""
  }

  /** An item for a * itself, starred or not, stands first or after a starred item; one for a $ does not stand last. */
  ghost predicate Printable(p: Pattern) {
    && (forall k :: 0 < k < |p.items| && p.items[k].c == '*' ==> p.items[k - 1].Star?)
    && (!p.atEnd && p.items != [] ==> p.items[|p.items| - 1] != One('$'))
  }

  lemma {:induction false} ShownFirst(i: Item, items: seq<Item>)
    ensures Shown([i] + items) == (match i case One(c) => [c] case Star(c) => [c, '*']) + Shown(items)
  {
    assert ([i] + items)[1..] == items;
  }

  lemma {:induction false} PrintFirst(i: Item, p: Pattern)
    ensures Print(Prefixed(i, p)) == (match i case One(c) => [c] case Star(c) => [c, '*']) + Print(p)
  {
    ShownFirst(i, p.items);
  }

  lemma {:induction false} PrintableFirst(i: Item, p: Pattern)
    requires Printable(p) && (i.One? && p.items != [] ==> p.items[0].c != '*')
    requires i == One('$') && p.items == [] ==> p.atEnd
    ensures Printable(Prefixed(i, p))
  {
    var items := [i] + p.items;
    forall k | 0 < k < |items| && items[k].c == '*'
      ensures items[k - 1].Star?
    {
      assert items[k] == p.items[k - 1] && (k > 1 ==> items[k - 1] == p.items[k - 2]);
    }
  }

  /** What a print starts with. */
  lemma {:induction false} PrintStart(p: Pattern)
    ensures p.items != [] ==> At(Print(p), 0) == p.items[0].c
    ensures p.items == [] ==> Print(p) == if p.atEnd then "$" else ""
  {
  }

  /** Every string is the print of what it parses to, which is printable. */
  lemma {:induction false} PrintParse(re: string)
    ensures Print(Parse(re)) == re && Printable(Parse(re))
    decreases |re|
  {
    if re == "" || re == "$" {
      PrintStart(Parse(re));
    } else if At(re, 1) == '*' {
      PrintParse(re[2..]);
      PrintFirst(Star(re[0]), Parse(re[2..]));
      PrintableFirst(Star(re[0]), Parse(re[2..]));
      assert re == [re[0], '*'] + re[2..];
    } else {
      var p := Parse(re[1..]);
      PrintParse(re[1..]);
      PrintFirst(One(re[0]), p);
      PrintStart(p);
      assert re == [re[0]] + re[1..];
      assert At(re[1..], 0) == At(re, 1);
      PrintableFirst(One(re[0]), p);
    }
  }

  /** And every printable pattern is what its print parses to. */
  lemma {:induction false} ParsePrint(p: Pattern)
    requires Printable(p)
    ensures Parse(Print(p)) == p
    decreases |p.items|
  {
    if p.items == [] {
      PrintStart(p);
    } else {
      var i, q := p.items[0], Pattern(p.items[1..], p.atEnd);
      assert p == Prefixed(i, q);
      assert q.items != [] ==> q.items[0] == p.items[1];
      assert q.items != [] ==> q.items[|q.items| - 1] == p.items[|p.items| - 1];
      ParsePrint(q);
      PrintFirst(i, q);
      PrintStart(q);
      var re, rest := Print(p), Print(q);
      assert i.Star? ==> re[0] == i.c && re[1] == '*' && re[2..] == rest;
      assert i.One? ==> re[0] == i.c && re[1..] == rest && At(re, 1) == At(rest, 0);
    }
  }

  // ---------------------------------------------------------------- the language

  /** A period stands for any character. */
  predicate Fits(c: char, x: char) {
    c == '.' || c == x
  }

  ghost predicate InItem(i: Item, s: string) {
    match i
    case One(c) => |s| == 1 && Fits(c, s[0])
    case Star(c) => forall k :: 0 <= k < |s| ==> Fits(c, s[k])
  }

  function Concat(pieces: seq<string>): string {
    if pieces == [] then "" else pieces[0] + Concat(pieces[1..])
  }

  ghost predicate Splits(items: seq<Item>, pieces: seq<string>, s: string) {
    && |pieces| == |items| && Concat(pieces) == s
    && forall k :: 0 <= k < |items| ==> InItem(items[k], pieces[k])
  }

  /** The language of a list of items: the concatenations of one word of each. */
  ghost predicate Denotes(items: seq<Item>, s: string) {
    exists pieces :: Splits(items, pieces, s)
  }

  /** Some prefix of text is in the language, all of it if the pattern ends in $. */
  ghost predicate MatchesHere(p: Pattern, text: string) {
    exists j :: 0 <= j <= |text| && (p.atEnd ==> j == |text|) && Denotes(p.items, text[..j])
  }

  /** The substring from i to j is in the language, and ends the text if the pattern ends in $. */
  ghost predicate Found(p: Pattern, text: string, i: nat, j: nat) {
    i <= j <= |text| && (p.atEnd ==> j == |text|) && Denotes(p.items, text[i..j])
  }

  /** Some substring is found; a leading ^ anchors it at the start. */
  ghost predicate Matches(re: string, text: string) {
    if At(re, 0) == '^' then exists j :: Found(Parse(re[1..]), text, 0, j)
    else exists i, j :: Found(Parse(re), text, i, j)
  }

  // ---------------------------------------------------------------- one item at a time

  lemma {:induction false} DenotesNone(s: string)
    ensures Denotes([], s) <==> s == ""
  {
    if s == "" { assert Splits([], [], s); }
  }

  lemma {:induction false} DenotesOne(i: Item, rest: seq<Item>, s: string)
    ensures Denotes([i] + rest, s) <==> exists k :: 0 <= k <= |s| && InItem(i, s[..k]) && Denotes(rest, s[k..])
  {
    if Denotes([i] + rest, s) {
      var pieces :| Splits([i] + rest, pieces, s);
      var k := |pieces[0]|;
      assert s[..k] == pieces[0] && s[k..] == Concat(pieces[1..]);
      assert InItem(([i] + rest)[0], pieces[0]);
      forall e | 0 <= e < |rest|
        ensures InItem(rest[e], pieces[1..][e])
      {
        assert InItem(([i] + rest)[e + 1], pieces[e + 1]);
      }
      assert Splits(rest, pieces[1..], s[k..]);
    }
    if k :| 0 <= k <= |s| && InItem(i, s[..k]) && Denotes(rest, s[k..]) {
      var pieces :| Splits(rest, pieces, s[k..]);
      var all := [s[..k]] + pieces;
      assert all[1..] == pieces;
      assert s[..k] + s[k..] == s;
      assert Splits([i] + rest, all, s);
    }
  }

  /** An item and the rest match here if the item takes some prefix and the rest match after it. */
  lemma {:induction false} HereOne(i: Item, p: Pattern, text: string)
    ensures MatchesHere(Prefixed(i, p), text) <==>
              exists k :: 0 <= k <= |text| && InItem(i, text[..k]) && MatchesHere(p, text[k..])
  {
    if MatchesHere(Prefixed(i, p), text) {
      var j :| 0 <= j <= |text| && (p.atEnd ==> j == |text|) && Denotes([i] + p.items, text[..j]);
      DenotesOne(i, p.items, text[..j]);
      var k :| 0 <= k <= j && InItem(i, text[..j][..k]) && Denotes(p.items, text[..j][k..]);
      assert text[..j][..k] == text[..k] && text[..j][k..] == text[k..][..j - k];
      assert MatchesHere(p, text[k..]);
    }
    if k :| 0 <= k <= |text| && InItem(i, text[..k]) && MatchesHere(p, text[k..]) {
      var j :| 0 <= j <= |text[k..]| && (p.atEnd ==> j == |text[k..]|) && Denotes(p.items, text[k..][..j]);
      assert text[..k + j][..k] == text[..k] && text[..k + j][k..] == text[k..][..j];
      DenotesOne(i, p.items, text[..k + j]);
      assert Denotes([i] + p.items, text[..k + j]);
    }
  }

  lemma {:induction false} HereFound(p: Pattern, text: string, i: nat)
    requires i <= |text|
    ensures MatchesHere(p, text[i..]) <==> exists j :: Found(p, text, i, j)
  {
    if MatchesHere(p, text[i..]) {
      var j :| 0 <= j <= |text[i..]| && (p.atEnd ==> j == |text[i..]|) && Denotes(p.items, text[i..][..j]);
      assert text[i..][..j] == text[i..i + j];
      assert Found(p, text, i, i + j);
    }
    if j: nat :| Found(p, text, i, j) {
      assert text[i..][..j - i] == text[i..j];
    }
  }

  lemma {:induction false} HereNone(p: Pattern, text: string)
    requires p.items == []
    ensures MatchesHere(p, text) <==> !p.atEnd || text == ""
  {
    DenotesNone(text[..0]);
    if MatchesHere(p, text) {
      var j :| 0 <= j <= |text| && (p.atEnd ==> j == |text|) && Denotes(p.items, text[..j]);
      DenotesNone(text[..j]);
    }
    if !p.atEnd || text == "" { assert Denotes(p.items, text[..0]); }
  }

  /** One(c) takes exactly one character. */
  lemma {:induction false} HereChar(c: char, p: Pattern, text: string)
    ensures MatchesHere(Prefixed(One(c), p), text) <==> text != "" && Fits(c, text[0]) && MatchesHere(p, text[1..])
  {
    HereOne(One(c), p, text);
    if text != "" && Fits(c, text[0]) { assert InItem(One(c), text[..1]); }
  }

  // ---------------------------------------------------------------- the code

  method MatchHere(re: string, text: string) returns (b: bool)
    requires CString(re) && CString(text)
    ensures b == MatchesHere(Parse(re), text)
    decreases |re|, 0
  {
    if At(re, 0) == NUL {
      HereNone(Parse(re), text);
      return true;
    }
    if At(re, 1) == '*' {
      b := MatchStar(re[0], re[2..], text);
      HereOne(Star(re[0]), Parse(re[2..]), text);
      return;
    }
    if At(re, 0) == '$' && At(re, 1) == NUL {
      HereNone(Parse(re), text);
      return At(text, 0) == NUL;
    }
    HereChar(re[0], Parse(re[1..]), text);
    if At(text, 0) != NUL && (At(re, 0) == '.' || At(re, 0) == At(text, 0)) {
      b := MatchHere(re[1..], text[1..]);
      return;
    }
    return false;
  }

  /** c* followed by re. */
  method MatchStar(c: char, re: string, text: string) returns (b: bool)
    requires CString(re) && CString(text)
    ensures b <==> exists k :: 0 <= k <= |text| && InItem(Star(c), text[..k]) && MatchesHere(Parse(re), text[k..])
    decreases |re|, 1
  {
    var i := 0;
    while true
      invariant i <= |text| && forall e :: 0 <= e < i ==> Fits(c, text[e])
      invariant forall k :: 0 <= k < i ==> !MatchesHere(Parse(re), text[k..])
      decreases |text| - i
    {
      var here := MatchHere(re, text[i..]);
      if here {
        assert InItem(Star(c), text[..i]);
        return true;
      }
      if At(text, i) == NUL || !(At(text, i) == c || c == '.') {
        forall k | i < k <= |text|
          ensures !InItem(Star(c), text[..k])
        {
          assert text[..k][i] == text[i];
        }
        return false;
      }
      i := i + 1;
    }
  }

  /** True exactly when the pattern matches somewhere in text. */
  method Match(re: string, text: string) returns (b: bool)
    requires CString(re) && CString(text)
    ensures b == Matches(re, text)
  {
    if At(re, 0) == '^' {
      b := MatchHere(re[1..], text);
      assert text[0..] == text;
      HereFound(Parse(re[1..]), text, 0);
      return;
    }
    var i := 0;
    while true
      invariant i <= |text| && forall k, j :: 0 <= k < i && 0 <= j ==> !Found(Parse(re), text, k, j)
      decreases |text| - i
    {
      b := MatchHere(re, text[i..]);
      HereFound(Parse(re), text, i);
      if b {
        return;
      }
      if At(text, i) == NUL {
        return false;
      }
      i := i + 1;
    }
  }
}

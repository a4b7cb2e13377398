/**
 The string predicates of the board makefiles, which have only make's text functions to work with:
 word equality from $(subst), list membership from $(findstring), prefix match from $(patsubst).

 Values are the texts the functions see after expansion. `$(space)`, which the build system defines,
 is one blank.
 */
module MakeStrings {
  import Text

  // ---------- make's text functions ----------

  predicate IsBlank(c: char) { c in {' ', '\t', '\n', '\r', 11 as char, 12 as char} }

  /** The blank and the five control characters from tab to carriage return separate words. */
  lemma WordSeparators(c: char)
    ensures IsBlank(c) <==> c == ' ' || 9 <= c as int <= 13
  {
  }

  predicate NoBlank(s: string) { forall i :: 0 <= i < |s| ==> !IsBlank(s[i]) }

  predicate IsWord(s: string) { s != "" && NoBlank(s) }

  /** The prefix up to the first blank. */
  function FirstWord(s: string): (w: string)
    ensures w <= s && NoBlank(w)
    ensures |w| < |s| ==> IsBlank(s[|w|])
  {
    if s == [] || IsBlank(s[0]) then [] else [s[0]] + FirstWord(s[1..])
  }

  function Words(s: string): (ws: seq<string>)
    ensures forall i :: 0 <= i < |ws| ==> IsWord(ws[i])
    decreases |s|
  {
    if s == [] then []
    else if IsBlank(s[0]) then Words(s[1..])
    else [FirstWord(s)] + Words(s[|FirstWord(s)|..])
  }

  /** $(strip s) */
  function Strip(s: string): string { Text.Join(Words(s), ' ') }

  /** $(subst from,to,text): an empty `from` occurs once, at the end. */
  function Subst(from: string, to: string, text: string): string
    decreases |text|
  {
    if from == "" then text + to
    else if text == "" then ""
    else if from <= text then to + Subst(from, to, text[|from|..])
    else [text[0]] + Subst(from, to, text[1..])
  }

  /** $(findstring find,text) */
  function FindString(find: string, text: string): string {
    if Text.Contains(text, find) then find else ""
  }

  function Replace(prefix: string, replacement: string, words: seq<string>): (r: seq<string>)
    ensures |r| == |words|
  {
    if words == [] then []
    else [if prefix <= words[0] then replacement else words[0]] + Replace(prefix, replacement, words[1..])
  }

  /** $(patsubst prefix%,replacement,text) for a prefix and a replacement without % */
  function PatSubst(prefix: string, replacement: string, text: string): string {
    Text.Join(Replace(prefix, replacement, Words(text)), ' ')
  }

  // ---------- the definitions ----------

  function MatchWord(a: string, b: string): string {
    Strip(if Subst(a, "", b) != "" || Subst(b, "", a) != "" then "" else "true")
  }

  function FindWordInList(w: string, list: string): string {
    var wl := ":" + Subst(" ", ":", Strip(list)) + ":";
    var m := FindString(":" + Strip(w) + ":", wl);
    Strip(if m != "" then w else "")
  }

  function MatchWordInList(w: string, list: string): string {
    Strip(if Strip(w) != "" then MatchWord(FindWordInList(w, list), Strip(w)) else "")
  }

  function MatchPrefix(p: string, delim: string, list: string): string {
    var w := Strip(p + Strip(delim));
    Strip(if MatchWordInList(p, PatSubst(w, p, list)) != "" then "true" else "")
  }

  function IsChipsetPrefixInBoardPlatform(prefix: string, platform: string): string {
    Strip(if MatchPrefix(prefix, "a", platform) != "" || MatchPrefix(prefix, "_", platform) != "" then "true" else "")
  }

  // ---------- words and strip ----------

  lemma {:induction false} FirstWordStops(w: string, rest: string)
    requires NoBlank(w) && (rest == "" || IsBlank(rest[0]))
    ensures FirstWord(w + rest) == w
  {
    if w == "" {
      assert w + rest == rest;
    } else {
      assert (w + rest)[1..] == w[1..] + rest;
      FirstWordStops(w[1..], rest);
    }
  }

  predicate AllWords(ws: seq<string>) { forall i :: 0 <= i < |ws| ==> IsWord(ws[i]) }

  /** Splitting undoes joining with blanks. */
  lemma {:induction false} WordsJoin(ws: seq<string>)
    requires AllWords(ws)
    ensures Words(Text.Join(ws, ' ')) == ws
  {
    if |ws| == 1 {
      var s := ws[0];
      FirstWordStops(s, "");
      assert s + "" == s && s[|s|..] == "";
    } else if |ws| > 1 {
      var rest := Text.Join(ws[1..], ' ');
      var s := Text.Join(ws, ' ');
      WordsJoin(ws[1..]);
      WordThenRest(ws[0], rest);
      assert s == ws[0] + (" " + rest);
    }
  }

  lemma WordThenRest(w: string, rest: string)
    requires IsWord(w)
    ensures Words(w + (" " + rest)) == [w] + Words(rest)
  {
    var s := w + (" " + rest);
    FirstWordStops(w, " " + rest);
    assert s[|w|..] == " " + rest;
    assert (" " + rest)[1..] == rest;
  }

  lemma StripWord(w: string)
    requires IsWord(w)
    ensures Strip(w) == w
  {
    assert Text.Join([w], ' ') == w;
    WordsJoin([w]);
  }

  lemma StripEmpty()
    ensures Strip("") == ""
  {
  }

  lemma StripTrue()
    ensures Strip("true") == "true"
  {
    StripWord("true");
  }

  // ---------- match-word ----------

  /** `text` is `part` repeated. */
  predicate Repeats(part: string, text: string)
    decreases |text|
  {
    text == "" || (part != "" && part <= text && Repeats(part, text[|part|..]))
  }

  lemma {:induction false} SubstToNothing(part: string, text: string)
    ensures Subst(part, "", text) == "" <==> Repeats(part, text)
    decreases |text|
  {
    if part != "" && text != "" && part <= text {
      SubstToNothing(part, text[|part|..]);
    }
  }

  /** match-word is equality: only equal texts are each a repetition of the other. */
  lemma MatchWordIsEquality(a: string, b: string)
    ensures MatchWord(a, b) == if a == b then "true" else ""
  {
    SubstToNothing(a, b);
    SubstToNothing(b, a);
    StripTrue();
    StripEmpty();
    if a == b {
      assert Repeats(a, b) by { if a != "" { assert a[|a|..] == ""; } }
    }
  }

  // ---------- find-word-in-list ----------

  /** A blank between words becomes a colon. */
  lemma {:induction false} SubstBlanks(ws: seq<string>)
    requires AllWords(ws)
    ensures Subst(" ", ":", Text.Join(ws, ' ')) == Text.Join(ws, ':')
  {
    if |ws| == 1 {
      SubstInWord(ws[0], "");
      assert ws[0] + "" == ws[0];
    } else if |ws| > 1 {
      var rest := Text.Join(ws[1..], ' ');
      SubstBlanks(ws[1..]);
      SubstInWord(ws[0], " " + rest);
      assert Text.Join(ws, ' ') == ws[0] + (" " + rest);
      assert (" " + rest)[1..] == rest;
    }
  }

  lemma {:induction false} SubstInWord(w: string, rest: string)
    requires NoBlank(w)
    ensures Subst(" ", ":", w + rest) == w + Subst(" ", ":", rest)
  {
    if w == "" {
      assert w + rest == rest;
    } else {
      assert (w + rest)[1..] == w[1..] + rest && (w + rest)[0] == w[0];
      SubstInWord(w[1..], rest);
      assert w == [w[0]] + w[1..];
    }
  }

  lemma {:induction false} SplitConcat(a: string, b: string, d: char)
    ensures Text.SplitOn(a + [d] + b, d) == Text.SplitOn(a, d) + Text.SplitOn(b, d)
  {
    var s := a + [d] + b;
    if a == [] {
      assert s[1..] == b;
    } else {
      assert s[1..] == a[1..] + [d] + b && s[0] == a[0];
      SplitConcat(a[1..], b, d);
    }
  }

  lemma {:induction false} JoinConcat(a: seq<string>, b: seq<string>)
    requires a != [] && b != []
    ensures Text.Join(a + b, ':') == Text.Join(a, ':') + ":" + Text.Join(b, ':')
  {
    if |a| == 1 {
      assert (a + b)[1..] == b;
    } else {
      assert (a + b)[1..] == a[1..] + b;
      JoinConcat(a[1..], b);
    }
  }

  /** `sub` occurs among the parts from position `i` on. */
  predicate PartsAt(sub: seq<string>, parts: seq<string>, i: nat) {
    i + |sub| <= |parts| && parts[i..i + |sub|] == sub
  }

  predicate PartsIn(sub: seq<string>, parts: seq<string>) {
    exists i: nat :: i <= |parts| && PartsAt(sub, parts, i)
  }

  lemma SplitThree(a: string, b: string, c: string)
    ensures Text.SplitOn(a + ":" + b + ":" + c, ':') ==
        Text.SplitOn(a, ':') + (Text.SplitOn(b, ':') + Text.SplitOn(c, ':'))
  {
    hide Text.SplitOn;
    SplitConcat(a, b + [':'] + c, ':');
    SplitConcat(b, c, ':');
    assert a + ":" + b + ":" + c == a + [':'] + (b + [':'] + c);
  }

  lemma JoinThree(a: seq<string>, b: seq<string>, c: seq<string>)
    requires a != [] && b != [] && c != []
    ensures Text.Join(a + (b + c), ':') == Text.Join(a, ':') + ":" + Text.Join(b, ':') + ":" + Text.Join(c, ':')
  {
    hide Text.Join;
    JoinConcat(a, b + c);
    JoinConcat(b, c);
    var x, y, z := Text.Join(a, ':'), Text.Join(b, ':'), Text.Join(c, ':');
    assert x + ":" + (y + ":" + z) == x + ":" + y + ":" + z;
  }

  lemma EmptyHasOnePart()
    ensures Text.SplitOn("", ':') == [""] && Text.Join([""], ':') == ""
  {
  }

  /** Both texts bracketed by colons, with the one inside the other: then the parts of w stand among
      the parts of t. */
  lemma BracketedGivesParts(w: string, t: string, x: string, y: string)
    requires ":" + t + ":" == x + ":" + w + ":" + y
    ensures PartsIn(Text.SplitOn(w, ':'), Text.SplitOn(t, ':'))
  {
    hide Text.SplitOn, Text.Join, PartsAt;
    SplitThree("", t, "");
    SplitThree(x, w, y);
    EmptyHasOnePart();
    assert "" + ":" + t + ":" + "" == ":" + t + ":";
    MiddlesMatch(Text.SplitOn(t, ':'), Text.SplitOn(x, ':'), Text.SplitOn(w, ':'), Text.SplitOn(y, ':'));
  }

  lemma MiddlesMatch(ts: seq<string>, xs: seq<string>, ws: seq<string>, ys: seq<string>)
    requires xs != [] && ys != [] && [""] + (ts + [""]) == xs + (ws + ys)
    ensures |xs| - 1 <= |ts| && PartsAt(ws, ts, |xs| - 1)
  {
    var ps, i := [""] + (ts + [""]), |xs| - 1;
    assert |ps| == |ts| + 2 == |xs| + |ws| + |ys|;
    assert ts == ps[1..|ts| + 1];
    assert ws == (xs + (ws + ys))[|xs|..|xs| + |ws|] == ps[i + 1..i + 1 + |ws|] == ts[i..i + |ws|];
  }

  lemma PartsGiveBracketed(w: string, t: string, i: nat)
    requires PartsAt(Text.SplitOn(w, ':'), Text.SplitOn(t, ':'), i)
    ensures Text.Contains(":" + t + ":", ":" + w + ":")
  {
    hide Text.SplitOn, Text.Join, Text.Contains;
    var ts, ws := Text.SplitOn(t, ':'), Text.SplitOn(w, ':');
    var xs, ys := [""] + ts[..i], ts[i + |ws|..] + [""];
    Text.JoinSplit(t, ':');
    Text.JoinSplit(w, ':');
    EmptyHasOnePart();
    JoinThree([""], ts, [""]);
    JoinThree(xs, ws, ys);
    assert [""] + (ts + [""]) == xs + (ws + ys);
    Rebracket(w, t, Text.Join(xs, ':'), Text.Join(ys, ':'));
  }

  lemma Rebracket(w: string, t: string, x: string, y: string)
    requires "" + ":" + t + ":" + "" == x + ":" + w + ":" + y
    ensures Text.Contains(":" + t + ":", ":" + w + ":")
  {
    hide Text.Contains;
    assert ":" + t + ":" == "" + ":" + t + ":" + "";
    assert x + ":" + w + ":" + y == x + (":" + w + ":") + y;
    Text.ContainsIntro(x, ":" + w + ":", y);
  }

  lemma AroundOccurrence(s: string, w: string, i: nat)
    requires Text.OccursAt(":" + w + ":", s, i)
    ensures s == s[..i] + ":" + w + ":" + s[i + |w| + 2..]
  {
    var sub := ":" + w + ":";
    assert s == s[..i] + s[i..i + |sub|] + s[i + |sub|..];
  }

  /** w between colons occurs in the colon-bracketed text exactly if the parts between the colons of w stand
      one after the other among those of the text. */
  lemma BracketedIsParts(w: string, t: string)
    ensures Text.Contains(":" + t + ":", ":" + w + ":") <==> PartsIn(Text.SplitOn(w, ':'), Text.SplitOn(t, ':'))
  {
    hide Text.OccursAt, Text.SplitOn, PartsAt;
    var s := ":" + t + ":";
    if i: nat :| i <= |s| && Text.OccursAt(":" + w + ":", s, i) {
      OccursInside(":" + w + ":", s, i);
      AroundOccurrence(s, w, i);
      BracketedGivesParts(w, t, s[..i], s[i + |w| + 2..]);
    }
    if i: nat :| i <= |Text.SplitOn(t, ':')| && PartsAt(Text.SplitOn(w, ':'), Text.SplitOn(t, ':'), i) {
      PartsGiveBracketed(w, t, i);
    }
  }

  lemma OccursInside(sub: string, s: string, i: nat)
    requires Text.OccursAt(sub, s, i)
    ensures i + |sub| <= |s|
  {
  }

  /** The words of the list, joined by colons and taken apart again at every colon. */
  function ColonParts(list: string): seq<string> { Text.SplitOn(Text.Join(Words(list), ':'), ':') }

  /** The colon parts of w stand one after the other among those of the list. */
  predicate PartsOccur(w: string, list: string) {
    PartsIn(Text.SplitOn(w, ':'), ColonParts(list))
  }

  /** What find-word-in-list finds, for any word and any list at all. */
  lemma FindWordFindsParts(w: string, list: string)
    requires IsWord(w)
    ensures FindWordInList(w, list) == if PartsOccur(w, list) then w else ""
  {
    hide Text.Contains, Text.SplitOn, PartsIn;
    SubstBlanks(Words(list));
    StripWord(w);
    StripEmpty();
    BracketedIsParts(w, Text.Join(Words(list), ':'));
    assert ":" + w + ":" != "";
  }

  /** It never misses a member... */
  lemma MembersOccur(w: string, list: string)
    requires w in Words(list)
    ensures PartsOccur(w, list)
  {
    hide Text.SplitOn, Text.Join, PartsAt;
    var k :| 0 <= k < |Words(list)| && Words(list)[k] == w;
    var i := WordPartsAt(Words(list), k);
  }

  lemma {:induction false} WordPartsAt(ws: seq<string>, k: nat) returns (i: nat)
    requires k < |ws|
    ensures var parts := Text.SplitOn(Text.Join(ws, ':'), ':');
        i <= |parts| && PartsAt(Text.SplitOn(ws[k], ':'), parts, i)
  {
    hide Text.SplitOn;
    var first := Text.SplitOn(ws[0], ':');
    i := 0;
    if |ws| > 1 {
      SplitConcat(ws[0], Text.Join(ws[1..], ':'), ':');
      if k > 0 {
        var j := WordPartsAt(ws[1..], k - 1);
        i := |first| + j;
      }
    }
  }

  /** ...and is membership exactly where the parts of a word that is no member do not occur. */
  lemma FindWordIsMembership(w: string, list: string)
    requires IsWord(w)
    ensures (FindWordInList(w, list) == if w in Words(list) then w else "") <==>
        w in Words(list) || !PartsOccur(w, list)
    ensures w in Words(list) ==> FindWordInList(w, list) == w
  {
    hide PartsOccur;
    FindWordFindsParts(w, list);
    if w in Words(list) { MembersOccur(w, list); }
  }

  predicate ColonFree(list: string) {
    forall i :: 0 <= i < |Words(list)| ==> Text.Free(Words(list)[i], ':')
  }

  /** Without colons in the word and in the list, only members occur. */
  lemma ColonFreePartsOccur(w: string, list: string)
    requires IsWord(w) && Text.Free(w, ':') && ColonFree(list)
    ensures PartsOccur(w, list) <==> w in Words(list)
  {
    var ws := Words(list);
    if ws != [] { Text.SplitJoin(ws, ':'); }
    Text.SplitFree(w, ':');
    if w in ws { MembersOccur(w, list); }
    if i: nat :| i <= |ColonParts(list)| && PartsAt(Text.SplitOn(w, ':'), ColonParts(list), i) {
      assert ColonParts(list)[i..i + 1][0] == ColonParts(list)[i];
    }
  }

  lemma AllPartsIn(parts: seq<string>)
    ensures PartsIn(parts, parts)
  {
    assert PartsAt(parts, parts, 0);
  }

  /** A colon in the list can break membership, as "a" is found in the one-word list "a:b"... */
  lemma ColonBreaksMembership()
    ensures FindWordInList("a", "a:b") == "a" && "a" !in Words("a:b")
  {
    hide FindWordInList;
    var list := "a:b";
    WordsJoin([list]);
    assert Text.Join([list], ' ') == list && Text.Join([list], ':') == list;
    assert "a" + [':'] + "b" == list;
    SplitConcat("a", "b", ':');
    Text.SplitFree("a", ':');
    assert PartsAt(Text.SplitOn("a", ':'), ColonParts(list), 0);
    FindWordFindsParts("a", list);
    assert list[1] == ':';
  }

  /** ...and so can one in the word: "a:b" is found in the list of "a" and "b". */
  lemma ColonWordBreaksMembership()
    ensures FindWordInList("a:b", "a b") == "a:b" && "a:b" !in Words("a b") && ColonFree("a b")
  {
    hide Text.SplitOn, FindWordInList, PartsIn;
    var w, ws := "a:b", ["a", "b"];
    assert ws[1..] == ["b"];
    assert Text.Join(ws, ' ') == "a b" && Text.Join(ws, ':') == w;
    WordsJoin(ws);
    AllPartsIn(ColonParts("a b"));
    FindWordFindsParts(w, "a b");
    assert |w| == 3 && |"a"| == 1 && |"b"| == 1;
  }

  lemma MatchWordInListFindsParts(w: string, list: string)
    requires IsWord(w)
    ensures MatchWordInList(w, list) == if PartsOccur(w, list) then "true" else ""
  {
    hide FindWordInList, MatchWord, PartsOccur, Strip;
    FindWordFindsParts(w, list);
    StripWord(w);
    StripTrue();
    StripEmpty();
    MatchWordIsEquality(FindWordInList(w, list), w);
  }

  /** The same condition decides whether match-word-in-list is membership. */
  lemma MatchWordInListIsMembership(w: string, list: string)
    requires IsWord(w)
    ensures (MatchWordInList(w, list) == if w in Words(list) then "true" else "") <==>
              w in Words(list) || !PartsOccur(w, list)
    ensures w in Words(list) ==> MatchWordInList(w, list) == "true"
  {
    hide MatchWordInList, PartsOccur;
    MatchWordInListFindsParts(w, list);
    if w in Words(list) { MembersOccur(w, list); }
  }

  /** An empty word is never found. */
  lemma EmptyWordMatchesNothing(list: string)
    ensures FindWordInList("", list) == "" && MatchWordInList("", list) == ""
  {
    StripEmpty();
  }

  // ---------- match-prefix ----------

  lemma {:induction false} ReplaceAt(prefix: string, replacement: string, words: seq<string>, i: nat)
    requires i < |words|
    ensures Replace(prefix, replacement, words)[i] == if prefix <= words[i] then replacement else words[i]
  {
    if i > 0 { ReplaceAt(prefix, replacement, words[1..], i - 1); }
  }

  predicate SomeStarts(prefix: string, list: string) {
    exists i :: 0 <= i < |Words(list)| && prefix <= Words(list)[i]
  }

  /** What match-prefix finds, for any list at all: a word that starts with p and the delimiter, or what
      find-word-in-list takes for p. */
  lemma MatchPrefixFinds(p: string, delim: string, list: string)
    requires IsWord(p) && NoBlank(delim)
    ensures MatchPrefix(p, delim, list) == if SomeStarts(p + delim, list) || PartsOccur(p, list) then "true" else ""
  {
    hide MatchWordInList, PatSubst, PartsOccur;
    var ws := Words(list);
    var r := Replace(p + delim, p, ws);
    StrippedDelimiter(p, delim);
    forall i | 0 <= i < |ws| ensures r[i] == if p + delim <= ws[i] then p else ws[i] {
      ReplaceAt(p + delim, p, ws, i);
    }
    WordsJoin(r);
    var text := PatSubst(p + delim, p, list);
    PatSubstWords(p + delim, p, list);
    MatchWordInListFindsParts(p, text);
    StripTrue();
    StripEmpty();
    if i :| 0 <= i < |ws| && p + delim <= ws[i] {
      assert r[i] == p;
      MembersOccur(p, text);
    } else {
      assert r == ws;
      SameWordsSameParts(p, text, list);
    }
  }

  lemma SameWordsSameParts(w: string, list: string, other: string)
    requires Words(list) == Words(other)
    ensures PartsOccur(w, list) == PartsOccur(w, other)
  {
    hide PartsIn;
  }

  predicate HasPrefix(p: string, delim: string, list: string) { p in Words(list) || SomeStarts(p + delim, list) }

  /** match-prefix is prefix match, some word being p or starting with p and the delimiter, exactly where
      find-word-in-list does not take a word for p that is not there. It never misses such a word. */
  lemma MatchPrefixIsPrefix(p: string, delim: string, list: string)
    requires IsWord(p) && NoBlank(delim)
    ensures (MatchPrefix(p, delim, list) == if HasPrefix(p, delim, list) then "true" else "") <==>
              HasPrefix(p, delim, list) || !PartsOccur(p, list)
    ensures HasPrefix(p, delim, list) ==> MatchPrefix(p, delim, list) == "true"
  {
    hide MatchPrefix, SomeStarts, PartsOccur;
    MatchPrefixFinds(p, delim, list);
    if p in Words(list) { MembersOccur(p, list); }
  }

  lemma PatSubstWords(prefix: string, replacement: string, list: string)
    ensures PatSubst(prefix, replacement, list) == Text.Join(Replace(prefix, replacement, Words(list)), ' ')
  {
  }

  lemma StrippedDelimiter(p: string, delim: string)
    requires IsWord(p) && NoBlank(delim)
    ensures Strip(p + Strip(delim)) == p + delim
  {
    if delim == "" {
      StripEmpty();
      assert p + delim == p;
      StripWord(p);
    } else {
      StripWord(delim);
      assert IsWord(p + delim);
      StripWord(p + delim);
    }
  }

  /** What is-chipset-prefix-in-board-platform finds: a word of the platform in which 'a' or '_' follows the
      prefix, or what find-word-in-list takes for the prefix itself. */
  lemma ChipsetPrefixFinds(prefix: string, platform: string)
    requires IsWord(prefix)
    ensures IsChipsetPrefixInBoardPlatform(prefix, platform) ==
            if SomeStarts(prefix + "a", platform) || SomeStarts(prefix + "_", platform) || PartsOccur(prefix, platform)
            then "true" else ""
  {
    hide MatchPrefix, PartsOccur, SomeStarts;
    assert NoBlank("a") && NoBlank("_");
    MatchPrefixFinds(prefix, "a", platform);
    MatchPrefixFinds(prefix, "_", platform);
    StripTrue();
    StripEmpty();
  }

  predicate HasChipset(prefix: string, platform: string) {
    prefix in Words(platform) || SomeStarts(prefix + "a", platform) || SomeStarts(prefix + "_", platform)
  }

  /** A chipset prefix is the platform itself, or is followed in it by 'a' or '_', under the same condition. */
  lemma ChipsetPrefix(prefix: string, platform: string)
    requires IsWord(prefix)
    ensures (IsChipsetPrefixInBoardPlatform(prefix, platform)
               == if HasChipset(prefix, platform) then "true" else "") <==>
              HasChipset(prefix, platform) || !PartsOccur(prefix, platform)
    ensures HasChipset(prefix, platform) ==> IsChipsetPrefixInBoardPlatform(prefix, platform) == "true"
  {
    hide IsChipsetPrefixInBoardPlatform, PartsOccur, SomeStarts;
    ChipsetPrefixFinds(prefix, platform);
    if prefix in Words(platform) { MembersOccur(prefix, platform); }
  }
}

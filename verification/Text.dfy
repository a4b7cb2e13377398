/** The string operations the services share: substring search, splitting, and strtok. */
module Text {
  import opened Wrappers

  /** `sub` occurs in `s` at position `i`. */
  predicate OccursAt(sub: string, s: string, i: nat) {
    i + |sub| <= |s| && s[i..i + |sub|] == sub
  }

  /** strstr, std::string::find */
  predicate Contains(s: string, sub: string) {
    exists i: nat :: i <= |s| && OccursAt(sub, s, i)
  }

  lemma ContainsIntro(before: string, sub: string, after: string)
    ensures Contains(before + sub + after, sub)
  {
    assert OccursAt(sub, before + sub + after, |before|);
  }

  // ---------- splitting ----------

  /** The parts of `s` between occurrences of `d`; there is one more part than there are `d`s. */
  function SplitOn(s: string, d: char): (parts: seq<string>)
    ensures parts != []
  {
    if s == [] then [""]
    else
      var rest := SplitOn(s[1..], d);
      if s[0] == d then [""] + rest else [[s[0]] + rest[0]] + rest[1..]
  }

  function Join(parts: seq<string>, d: char): string {
    if parts == [] then ""
    else if |parts| == 1 then parts[0]
    else parts[0] + [d] + Join(parts[1..], d)
  }

  predicate Free(s: string, d: char) { d !in s }

  predicate AllFree(parts: seq<string>, d: char) {
    forall i :: 0 <= i < |parts| ==> Free(parts[i], d)
  }

  /** Splitting is the inverse of joining parts that do not hold the separator... */
  lemma {:induction false} JoinSplit(s: string, d: char)
    ensures Join(SplitOn(s, d), d) == s && AllFree(SplitOn(s, d), d)
  {
    if s != [] {
      var rest := SplitOn(s[1..], d);
      JoinSplit(s[1..], d);
      assert s == [s[0]] + s[1..];
      if s[0] != d {
        JoinLonger(rest, s[0], d);
        assert Free(rest[0], d) && forall i :: 1 <= i < |rest| ==> Free(rest[i], d);
      } else {
        assert ([""] + rest)[1..] == rest;
      }
    }
  }

  lemma JoinLonger(parts: seq<string>, c: char, d: char)
    requires parts != []
    ensures Join([[c] + parts[0]] + parts[1..], d) == [c] + Join(parts, d)
  {
    var longer := [[c] + parts[0]] + parts[1..];
    assert longer[1..] == parts[1..];
  }

  /** ...and nothing else is. */
  lemma {:induction false} SplitJoin(parts: seq<string>, d: char)
    requires parts != [] && AllFree(parts, d)
    ensures SplitOn(Join(parts, d), d) == parts
  {
    if |parts| == 1 {
      SplitFree(parts[0], d);
    } else {
      forall i | 0 <= i < |parts| - 1 ensures Free(parts[1..][i], d) {
        assert parts[1..][i] == parts[i + 1];
      }
      SplitJoin(parts[1..], d);
      assert Free(parts[0], d);
      SplitAtSeparator(parts[0], Join(parts[1..], d), d);
    }
  }

  lemma {:induction false} SplitFree(s: string, d: char)
    requires Free(s, d)
    ensures SplitOn(s, d) == [s]
  {
    if s != [] {
      assert s[0] in s && Free(s[1..], d);
      SplitFree(s[1..], d);
      assert [s[0]] + s[1..] == s;
    }
  }

  lemma {:induction false} SplitAtSeparator(a: string, b: string, d: char)
    requires Free(a, d)
    ensures SplitOn(a + [d] + b, d) == [a] + SplitOn(b, d)
  {
    var s := a + [d] + b;
    if a == [] {
      assert s[1..] == b;
    } else {
      assert s[1..] == a[1..] + [d] + b;
      assert Free(a[1..], d) && a[0] != d;
      SplitAtSeparator(a[1..], b, d);
      assert [a[0]] + a[1..] == a;
    }
  }

  // ---------- strtok ----------

  /** The non-empty parts between separators: what a full run of strtok visits. */
  function Tokens(s: string, d: char): seq<string> {
    NonEmpty(SplitOn(s, d))
  }

  function NonEmpty(parts: seq<string>): seq<string> {
    if parts == [] then []
    else (if parts[0] == "" then [] else [parts[0]]) + NonEmpty(parts[1..])
  }

  /** The prefix up to the first `d`. */
  function Before(s: string, d: char): (p: string)
    ensures p <= s && Free(p, d)
    ensures |p| < |s| ==> s[|p|] == d
  {
    if s == [] || s[0] == d then [] else [s[0]] + Before(s[1..], d)
  }

  function SkipChar(s: string, d: char): (t: string)
    ensures t != [] ==> t[0] != d
    ensures |t| <= |s|
  {
    if s != [] && s[0] == d then SkipChar(s[1..], d) else s
  }

  /** One call of strtok with the single separator `d` (ISO C11 section 7.24.5.8): the token, if
      there is one, and the text that the next call with a null pointer continues from. */
  function Strtok(s: string, d: char): (r: (Option<string>, string))
    ensures r.0.Some? ==> r.0.value != "" && |r.1| < |s|
  {
    var t := SkipChar(s, d);
    if t == [] then (None, [])
    else
      var token := Before(t, d);
      (Some(token), if |token| < |t| then t[|token| + 1..] else [])
  }

  lemma {:induction false} TokensSkip(s: string, d: char)
    ensures Tokens(s, d) == Tokens(SkipChar(s, d), d)
  {
    if s != [] && s[0] == d {
      TokensSkip(s[1..], d);
      assert SplitOn(s, d)[1..] == SplitOn(s[1..], d);
    }
  }

  lemma NoTokens(d: char)
    ensures Tokens("", d) == []
  {
    assert [""][1..] == [];
  }

  lemma StrtokStep(s: string, d: char)
    ensures Tokens(s, d) == match Strtok(s, d).0
                            case None => []
                            case Some(token) => [token] + Tokens(Strtok(s, d).1, d)
  {
    TokensSkip(s, d);
    NoTokens(d);
    var t := SkipChar(s, d);
    if t != [] {
      var token := Before(t, d);
      if |token| < |t| {
        var rest := t[|token| + 1..];
        assert t == token + [d] + rest;
        SplitAtSeparator(token, rest, d);
        assert SplitOn(t, d)[1..] == SplitOn(rest, d);
      } else {
        assert t == token;
        SplitFree(t, d);
        assert NonEmpty([t]) == [t] + [];
      }
    }
  }
}

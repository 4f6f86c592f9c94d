/** The glob matcher of the key-value store (engine/src/queue/kv.rs:265-320). */
module Glob {

  const MAX_GLOB_DEPTH := 10

  // ---- What a pattern means ----

  /** `*` stands for any text, `?` for one character, and everything else for itself. */
  predicate Matches(pattern: string, text: string)
    decreases |pattern|
  {
    if pattern == "" then text == ""
    else if pattern[0] == '*' then exists k | 0 <= k <= |text| :: Matches(pattern[1..], text[k..])
    else text != "" && (pattern[0] == '?' || pattern[0] == text[0]) && Matches(pattern[1..], text[1..])
  }

  /** The stars that something follows. */
  function InnerStars(pattern: string): nat {
    if |pattern| <= 1 then 0 else (if pattern[0] == '*' then 1 else 0) + InnerStars(pattern[1..])
  }

  // ---- What the code does ----

  /** Slicing a text one byte on panics inside a character of several bytes. */
  datatype Verdict = Yes | No | Panic

  function Decide(b: bool): Verdict {
    if b then Yes else No
  }

  predicate OneByte(c: char) {
    c as int < 128
  }

  predicate IsAscii(text: string) {
    forall c | c in text :: OneByte(c)
  }

  function Inner(pattern: string, text: string, depth: nat): Verdict
    decreases |pattern|, |text| + 2
  {
    if depth > MAX_GLOB_DEPTH then No else Walk(pattern, text, depth)
  }

  function Walk(pattern: string, text: string, depth: nat): Verdict
    decreases |pattern|, |text| + 1
  {
    if pattern == "" then Decide(text == "")
    else if pattern[0] == '*' then
      if |pattern| == 1 then Yes else Try(pattern[1..], text, depth + 1)
    else if text == "" || (pattern[0] != '?' && pattern[0] != text[0]) then No
    else Walk(pattern[1..], text[1..], depth)
  }

  /** The rest of the pattern at each position of the text. */
  function Try(rest: string, text: string, depth: nat): Verdict
    decreases |rest|, |text| + 3
  {
    var here := Inner(rest, text, depth);
    if here != No then here
    else if text == "" then No
    else if !OneByte(text[0]) then Panic
    else Try(rest, text[1..], depth)
  }

  /** `glob_match_inner`: a walk along pattern and text, and a recursive call per position at a star. */
  method GlobMatchInner(pattern: string, text: string, depth: nat) returns (verdict: Verdict)
    ensures verdict == Inner(pattern, text, depth)
    decreases |pattern|
  {
    if depth > MAX_GLOB_DEPTH {
      return No;
    }
    var p, t := 0, 0;
    while p < |pattern|
      invariant p <= |pattern| && t <= |text|
      invariant Walk(pattern[p..], text[t..], depth) == Walk(pattern, text, depth)
    {
      var c := pattern[p];
      p := p + 1;
      assert pattern[p - 1..][1..] == pattern[p..];
      if c == '*' {
        if p == |pattern| {
          return Yes;
        }
        var rest, remaining := pattern[p..], text[t..];
        while true
          invariant Try(rest, remaining, depth + 1) == Walk(pattern, text, depth)
          decreases |remaining|
        {
          var here := GlobMatchInner(rest, remaining, depth + 1);
          if here != No {
            return here;
          }
          if remaining == "" {
            return No;
          }
          if !OneByte(remaining[0]) {
            return Panic;
          }
          remaining := remaining[1..];
        }
      }
      if t == |text| || (c != '?' && text[t] != c) {
        return No;
      }
      t := t + 1;
      assert text[t - 1..][1..] == text[t..];
    }
    verdict := Decide(t == |text|);
  }

  /** `glob_match` */
  method GlobMatch(pattern: string, text: string) returns (verdict: Verdict)
    ensures verdict == Inner(pattern, text, 0)
  {
    verdict := GlobMatchInner(pattern, text, 0);
  }

  // ---- What the code decides ----

  predicate Affordable(pattern: string, depth: nat) {
    depth + InnerStars(pattern) <= MAX_GLOB_DEPTH
  }

  /** A verdict, if one is reached, is right for every pattern whose inner stars fit under the depth
      limit, and negative for all others. */
  lemma {:induction false} InnerIsRight(pattern: string, text: string, depth: nat)
    ensures Inner(pattern, text, depth) == Yes ==> Matches(pattern, text) && Affordable(pattern, depth)
    ensures Inner(pattern, text, depth) == No ==> !(Matches(pattern, text) && Affordable(pattern, depth))
    ensures IsAscii(text) ==> Inner(pattern, text, depth) != Panic
    decreases |pattern|, |text| + 2
  {
    if depth <= MAX_GLOB_DEPTH {
      WalkIsRight(pattern, text, depth);
    }
  }

  lemma {:induction false} WalkIsRight(pattern: string, text: string, depth: nat)
    requires depth <= MAX_GLOB_DEPTH
    ensures Walk(pattern, text, depth) == Yes ==> Matches(pattern, text) && Affordable(pattern, depth)
    ensures Walk(pattern, text, depth) == No ==> !(Matches(pattern, text) && Affordable(pattern, depth))
    ensures IsAscii(text) ==> Walk(pattern, text, depth) != Panic
    decreases |pattern|, |text| + 1
  {
    if pattern != "" {
      if pattern[0] == '*' {
        if |pattern| == 1 {
          assert Matches(pattern[1..], text[|text|..]);
        } else {
          TryIsRight(pattern[1..], text, depth + 1);
        }
      } else if text != "" && (pattern[0] == '?' || pattern[0] == text[0]) {
        WalkIsRight(pattern[1..], text[1..], depth);
      }
    }
  }

  lemma {:induction false} TryIsRight(rest: string, text: string, depth: nat)
    ensures Try(rest, text, depth) == Yes ==> Affordable(rest, depth) && exists k | 0 <= k <= |text| ::
              Matches(rest, text[k..])
    ensures Try(rest, text, depth) == No ==>
              !(Affordable(rest, depth) && exists k | 0 <= k <= |text| :: Matches(rest, text[k..]))
    ensures IsAscii(text) ==> Try(rest, text, depth) != Panic
    decreases |rest|, |text| + 3
  {
    InnerIsRight(rest, text, depth);
    assert text[0..] == text;
    if Inner(rest, text, depth) == No && text != "" && OneByte(text[0]) {
      TryIsRight(rest, text[1..], depth);
      assert forall k | 1 <= k <= |text| :: text[k..] == text[1..][k - 1..];
      assert forall k | 0 <= k <= |text[1..]| :: text[1..][k..] == text[k + 1..];
    }
  }

  /** Over ASCII text the matcher never panics, and it says yes exactly when the pattern matches and has
      at most ten stars that something follows. */
  lemma GlobIsExact(pattern: string, text: string)
    requires IsAscii(text)
    ensures Inner(pattern, text, 0) == Decide(Matches(pattern, text) && InnerStars(pattern) <= 10)
  {
    InnerIsRight(pattern, text, 0);
  }

  /** Whatever the text, a yes is a match. */
  lemma GlobIsSound(pattern: string, text: string)
    requires Inner(pattern, text, 0) == Yes
    ensures Matches(pattern, text)
  {
    InnerIsRight(pattern, text, 0);
  }

  // ---- When it panics ----

  function Repeat(c: char, count: nat): (s: string)
    ensures |s| == count && forall i | 0 <= i < count :: s[i] == c
  {
    seq(count, i => c)
  }

  lemma RepeatTail(c: char, count: nat)
    requires count > 0
    ensures Repeat(c, count)[1..] == Repeat(c, count - 1)
  {
  }

  /** More question marks than there is text never match, wherever the search starts. */
  lemma {:induction false} TooMany(count: nat, text: string, depth: nat)
    requires count > |text| && depth <= MAX_GLOB_DEPTH
    ensures Walk(Repeat('?', count), text, depth) == No
    decreases |text|
  {
    RepeatTail('?', count);
    if text != "" {
      TooMany(count - 1, text[1..], depth);
    }
  }

  lemma {:induction false} SearchFails(count: nat, text: string, depth: nat)
    requires count > |text| && depth <= MAX_GLOB_DEPTH
    ensures Try(Repeat('?', count), text, depth) == if IsAscii(text) then No else Panic
    decreases |text|
  {
    TooMany(count, text, depth);
    if text != "" && OneByte(text[0]) {
      SearchFails(count, text[1..], depth);
      assert text == [text[0]] + text[1..];
    }
  }

  /** Stars beyond the depth limit: each of them searches the whole text in vain. */
  lemma {:induction false} StarsRunOut(count: nat, text: string, depth: nat)
    requires count > 0 && depth + count == MAX_GLOB_DEPTH + 2
    ensures Try(Repeat('*', count), text, depth) == if IsAscii(text) then No else Panic
    decreases count, |text|
  {
    var stars := Repeat('*', count);
    RepeatTail('*', count);
    if count > 1 {
      StarsRunOut(count - 1, text, depth + 1);
      assert Inner(stars, text, depth) == Try(stars[1..], text, depth + 1);
    } else {
      assert Inner(stars, text, depth) == No;
    }
    assert text != "" ==> text[0] in text;
    if text != "" && OneByte(text[0]) {
      StarsRunOut(count, text[1..], depth);
      assert text == [text[0]] + text[1..];
    }
  }

  lemma {:induction false} StarsMatch(count: nat, text: string)
    requires count > 0
    ensures Matches(Repeat('*', count), text)
    decreases count
  {
    RepeatTail('*', count);
    if count == 1 {
      assert Matches(Repeat('*', count)[1..], text[|text|..]);
    } else {
      StarsMatch(count - 1, text);
      assert text[0..] == text;
    }
  }

  /** Some pattern makes the matcher panic on a text exactly when the text is not ASCII; then a pattern
      with a single star does, and so does one that matches every text. */
  lemma GlobPanicsExactly(text: string)
    ensures (forall pattern :: Inner(pattern, text, 0) != Panic) <==> IsAscii(text)
    ensures var pattern := "*" + Repeat('?', |text| + 1);
            InnerStars(pattern) == 1 && Inner(pattern, text, 0) == if IsAscii(text) then No else Panic
    ensures Matches(Repeat('*', 12), text) && Inner(Repeat('*', 12), text, 0) == if IsAscii(text) then No else Panic
  {
    OneStarPanics(text);
    TwelveStarsPanic(text);
    hide *;
    if (forall pattern :: Inner(pattern, text, 0) != Panic) {
      assert Inner("*" + Repeat('?', |text| + 1), text, 0) != Panic;
    }
    if IsAscii(text) {
      forall p
        ensures Inner(p, text, 0) != Panic
      {
        InnerIsRight(p, text, 0);
      }
    }
  }

  lemma OneStarPanics(text: string)
    ensures var pattern := "*" + Repeat('?', |text| + 1);
            InnerStars(pattern) == 1 && Inner(pattern, text, 0) == if IsAscii(text) then No else Panic
  {
    var pattern := "*" + Repeat('?', |text| + 1);
    assert pattern[1..] == Repeat('?', |text| + 1);
    SearchFails(|text| + 1, text, 1);
    NoInnerStars(|text| + 1);
  }

  lemma TwelveStarsPanic(text: string)
    ensures Matches(Repeat('*', 12), text) && Inner(Repeat('*', 12), text, 0) == if IsAscii(text) then No else Panic
  {
    RepeatTail('*', 12);
    StarsRunOut(11, text, 1);
    StarsMatch(12, text);
  }

  lemma {:induction false} NoInnerStars(count: nat)
    ensures InnerStars(Repeat('?', count)) == 0
    decreases count
  {
    if count > 1 {
      RepeatTail('?', count);
      NoInnerStars(count - 1);
    }
  }

  /** Such a panic can hide a match of a pattern well within the depth limit. */
  lemma GlobPanics()
    ensures Inner("*a", "\U{00E9}a", 0) == Panic && Matches("*a", "\U{00E9}a")
  {
    var p, t := "*a", "\U{00E9}a";
    assert p[1..] == "a" && t[1..] == "a" && t[0] != 'a';
    assert Walk("a", t, 1) == No;
    assert "a"[1..] == "" && Matches("", "");
    assert Matches("a", t[1..]);
  }
}

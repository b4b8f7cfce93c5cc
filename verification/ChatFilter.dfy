// Masking banned words in chat: a filter of words, cleaned in place until none is
// left. Text is a sequence of bytes; `fold` is the byte-wise lowercase.
module ChatFilter {
  import opened Sums

  type Fold = char -> char

  // Lowercasing twice changes nothing more, and only the mask byte becomes one.
  ghost predicate FoldOk(fold: Fold) { forall c :: fold(fold(c)) == fold(c) && (fold(c) == '*' <==> c == '*') }

  function AsciiLower(c: char): char { if 'A' <= c <= 'Z' then c + 32 as char else c }

  lemma AsciiLowerOk()
    ensures FoldOk(AsciiLower)
  {
  }

  function Lower(fold: Fold, s: string): (t: string)
    ensures |t| == |s| && forall i :: 0 <= i < |s| ==> t[i] == fold(s[i])
  {
    seq(|s|, i requires 0 <= i < |s| => fold(s[i]))
  }

  predicate At(s: string, w: string, i: int) { 0 <= i <= |s| - |w| && s[i..i + |w|] == w }

  ghost predicate Occurs(s: string, w: string) { exists i :: At(s, w, i) }

  // The leftmost occurrence at or after i.
  function IndexFrom(s: string, w: string, i: nat): (r: Option<nat>)
    requires i <= |s|
    ensures r.Some? ==> i <= r.value && At(s, w, r.value) && forall j :: i <= j < r.value ==> !At(s, w, j)
    ensures r.None? ==> forall j :: i <= j ==> !At(s, w, j)
    decreases |s| - i
  {
    if i + |w| > |s| then None
    else if s[i..i + |w|] == w then Some(i)
    else if i == |s| then None
    else IndexFrom(s, w, i + 1)
  }

  function Index(s: string, w: string): (r: Option<nat>)
    ensures r.Some? <==> Occurs(s, w)
    ensures r.Some? ==> At(s, w, r.value) && forall j :: 0 <= j < r.value ==> !At(s, w, j)
  {
    IndexFrom(s, w, 0)
  }

  function Stars(n: nat): (t: string)
    ensures |t| == n && forall i :: 0 <= i < n ==> t[i] == '*'
  {
    seq(n, i => '*')
  }

  function Mask(s: string, i: nat, n: nat): (t: string)
    requires i + n <= |s|
    ensures |t| == |s| && forall k :: 0 <= k < |s| ==> t[k] == if i <= k < i + n then '*' else s[k]
  {
    s[..i] + Stars(n) + s[i + n..]
  }

  // ---------- Termination ----------

  predicate AllStars(w: string) { forall c :: c in w ==> c == '*' }

  function NonStars(s: string): nat {
    if s == [] then 0 else NonStars(s[..|s| - 1]) + (if s[|s| - 1] == '*' then 0 else 1)
  }

  lemma {:induction false} NonStarsLess(s: string, t: string)
    requires |s| == |t| && forall k :: 0 <= k < |s| ==> t[k] == s[k] || t[k] == '*'
    ensures NonStars(t) <= NonStars(s)
    ensures (exists k :: 0 <= k < |s| && t[k] != s[k]) ==> NonStars(t) < NonStars(s)
    decreases |s|
  {
    if s != [] { NonStarsLess(s[..|s| - 1], t[..|t| - 1]); }
  }

  lemma MaskShrinks(s: string, w: string, i: nat)
    requires At(s, w, i) && !AllStars(w)
    ensures NonStars(Mask(s, i, |w|)) < NonStars(s)
  {
    var c :| c in w && c != '*';
    var k :| 0 <= k < |w| && w[k] == c;
    assert s[i..i + |w|][k] == s[i + k];
    NonStarsLess(s, Mask(s, i, |w|));
  }

  lemma MaskOfStars(s: string, w: string, i: nat)
    requires At(s, w, i) && AllStars(w)
    ensures Mask(s, i, |w|) == s
  {
    forall k | i <= k < i + |w|
      ensures s[k] == '*'
    {
      assert s[i..i + |w|][k - i] in w;
    }
  }

  // One turn of the inner loop.
  function Turn(s: string, w: string): string {
    var i := Index(s, w);
    if i.None? then s else Mask(s, i.value, |w|)
  }

  function Turns(s: string, w: string, n: nat): string {
    if n == 0 then s else Turn(Turns(s, w, n - 1), w)
  }

  // The text once the word is gone; None if the loop would never end.
  function MaskWord(s: string, w: string): (r: Option<string>)
    ensures r.Some? ==> |r.value| == |s| && !Occurs(r.value, w)
    ensures r.Some? ==> forall k :: 0 <= k < |s| ==> r.value[k] == s[k] || r.value[k] == '*'
    decreases NonStars(s)
  {
    var i := Index(s, w);
    if i.None? then Some(s)
    else if AllStars(w) then None
    else
      MaskShrinks(s, w, i.value);
      MaskWord(Mask(s, i.value, |w|), w)
  }

  // The loop ends if and only if the word has a byte other than the mask byte or
  // does not occur at all.
  lemma WordEndsIff(s: string, w: string)
    ensures MaskWord(s, w).Some? <==> !AllStars(w) || !Occurs(s, w)
    ensures MaskWord(s, w).Some? <==> exists n: nat :: !Occurs(Turns(s, w, n), w)
  {
    if AllStars(w) && Occurs(s, w) {
      forall n: nat
        ensures Turns(s, w, n) == s
      {
        TurnsStay(s, w, n);
      }
    } else {
      WordEnds(s, w);
    }
  }

  lemma {:induction false} TurnsStay(s: string, w: string, n: nat)
    requires AllStars(w)
    ensures Turns(s, w, n) == s
  {
    hide Index, Mask, AllStars;
    if n > 0 {
      TurnsStay(s, w, n - 1);
      if Index(s, w).Some? { MaskOfStars(s, w, Index(s, w).value); }
    }
  }

  lemma {:induction false} WordEnds(s: string, w: string)
    requires !AllStars(w) || !Occurs(s, w)
    ensures MaskWord(s, w).Some?
    ensures exists n: nat :: !Occurs(Turns(s, w, n), w)
    decreases NonStars(s)
  {
    var i := Index(s, w);
    if i.None? {
      assert Turns(s, w, 0) == s;
    } else {
      MaskShrinks(s, w, i.value);
      var t := Mask(s, i.value, |w|);
      WordEnds(t, w);
      var n: nat :| !Occurs(Turns(t, w, n), w);
      TurnsShift(s, w, n);
      assert !Occurs(Turns(s, w, n + 1), w);
    }
  }

  lemma {:induction false} TurnsShift(s: string, w: string, n: nat)
    ensures Turns(s, w, n + 1) == Turns(Turn(s, w), w, n)
  {
    hide Turn;
    if n > 0 { TurnsShift(s, w, n - 1); }
  }

  // The text once every word is gone, in order.
  function MaskAll(s: string, words: seq<string>): (r: Option<string>) {
    if words == [] then Some(s)
    else
      var before := MaskAll(s, words[..|words| - 1]);
      if before.None? then None else MaskWord(before.value, words[|words| - 1])
  }

  // A filter ends on every message exactly when no word is made of mask bytes only.
  lemma EndsOnEveryMessageIff(words: seq<string>)
    ensures (forall s :: MaskAll(s, words).Some?) <==> forall w :: w in words ==> !AllStars(w)
  {
    if w :| w in words && AllStars(w) {
      HangsOnItself(w, words);
      assert MaskAll(w, words).None?;
    } else {
      forall s ensures MaskAll(s, words).Some? { EndsWithout(s, words); }
    }
  }

  lemma {:induction false} EndsWithout(s: string, words: seq<string>)
    requires forall w :: w in words ==> !AllStars(w)
    ensures MaskAll(s, words).Some?
    decreases |words|
  {
    if words != [] {
      var before := words[..|words| - 1];
      assert forall w :: w in before ==> w in words;
      EndsWithout(s, before);
      WordEndsIff(MaskAll(s, before).value, words[|words| - 1]);
    }
  }

  lemma {:induction false} HangsOnItself(w: string, words: seq<string>)
    requires w in words && AllStars(w)
    ensures MaskAll(w, words).None?
    decreases |words|
  {
    var n := |words| - 1;
    var before := words[..n];
    assert words == before + [words[n]];
    if w in before {
      HangsOnItself(w, before);
    } else {
      assert words[n] == w;
      var s := MaskAll(w, before);
      if s.Some? {
        OnlyStarred(w, before);
        assert forall k :: 0 <= k < |w| ==> w[k] in w;
        assert s.value == w;
        assert At(w, w, 0);
        WordEndsIff(w, w);
      }
    }
  }

  lemma {:induction false} OnlyStarred(s: string, words: seq<string>)
    requires MaskAll(s, words).Some?
    ensures var t := MaskAll(s, words).value;
      |t| == |s| && forall k :: 0 <= k < |s| ==> t[k] == s[k] || t[k] == '*'
    decreases |words|
  {
    if words != [] { OnlyStarred(s, words[..|words| - 1]); }
  }

  // ---------- What cleaning guarantees ----------

  predicate StarFree(w: string) { '*' !in w }

  // Putting in mask bytes never makes a word without them appear.
  lemma NeverAppears(s: string, t: string, w: string)
    requires |t| == |s| && forall k :: 0 <= k < |s| ==> t[k] == s[k] || t[k] == '*'
    requires StarFree(w)
    ensures Occurs(t, w) ==> Occurs(s, w)
  {
    if i :| At(t, w, i) { WasThere(s, t, w, i); }
  }

  lemma WasThere(s: string, t: string, w: string, i: int)
    requires |t| == |s| && forall k :: 0 <= k < |s| ==> t[k] == s[k] || t[k] == '*'
    requires StarFree(w) && At(t, w, i)
    ensures At(s, w, i)
  {
    assert forall k :: 0 <= k < |w| ==> t[i + k] == t[i..i + |w|][k] && w[k] in w;
    assert s[i..i + |w|] == w;
  }

  lemma {:induction false} NoWordLeft(s: string, words: seq<string>, w: string)
    requires MaskAll(s, words).Some? && w in words && StarFree(w)
    ensures !Occurs(MaskAll(s, words).value, w)
    decreases |words|
  {
    var n := |words| - 1;
    var before := MaskAll(s, words[..n]).value;
    assert words == words[..n] + [words[n]];
    if w != words[n] {
      NoWordLeft(s, words[..n], w);
      NeverAppears(before, MaskWord(before, words[n]).value, w);
    }
  }

  // The k-th byte lies in an occurrence of one of the words.
  ghost predicate Hit(s: string, words: seq<string>, k: nat) {
    exists w, i :: w in words && At(s, w, i) && i <= k < i + |w|
  }

  lemma {:induction false} MaskWordHits(s: string, w: string, k: nat)
    requires StarFree(w) && k < |s|
    ensures MaskWord(s, w).Some? && MaskWord(s, w).value[k] != s[k] ==> exists i :: At(s, w, i) && i <= k < i + |w|
    decreases NonStars(s)
  {
    var first := Index(s, w);
    if first.Some? && !AllStars(w) && !(first.value <= k < first.value + |w|) {
      MaskShrinks(s, w, first.value);
      var t := Mask(s, first.value, |w|);
      MaskWordHits(t, w, k);
      if j :| At(t, w, j) && j <= k < j + |w| { WasThere(s, t, w, j); }
    }
  }

  // Nothing else is masked: a byte goes only if it was part of a word in the
  // message as it came.
  lemma {:induction false} OnlyWordsMasked(s: string, words: seq<string>, k: nat)
    requires (forall w :: w in words ==> StarFree(w)) && k < |s|
    ensures MaskAll(s, words).Some? ==> |MaskAll(s, words).value| == |s|
    ensures MaskAll(s, words).Some? && MaskAll(s, words).value[k] != s[k] ==> Hit(s, words, k)
    decreases |words|
  {
    hide MaskWord, StarFree;
    if MaskAll(s, words).Some? { OnlyStarred(s, words); }
    if words != [] && MaskAll(s, words).Some? && MaskAll(s, words).value[k] != s[k] {
      var n := |words| - 1;
      var before := words[..n];
      assert words == before + [words[n]];
      OnlyStarred(s, before);
      OnlyWordsMasked(s, before, k);
      var t := MaskAll(s, before).value;
      if t[k] != s[k] {
        var w, i :| w in before && At(s, w, i) && i <= k < i + |w|;
        assert w in words;
      } else {
        MaskWordHits(t, words[n], k);
        var i :| At(t, words[n], i) && i <= k < i + |words[n]|;
        WasThere(s, t, words[n], i);
      }
    }
  }

  // Which bytes of the message survive depends only on its lowercase: `out` is the
  // message with a mask byte wherever `lower` got one.
  ghost predicate Follows(fold: Fold, message: string, lower: string, out: string) {
    && |message| == |lower| == |out|
    && forall k :: 0 <= k < |message| ==>
         (out[k] == message[k] && lower[k] == fold(message[k])) || (out[k] == '*' && lower[k] == '*')
  }

  class Filter {
    const fold: Fold
    var words: seq<string>

    // Keeps the words that are not blank, lowercased and trimmed.
    constructor (fold: Fold, banned: seq<string>)
      ensures this.fold == fold && words == Normalized(fold, banned)
    {
      this.fold := fold;
      var kept: seq<string> := [];
      for n := 0 to |banned|
        invariant kept == Normalized(fold, banned[..n])
      {
        assert banned[..n + 1][..n] == banned[..n];
        var word := Trim(Lower(fold, banned[n]));
        if word != "" { kept := kept + [word]; }
      }
      assert banned[..|banned|] == banned;
      words := kept;
    }

    // Masks every occurrence of every word. It may be called whenever it ends.
    method Clean(message: string) returns (out: string)
      requires MaskAll(Lower(fold, message), words).Some?
      ensures Follows(fold, message, MaskAll(Lower(fold, message), words).value, out)
    {
      hide Lower, Occurs, AllStars, Follows, MaskAll, MaskWord, NonStars;
      var lower := Lower(fold, message);
      ghost var start := lower;
      out := message;
      FollowsStart(fold, message);
      MaskAllStart(start, words);
      for n := 0 to |words|
        invariant MaskAll(start, words[..n]) == Some(lower)
        invariant Follows(fold, message, lower, out)
      {
        MaskAllNext(start, words, n);
        var word := words[n];
        ghost var result := MaskWord(lower, word);
        while true
          invariant MaskWord(lower, word) == result
          invariant Follows(fold, message, lower, out)
          decreases NonStars(lower)
        {
          var idx := Index(lower, word);
          MaskWordTurn(lower, word);
          if idx.None? { break; }
          FollowsMask(fold, message, lower, out, idx.value, |word|);
          var i, mask := idx.value, Stars(|word|);
          out := out[..i] + mask + out[i + |word|..];
          lower := lower[..i] + mask + lower[i + |word|..];
        }
      }
      assert words[..|words|] == words;
    }
  }

  lemma FollowsStart(fold: Fold, message: string)
    ensures Follows(fold, message, Lower(fold, message), message)
  {
  }

  lemma FollowsMask(fold: Fold, message: string, lower: string, out: string, i: nat, n: nat)
    requires Follows(fold, message, lower, out) && i + n <= |lower|
    ensures |out| == |lower| && Follows(fold, message, Mask(lower, i, n), Mask(out, i, n))
  {
  }

  lemma MaskAllStart(s: string, words: seq<string>)
    ensures MaskAll(s, words[..0]) == Some(s)
  {
  }

  lemma MaskAllNext(s: string, words: seq<string>, n: nat)
    requires MaskAll(s, words).Some? && n < |words|
    ensures MaskAll(s, words[..n]).Some? && MaskAll(s, words[..n + 1]).Some?
    ensures MaskAll(s, words[..n + 1]) == MaskWord(MaskAll(s, words[..n]).value, words[n])
  {
    EndsByPrefix(s, words, n);
    EndsByPrefix(s, words, n + 1);
    assert words[..n + 1][..n] == words[..n];
  }

  // A word that must go either is gone or goes on from one occurrence fewer.
  lemma MaskWordTurn(s: string, w: string)
    requires MaskWord(s, w).Some?
    ensures var i := Index(s, w);
      if i.None? then MaskWord(s, w) == Some(s)
      else i.value + |w| <= |s|
           && MaskWord(Mask(s, i.value, |w|), w) == MaskWord(s, w)
           && NonStars(Mask(s, i.value, |w|)) < NonStars(s)
  {
    var i := Index(s, w);
    if i.Some? { MaskShrinks(s, w, i.value); }
  }

  lemma {:induction false} EndsByPrefix(s: string, words: seq<string>, n: nat)
    requires MaskAll(s, words).Some? && n <= |words|
    ensures MaskAll(s, words[..n]).Some?
    decreases |words|
  {
    if n < |words| {
      EndsByPrefix(s, words[..|words| - 1], n);
      assert words[..|words| - 1][..n] == words[..n];
    } else {
      assert words[..n] == words;
    }
  }

  // The cleaned message keeps its length, changes only into mask bytes, and its
  // lowercase holds none of the words that contain no mask byte.
  lemma CleanedIsClean(fold: Fold, words: seq<string>, message: string, out: string)
    requires FoldOk(fold) && MaskAll(Lower(fold, message), words).Some?
    requires Follows(fold, message, MaskAll(Lower(fold, message), words).value, out)
    ensures |out| == |message| && forall k :: 0 <= k < |out| ==> out[k] == message[k] || out[k] == '*'
    ensures forall w :: w in words && StarFree(w) ==> !Occurs(Lower(fold, out), w)
  {
    hide MaskAll, Occurs;
    var lower := MaskAll(Lower(fold, message), words).value;
    assert Lower(fold, out) == lower;
    forall w | w in words && StarFree(w) ensures !Occurs(lower, w) { NoWordLeft(Lower(fold, message), words, w); }
  }

  // ---------- A personal list on top of the global one ----------

  predicate Space(c: char) { c == ' ' || '\t' <= c <= '\r' }

  function TrimLeft(s: string): string { if s != "" && Space(s[0]) then TrimLeft(s[1..]) else s }

  function TrimRight(s: string): string { if s != "" && Space(s[|s| - 1]) then TrimRight(s[..|s| - 1]) else s }

  function Trim(s: string): string { TrimRight(TrimLeft(s)) }

  function Normalized(fold: Fold, banned: seq<string>): seq<string> {
    if banned == [] then []
    else
      var word := Trim(Lower(fold, banned[|banned| - 1]));
      Normalized(fold, banned[..|banned| - 1]) + (if word == "" then [] else [word])
  }

  // Words as a filter stores them.
  ghost predicate Stored(fold: Fold, w: string) { w != "" && Lower(fold, w) == w && Trim(w) == w }

  lemma {:induction false} TrimLeftSlice(s: string)
    ensures exists i :: 0 <= i <= |s| && TrimLeft(s) == s[i..]
    ensures TrimLeft(s) == "" || !Space(TrimLeft(s)[0])
    decreases |s|
  {
    if s != "" && Space(s[0]) {
      TrimLeftSlice(s[1..]);
      var i :| 0 <= i <= |s[1..]| && TrimLeft(s[1..]) == s[1..][i..];
      assert TrimLeft(s) == s[i + 1..];
    } else {
      assert s == s[0..];
    }
  }

  lemma {:induction false} TrimRightSlice(s: string)
    ensures |TrimRight(s)| <= |s| && TrimRight(s) == s[..|TrimRight(s)|]
    ensures TrimRight(s) == "" || !Space(TrimRight(s)[|TrimRight(s)| - 1])
    decreases |s|
  {
    if s != "" && Space(s[|s| - 1]) { TrimRightSlice(s[..|s| - 1]); }
  }

  // Trimming takes a middle slice that starts and ends with no space.
  lemma TrimSlice(s: string)
    ensures var t := Trim(s); Occurs(s, t)
    ensures var t := Trim(s); t != "" ==> !Space(t[0]) && !Space(t[|t| - 1])
  {
    var left := TrimLeft(s);
    TrimLeftSlice(s);
    TrimRightSlice(left);
    var i :| 0 <= i <= |s| && left == s[i..];
    var t := Trim(s);
    assert t == left[..|t|] == s[i..i + |t|];
    assert At(s, t, i);
  }

  lemma TrimmedStays(t: string)
    requires t != "" && !Space(t[0]) && !Space(t[|t| - 1])
    ensures Trim(t) == t
  {
  }

  lemma LowerOfSlice(fold: Fold, w: string, i: nat, n: nat)
    requires FoldOk(fold) && i + n <= |w|
    ensures Lower(fold, Lower(fold, w)[i..i + n]) == Lower(fold, w)[i..i + n]
  {
  }

  lemma NormalizedIsStored(fold: Fold, w: string)
    requires FoldOk(fold)
    ensures var word := Trim(Lower(fold, w)); word == "" || Stored(fold, word)
  {
    hide Lower, Trim, Space;
    var low := Lower(fold, w);
    var word := Trim(low);
    TrimSlice(low);
    var i :| At(low, word, i);
    LowerOfSlice(fold, w, i, |word|);
    if word != "" { TrimmedStays(word); }
  }

  // The filter's words are exactly the banned ones, lowercased and trimmed, that are
  // not blank.
  lemma {:induction false} NormalizedMembers(fold: Fold, banned: seq<string>, w: string)
    ensures w in Normalized(fold, banned) <==> w != "" && exists i :: 0 <= i < |banned| && w == Trim(Lower(fold, banned[i]))
    decreases |banned|
  {
    hide Lower, Trim;
    if banned != [] {
      var n := |banned| - 1;
      NormalizedMembers(fold, banned[..n], w);
      assert forall i :: 0 <= i < n ==> banned[..n][i] == banned[i];
    }
  }

  // Trimming takes off all the white space at both ends and nothing else.
  lemma {:induction false} TrimTakesSpaces(s: string)
    ensures exists left, right :: s == left + Trim(s) + right && AllSpace(left) && AllSpace(right)
    ensures Trim(s) != "" ==> !Space(Trim(s)[0]) && !Space(Trim(s)[|Trim(s)| - 1])
  {
    LeftTakesSpaces(s);
    var left :| s == left + TrimLeft(s) && AllSpace(left);
    RightTakesSpaces(TrimLeft(s));
    var right :| TrimLeft(s) == TrimRight(TrimLeft(s)) + right && AllSpace(right);
    assert s == left + Trim(s) + right;
  }

  predicate AllSpace(s: string) { forall c :: c in s ==> Space(c) }

  lemma {:induction false} LeftTakesSpaces(s: string)
    ensures exists left :: s == left + TrimLeft(s) && AllSpace(left)
    ensures TrimLeft(s) != "" ==> !Space(TrimLeft(s)[0])
    decreases |s|
  {
    if s != "" && Space(s[0]) {
      LeftTakesSpaces(s[1..]);
      var left :| s[1..] == left + TrimLeft(s[1..]) && AllSpace(left);
      assert s == ([s[0]] + left) + TrimLeft(s) && AllSpace([s[0]] + left);
    } else {
      assert s == "" + TrimLeft(s) && AllSpace("");
    }
  }

  lemma {:induction false} RightTakesSpaces(s: string)
    ensures exists right :: s == TrimRight(s) + right && AllSpace(right)
    ensures TrimRight(s) != "" ==> !Space(TrimRight(s)[|TrimRight(s)| - 1])
    decreases |s|
  {
    if s != "" && Space(s[|s| - 1]) {
      var t := s[..|s| - 1];
      RightTakesSpaces(t);
      var right :| t == TrimRight(t) + right && AllSpace(right);
      assert s == t + [s[|s| - 1]];
      assert s == TrimRight(s) + (right + [s[|s| - 1]]) && AllSpace(right + [s[|s| - 1]]);
    } else {
      assert s == TrimRight(s) + "" && AllSpace("");
    }
  }

  lemma {:induction false} NormalizedStored(fold: Fold, banned: seq<string>)
    requires FoldOk(fold)
    ensures forall w :: w in Normalized(fold, banned) ==> Stored(fold, w)
    decreases |banned|
  {
    if banned != [] {
      NormalizedStored(fold, banned[..|banned| - 1]);
      NormalizedIsStored(fold, banned[|banned| - 1]);
    }
  }

  lemma {:induction false} StoredStay(fold: Fold, stored: seq<string>)
    requires forall w :: w in stored ==> Stored(fold, w)
    ensures Normalized(fold, stored) == stored
    decreases |stored|
  {
    if stored != [] {
      var n := |stored| - 1;
      assert stored == stored[..n] + [stored[n]];
      assert forall w :: w in stored[..n] ==> w in stored;
      assert Stored(fold, stored[n]);
      hide Lower, Trim;
      StoredStay(fold, stored[..n]);
    }
  }

  lemma {:induction false} NormalizedAppend(fold: Fold, a: seq<string>, b: seq<string>)
    ensures Normalized(fold, a + b) == Normalized(fold, a) + Normalized(fold, b)
    decreases |b|
  {
    hide Lower, Trim;
    if b == [] {
      assert a + b == a;
    } else {
      NormalizedAppend(fold, a, b[..|b| - 1]);
      assert (a + b)[..|a + b| - 1] == a + b[..|b| - 1];
    }
  }

  // The filter of the global words and then the caller's own.
  method Effective(global: Filter?, fold: Fold, extra: seq<string>) returns (f: Filter)
    requires global != null ==> global.fold == fold
    ensures f.fold == fold
    ensures global == null ==> f.words == Normalized(fold, extra)
    ensures global != null && extra == [] ==> f == global
    ensures global != null && extra != [] ==> f.words == Normalized(fold, global.words + extra)
  {
    if global == null {
      f := new Filter(fold, extra);
      return;
    }
    if extra == [] { return global; }
    var words: seq<string> := [];
    words := words + global.words;
    words := words + extra;
    assert words == global.words + extra;
    f := new Filter(fold, words);
  }

  // A personal list only ever masks more: every byte that the global filter masks
  // is masked by the combined one too.
  lemma ExtraOnlyAdds(fold: Fold, banned: seq<string>, extra: seq<string>, message: string, out: string, out': string)
    requires FoldOk(fold)
    requires var global := Normalized(fold, banned); var lower := Lower(fold, message);
      && MaskAll(lower, global).Some? && Follows(fold, message, MaskAll(lower, global).value, out)
      && MaskAll(lower, Normalized(fold, global + extra)).Some?
      && Follows(fold, message, MaskAll(lower, Normalized(fold, global + extra)).value, out')
    ensures |out'| == |out| && forall k :: 0 <= k < |out| && out[k] == '*' ==> out'[k] == '*'
  {
    hide Lower, Normalized, MaskWord;
    var global, lower := Normalized(fold, banned), Lower(fold, message);
    NormalizedStored(fold, banned);
    NormalizedAppend(fold, global, extra);
    StoredStay(fold, global);
    MaskMore(lower, global, Normalized(fold, extra));
  }

  lemma {:induction false} MaskMore(s: string, words: seq<string>, more: seq<string>)
    requires MaskAll(s, words).Some? && MaskAll(s, words + more).Some?
    ensures var t, u := MaskAll(s, words).value, MaskAll(s, words + more).value;
      |u| == |t| && forall k :: 0 <= k < |t| ==> u[k] == t[k] || u[k] == '*'
    decreases |more|
  {
    if more == [] {
      assert words + more == words;
    } else {
      assert (words + more)[..|words + more| - 1] == words + more[..|more| - 1];
      MaskMore(s, words, more[..|more| - 1]);
    }
  }
}

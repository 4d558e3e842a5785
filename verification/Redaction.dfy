/** Scrubbing remembered key material out of text. */
module Redaction {

  const REDACTED: string := "***"
  const MIN_SCRUB_LEN: nat := 8

  predicate At(text: string, word: string, i: nat) {
    i + |word| <= |text| && text[i..i + |word|] == word
  }

  ghost predicate Occurs(text: string, word: string) {
    exists i: nat :: At(text, word, i)
  }

  predicate StarFree(word: string) { '*' !in word }

  /** Masking can put such a word together: it begins or ends with a star, or holds a whole mask. */
  predicate Rejoins(word: string) {
    word != [] && (word[0] == '*' || word[|word| - 1] == '*' || exists i :: 0 <= i < |word| && At(word, REDACTED, i))
  }

  // ----- replacing substrings

  /** A replaced stretch of text, from start to end. */
  datatype Span = Span(start: nat, end: nat)

  /** Disjoint stretches, in order, inside the text from `from` on. */
  predicate Ordered(spans: seq<Span>, from: nat, length: nat) {
    spans == [] ||
    (from <= spans[0].start <= spans[0].end <= length && Ordered(spans[1..], spans[0].end, length))
  }

  /** The text from `from` on with every stretch replaced by the mask. */
  function Mask(text: string, spans: seq<Span>, from: nat): string
    requires from <= |text| && Ordered(spans, from, |text|)
  {
    if spans == [] then text[from..]
    else text[from..spans[0].start] + REDACTED + Mask(text, spans[1..], spans[0].end)
  }

  /** Python's `str.replace`: leftmost occurrences first, none overlapping. */
  function Occurrences(text: string, word: string, from: nat): (spans: seq<Span>)
    requires word != []
    ensures from <= |text| ==> Ordered(spans, from, |text|)
    decreases |text| - from
  {
    var at := Next(text, word, from);
    if at == |text| then [] else [Span(at, at + |word|)] + Occurrences(text, word, at + |word|)
  }

  /** The first occurrence at or after `from`; the text's length when there is none. */
  function Next(text: string, word: string, from: nat): (at: nat)
    requires word != []
    ensures at <= |text|
    ensures at < |text| ==> from <= at && At(text, word, at)
    ensures forall i :: from <= i < at ==> !At(text, word, i)
    decreases |text| - from
  {
    if |text| <= from then |text|
    else if At(text, word, from) then from
    else Next(text, word, from + 1)
  }

  function Replace(text: string, word: string): string
    requires word != []
  {
    Mask(text, Occurrences(text, word, 0), 0)
  }

  /** What a key pattern matches: an abstract matcher answering disjoint stretches of any text. */
  type Matcher = string -> seq<Span>

  ghost predicate Matches(m: Matcher) {
    forall text :: Ordered(m(text), 0, |text|)
  }

  // ----- a word that cannot rejoin survives masking only where it already was

  /** A word that masking cannot put together, found after masking, lies in one of the kept stretches. */
  lemma {:induction false} MaskInventsNothing(text: string, spans: seq<Span>, from: nat, word: string, i: nat) returns (j: nat)
    requires from <= |text| && Ordered(spans, from, |text|)
    requires word != [] && !Rejoins(word) && At(Mask(text, spans, from), word, i)
    ensures from <= j && At(text, word, j)
    ensures InGap(spans, from, |text|, j, |word|)
  {
    var masked := Mask(text, spans, from);
    if spans == [] {
      j := from + i;
      assert masked == text[from..|text|];
      SliceOfSlice(text, from, |text|, i, i + |word|);
    } else {
      var gap := spans[0].start - from;
      FoundInHalf(text, spans, from, word, i);
      if i + |word| <= gap {
        j := from + i;
      } else {
        j := MaskInventsNothing(text, spans[1..], spans[0].end, word, i - gap - 3);
      }
    }
  }

  /** Such a word does not touch a mask: it lies before the first one, or after it. */
  lemma FoundInHalf(text: string, spans: seq<Span>, from: nat, word: string, i: nat)
    requires from <= |text| && spans != [] && Ordered(spans, from, |text|)
    requires word != [] && !Rejoins(word) && At(Mask(text, spans, from), word, i)
    ensures var gap := spans[0].start - from;
      if i + |word| <= gap then At(text, word, from + i)
      else gap + 3 <= i && At(Mask(text, spans[1..], spans[0].end), word, i - gap - 3)
  {
    var gap := spans[0].start - from;
    var kept, rest := text[from..spans[0].start], Mask(text, spans[1..], spans[0].end);
    var masked := kept + REDACTED + rest;
    assert Mask(text, spans, from) == masked;
    hide Mask;
    if i + |word| <= gap {
      assert masked[0..gap] == kept;
      SliceOfSlice(masked, 0, gap, i, i + |word|);
      SliceOfSlice(text, from, from + gap, i, i + |word|);
    } else {
      ClearOfMask(masked, gap, word, i);
      assert masked[gap + 3..|masked|] == rest;
      SliceOfSlice(masked, gap + 3, |masked|, i - gap - 3, i - gap - 3 + |word|);
    }
  }

  lemma ClearOfMask(masked: string, gap: nat, word: string, i: nat)
    requires At(masked, REDACTED, gap) && At(masked, word, i) && word != [] && !Rejoins(word) && gap < i + |word|
    ensures gap + 3 <= i
  {
    WordChar(masked, REDACTED, gap, 0);
    WordChar(masked, REDACTED, gap, 1);
    WordChar(masked, REDACTED, gap, 2);
    WordChar(masked, word, i, 0);
    WordChar(masked, word, i, |word| - 1);
    if i < gap && gap + 3 <= i + |word| {
      SliceOfSlice(masked, i, i + |word|, gap - i, gap - i + 3);
      assert At(word, REDACTED, gap - i);
    }
  }

  lemma WordChar(text: string, word: string, i: nat, k: nat)
    requires At(text, word, i) && k < |word|
    ensures text[i + k] == word[k]
  {
    assert text[i..i + |word|][k] == text[i + k];
  }

  lemma SliceOfSlice(a: string, m: nat, n: nat, i: nat, j: nat)
    requires m <= n <= |a| && i <= j <= n - m
    ensures a[m..n][i..j] == a[m + i..m + j]
  {
    forall k | 0 <= k < j - i ensures a[m..n][i..j][k] == a[m + i..m + j][k] {}
  }

  /** Masking these stretches puts the word together where it was not. */
  ghost predicate PutTogether(text: string, spans: seq<Span>, word: string) {
    Ordered(spans, 0, |text|) && !Occurs(text, word) && Occurs(Mask(text, spans, 0), word)
  }

  /** The words masking can put together are exactly those that rejoin. */
  lemma RejoinsIff(word: string)
    requires word != []
    ensures Rejoins(word) <==> exists text, spans :: PutTogether(text, spans, word)
  {
    if Rejoins(word) {
      var text, spans := Rejoined(word);
      assert PutTogether(text, spans, word);
    }
    forall text, spans | PutTogether(text, spans, word) ensures Rejoins(word) {
      if !Rejoins(word) {
        var i: nat :| At(Mask(text, spans, 0), word, i);
        var j := MaskInventsNothing(text, spans, 0, word, i);
      }
    }
  }

  /** Leave out of the word the part the mask supplies, and put one other character in its place. */
  lemma Rejoined(word: string) returns (text: string, spans: seq<Span>)
    requires Rejoins(word)
    ensures PutTogether(text, spans, word)
  {
    if word[0] == '*' {
      text, spans := ['a'] + word[1..], [Span(0, 1)];
      RejoinedAtFront(word);
    } else if word[|word| - 1] == '*' {
      text, spans := word[..|word| - 1] + ['a'], [Span(|word| - 1, |word|)];
      RejoinedAtBack(word);
    } else {
      var i :| 0 <= i < |word| && At(word, REDACTED, i);
      text, spans := word[..i] + ['a'] + word[i + 3..], [Span(i, i + 1)];
      RejoinedInside(word, i);
    }
  }

  lemma RejoinedAtFront(word: string)
    requires word != [] && word[0] == '*'
    ensures PutTogether(['a'] + word[1..], [Span(0, 1)], word)
  {
    var text, spans := ['a'] + word[1..], [Span(0, 1)];
    MaskOne(text, 0, 1);
    assert Mask(text, spans, 0) == ['*', '*'] + word;
    assert At(Mask(text, spans, 0), word, 2);
    ShorterHasNone(text, word, 0);
  }

  lemma RejoinedAtBack(word: string)
    requires word != [] && word[|word| - 1] == '*'
    ensures PutTogether(word[..|word| - 1] + ['a'], [Span(|word| - 1, |word|)], word)
  {
    var n := |word|;
    var text, spans := word[..n - 1] + ['a'], [Span(n - 1, n)];
    MaskOne(text, n - 1, n);
    assert Mask(text, spans, 0) == word + ['*', '*'];
    assert At(Mask(text, spans, 0), word, 0);
    ShorterHasNone(text, word, n - 1);
  }

  lemma RejoinedInside(word: string, i: nat)
    requires At(word, REDACTED, i)
    ensures PutTogether(word[..i] + ['a'] + word[i + 3..], [Span(i, i + 1)], word)
  {
    var text, spans := word[..i] + ['a'] + word[i + 3..], [Span(i, i + 1)];
    MaskOne(text, i, i + 1);
    assert word == word[..i] + word[i..i + 3] + word[i + 3..];
    assert Mask(text, spans, 0) == word;
    assert At(Mask(text, spans, 0), word, 0);
  }

  lemma MaskOne(text: string, start: nat, end: nat)
    requires start <= end <= |text|
    ensures Ordered([Span(start, end)], 0, |text|)
    ensures Mask(text, [Span(start, end)], 0) == text[..start] + REDACTED + text[end..]
  {
    var spans := [Span(start, end)];
    assert spans[1..] == [];
    assert text[0..start] == text[..start];
  }

  lemma ShorterHasNone(text: string, word: string, k: nat)
    requires |text| == |word| && k < |text| && text[k] != word[k]
    ensures !Occurs(text, word)
  {
    assert text[0..|word|] == text;
  }

  /** The word at `j` meets none of the masked stretches. */
  predicate InGap(spans: seq<Span>, from: nat, length: nat, j: nat, n: nat) {
    if spans == [] then from <= j && j + n <= length
    else (from <= j && j + n <= spans[0].start) || InGap(spans[1..], spans[0].end, length, j, n)
  }

  /** After a replacement the word is gone. */
  lemma ReplaceRemoves(text: string, word: string)
    requires word != [] && !Rejoins(word)
    ensures !Occurs(Replace(text, word), word)
  {
    if Occurs(Replace(text, word), word) {
      var i: nat :| At(Replace(text, word), word, i);
      var j := MaskInventsNothing(text, Occurrences(text, word, 0), 0, word, i);
      NoneInGaps(text, word, 0, j);
    }
  }

  lemma {:induction false} NoneInGaps(text: string, word: string, from: nat, j: nat)
    requires word != [] && from <= |text| && At(text, word, j)
    ensures !InGap(Occurrences(text, word, from), from, |text|, j, |word|)
    decreases |text| - from
  {
    var at := Next(text, word, from);
    if at < |text| {
      NoneInGaps(text, word, at + |word|, j);
    }
  }

  /** Masking anything at all brings no word back that cannot rejoin. */
  lemma MaskBringsNothingBack(text: string, spans: seq<Span>, word: string)
    requires Ordered(spans, 0, |text|) && word != [] && !Rejoins(word) && !Occurs(text, word)
    ensures !Occurs(Mask(text, spans, 0), word)
  {
    if Occurs(Mask(text, spans, 0), word) {
      var i: nat :| At(Mask(text, spans, 0), word, i);
      var j := MaskInventsNothing(text, spans, 0, word, i);
    }
  }

  // ----- two remembered values

  /** Text without the word has it once the word and then the shorter value have been replaced. */
  ghost predicate ComesBack(text: string, head: string, word: string)
    requires head != [] && word != []
  {
    !Occurs(text, word) && Occurs(Replace(Replace(text, word), head), word)
  }

  /** The shortest value a redactor remembers, of one character. */
  function Eight(c: char): string { [c, c, c, c, c, c, c, c] }

  /** What stands before and after the star, or the mask, that a mask supplies. */
  lemma Broken(word: string) returns (pre: string, post: string)
    requires Rejoins(word)
    ensures |pre| < |word| && |post| < |word| && Occurs(pre + REDACTED + post, word)
    ensures forall x :: x in pre || x in post ==> x in word
  {
    var n := |word|;
    if word[0] == '*' {
      pre, post := [], word[1..];
      assert pre + REDACTED + post == ['*', '*'] + word;
      assert At(pre + REDACTED + post, word, 2);
    } else if word[n - 1] == '*' {
      pre, post := word[..n - 1], [];
      assert pre + REDACTED + post == word + ['*', '*'];
      assert At(pre + REDACTED + post, word, 0);
    } else {
      var i :| 0 <= i < n && At(word, REDACTED, i);
      pre, post := word[..i], word[i + 3..];
      assert word == word[..i] + word[i..i + 3] + word[i + 3..];
      assert At(pre + REDACTED + post, word, 0);
    }
  }

  /** A word without the character cannot lie across it, and is too long for either side. */
  lemma NoneAround(pre: string, post: string, c: char, word: string)
    requires c !in word && |pre| < |word| && |post| < |word|
    ensures !Occurs(pre + Eight(c) + post, word)
  {
    var text := pre + Eight(c) + post;
    forall i: nat | At(text, word, i) ensures false {
      if i <= |pre| {
        WordChar(text, word, i, |pre| - i);
      } else if i < |pre| + 8 {
        WordChar(text, word, i, 0);
      }
    }
  }

  lemma ReplaceBetween(pre: string, post: string, c: char)
    requires c !in pre && c !in post
    ensures Replace(pre + Eight(c) + post, Eight(c)) == pre + REDACTED + post
  {
    var head, n := Eight(c), |pre|;
    var text := pre + head + post;
    assert text[n..n + 8] == head && At(text, head, n);
    forall i: nat | i < n ensures !At(text, head, i) {
      if At(text, head, i) {
        WordChar(text, head, i, 0);
      }
    }
    assert Next(text, head, 0) == n;
    assert text[n + 8..] == post;
    NoFirstChar(text, head, n + 8);
    var spans := Occurrences(text, head, 0);
    assert Occurrences(text, head, n + 8) == [];
    assert spans == [Span(n, n + 8)];
    MaskOne(text, n, n + 8);
    assert text[..n] == pre;
  }

  lemma NoFirstChar(text: string, word: string, from: nat)
    requires word != [] && from <= |text| && word[0] !in text[from..]
    ensures Next(text, word, from) == |text|
  {
    forall i: nat | At(text, word, i) ensures text[i] == word[0] {
      assert text[i] == text[i..i + |word|][0];
    }
    assert forall i :: from <= i < |text| ==> text[i] == text[from..][i - from];
  }

  lemma ReplaceAbsent(text: string, word: string)
    requires word != [] && !Occurs(text, word)
    ensures Replace(text, word) == text
  {
    assert Next(text, word, 0) == |text|;
    assert text[0..] == text;
  }

  /** A value comes back after both replacements, whatever the character it lacks that the other value is made of, exactly
      when it rejoins: its star, or the mask in it, is written as the other value. */
  lemma ComesBackIff(word: string, c: char)
    requires word != [] && c !in word
    ensures Rejoins(word) <==> exists text :: ComesBack(text, Eight(c), word)
  {
    if Rejoins(word) {
      var pre, post := Broken(word);
      var text := pre + Eight(c) + post;
      NoneAround(pre, post, c, word);
      ReplaceAbsent(text, word);
      ReplaceBetween(pre, post, c);
      assert ComesBack(text, Eight(c), word);
    } else {
      forall text ensures !ComesBack(text, Eight(c), word) {
        if !Occurs(text, word) {
          ReplaceAbsent(text, word);
          MaskBringsNothingBack(text, Occurrences(text, Eight(c), 0), word);
        }
      }
    }
  }

  // ----- the redactor

  /** No word of the set occurs, and none at all that was not in the original, but for words that can rejoin. */
  ghost predicate Clean(original: string, text: string, gone: set<string>) {
    && (forall v <- gone :: v != [] && !Rejoins(v) ==> !Occurs(text, v))
    && (forall w: string :: w != [] && !Rejoins(w) && Occurs(text, w) ==> Occurs(original, w))
  }

  lemma CleanStep(original: string, text: string, gone: set<string>, spans: seq<Span>)
    requires Clean(original, text, gone) && Ordered(spans, 0, |text|)
    ensures Clean(original, Mask(text, spans, 0), gone)
  {
    forall w: string | w != [] && !Rejoins(w) && !Occurs(text, w) ensures !Occurs(Mask(text, spans, 0), w) {
      MaskBringsNothingBack(text, spans, w);
    }
  }

  lemma LongestExists(words: set<string>)
    requires words != {}
    ensures exists v :: v in words && forall w :: w in words ==> |w| <= |v|
  {
    var v :| v in words;
    if words != {v} {
      LongestExists(words - {v});
      var u :| u in words - {v} && forall w :: w in words - {v} ==> |w| <= |u|;
      if |u| < |v| {
        assert forall w :: w in words ==> |w| <= |v|;
      } else {
        assert forall w :: w in words ==> |w| <= |u|;
      }
    }
  }

  /** The values in the order they are replaced: the longest first, equals in any order. */
  ghost predicate LongestFirst(order: seq<string>, values: set<string>) {
    && |order| == |values| && (forall v :: v in order <==> v in values)
    && (forall i, j :: 0 <= i < j < |order| ==> |order[j]| <= |order[i]|)
  }

  ghost predicate Words(order: seq<string>) { forall i :: 0 <= i < |order| ==> order[i] != [] }

  ghost function ReplaceAll(text: string, order: seq<string>): string
    requires Words(order)
  {
    if order == [] then text
    else
      var last := order[|order| - 1];
      Replace(ReplaceAll(text, order[..|order| - 1]), last)
  }

  ghost function MaskBy(text: string, m: Matcher): string
    requires Matches(m)
  {
    Mask(text, m(text), 0)
  }

  ghost function MaskAll(text: string, patterns: seq<Matcher>): string
    requires forall i :: 0 <= i < |patterns| ==> Matches(patterns[i])
  {
    if patterns == [] then text else MaskBy(MaskAll(text, patterns[..|patterns| - 1]), patterns[|patterns| - 1])
  }

  /** Where replacing has got to: these values, longest first, and only shorter ones to come. */
  ghost predicate Replaced(text: string, r: string, order: seq<string>, done: set<string>, rest: set<string>) {
    && LongestFirst(order, done) && Words(order) && r == ReplaceAll(text, order)
    && (forall v, w | v in done && w in rest :: |w| <= |v|)
  }

  lemma ReplacedNext(text: string, r: string, order: seq<string>, done: set<string>, rest: set<string>, value: string)
    requires Replaced(text, r, order, done, rest) && value in rest && done !! rest && value != []
    requires forall w | w in rest :: |w| <= |value|
    ensures Replaced(text, Replace(r, value), order + [value], done + {value}, rest - {value})
  {
    hide Replace;
    assert (order + [value])[..|order|] == order;
    assert forall i :: 0 <= i < |order| ==> order[i] in done;
  }

  lemma MaskedNext(text: string, patterns: seq<Matcher>, i: nat)
    requires (forall m <- patterns :: Matches(m)) && i < |patterns|
    ensures MaskAll(text, patterns[..i + 1]) == MaskBy(MaskAll(text, patterns[..i]), patterns[i])
  {
    assert patterns[..i + 1][..i] == patterns[..i];
    hide MaskBy;
  }

  lemma NothingReplaced(text: string, values: set<string>)
    ensures Clean(text, text, {}) && Replaced(text, text, [], {}, values) && MaskAll(text, []) == text
  {}

  lemma CleanNext(original: string, text: string, gone: set<string>, value: string)
    requires Clean(original, text, gone) && value != []
    ensures Clean(original, Replace(text, value), gone + {value}) && (!Occurs(text, value) ==> Replace(text, value) == text)
  {
    hide Occurrences, Mask;
    CleanStep(original, text, gone, Occurrences(text, value, 0));
    if !Rejoins(value) {
      ReplaceRemoves(text, value);
    }
    if !Occurs(text, value) {
      ReplaceAbsent(text, value);
    }
  }

  lemma CleanMasked(original: string, text: string, gone: set<string>, m: Matcher)
    requires Clean(original, text, gone) && Matches(m)
    ensures Clean(original, MaskBy(text, m), gone) && Ordered(m(text), 0, |text|)
    ensures m(text) == [] ==> MaskBy(text, m) == text
  {
    CleanStep(original, text, gone, m(text));
    assert text[0..] == text;
  }

  class Redactor {
    var values: set<string>

    ghost predicate Valid()
      reads this
    {
      forall v <- values :: MIN_SCRUB_LEN <= |v|
    }

    constructor ()
      ensures Valid() && values == {}
    {
      values := {};
    }

    method Remember(value: string)
      requires Valid()
      modifies this
      ensures Valid()
      ensures values == old(values) + if MIN_SCRUB_LEN <= |value| then {value} else {}
    {
      if MIN_SCRUB_LEN <= |value| {
        values := values + {value};
      }
    }

    /** Every remembered value in turn, the longest first. */
    method ReplaceValues(text: string) returns (r: string, ghost order: seq<string>)
      requires Valid()
      ensures Clean(text, r, values) && LongestFirst(order, values) && Words(order) && r == ReplaceAll(text, order)
      ensures (forall v <- values :: !Occurs(text, v)) ==> r == text
    {
      hide Occurrences, Rejoins, LongestFirst, ReplaceAll, MaskAll, Occurs, Clean, Words;
      r, order := text, [];
      var rest := values;
      assert values - rest == {};
      NothingReplaced(text, values);
      while rest != {}
        invariant rest <= values
        invariant Clean(text, r, values - rest) && Replaced(text, r, order, values - rest, rest)
        invariant (forall v <- values :: !Occurs(text, v)) ==> r == text
        decreases |rest|
      {
        LongestExists(rest);
        var value :| value in rest && forall w :: w in rest ==> |w| <= |value|;
        CleanNext(text, r, values - rest, value);
        ReplacedNext(text, r, order, values - rest, rest, value);
        if Contains(r, value) {
          r := Replace(r, value);
        }
        assert values - (rest - {value}) == values - rest + {value};
        rest, order := rest - {value}, order + [value];
      }
      assert values - rest == values;
    }

    /** Longest values first, then the key patterns. No remembered value that cannot rejoin is left, whatever the overlaps
        between values and whatever the patterns replace; and text with nothing to hide comes back as it was. */
    method Scrub(text: string, patterns: seq<Matcher>) returns (r: string, ghost order: seq<string>)
      requires Valid() && forall m <- patterns :: Matches(m)
      ensures forall v <- values :: !Rejoins(v) ==> !Occurs(r, v)
      ensures forall w: string :: w != [] && !Rejoins(w) && Occurs(r, w) ==> Occurs(text, w)
      ensures (forall v <- values :: !Occurs(text, v)) && (forall m <- patterns :: m(text) == []) ==> r == text
      ensures text != [] ==> LongestFirst(order, values) && Words(order) && r == MaskAll(ReplaceAll(text, order), patterns)
    {
      hide Mask, Matches, Rejoins, LongestFirst, ReplaceAll, MaskAll, Occurs, Words;
      if text == [] {
        EmptyHoldsNothing();
        return text, [];
      }
      r, order := ReplaceValues(text);
      ghost var replaced := r;
      NothingReplaced(replaced, values);
      assert patterns[..0] == [];
      var i := 0;
      while i < |patterns|
        invariant 0 <= i <= |patterns|
        invariant Clean(text, r, values) && r == MaskAll(replaced, patterns[..i])
        invariant (forall v <- values :: !Occurs(text, v)) && (forall m <- patterns :: m(text) == []) ==> r == text
      {
        var matcher := patterns[i];
        CleanMasked(text, r, values, matcher);
        MaskedNext(replaced, patterns, i);
        r := Mask(r, matcher(r), 0);
        i := i + 1;
      }
      assert patterns[..i] == patterns;
    }

    /** True when a remembered value appears verbatim. */
    function ContainsSecret(text: string): (b: bool)
      requires Valid()
      reads this
      ensures b <==> exists v :: v in values && Occurs(text, v)
    {
      exists v :: v in values && Contains(text, v)
    }

    /** The assertion on every serialization path; `ok` false is the raise. */
    method AssertClean(text: string) returns (ok: bool)
      requires Valid()
      ensures ok <==> forall v <- values :: !Occurs(text, v)
    {
      ok := !ContainsSecret(text);
    }
  }

  predicate Contains(text: string, word: string)
    ensures word != [] ==> Contains(text, word) == Occurs(text, word)
  {
    word == [] || Next(text, word, 0) < |text|
  }

  lemma EmptyHoldsNothing()
    ensures forall w: string :: w != [] ==> !Occurs([], w)
  {}

  /** When no remembered value can rejoin, asserting that scrubbed text is clean cannot raise. */
  method ScrubThenAssert(redactor: Redactor, text: string, patterns: seq<Matcher>) returns (r: string, ok: bool)
    requires redactor.Valid() && (forall m <- patterns :: Matches(m)) && (forall v <- redactor.values :: !Rejoins(v))
    ensures ok
    ensures forall v <- redactor.values :: !Occurs(r, v)
  {
    ghost var order: seq<string>;
    r, order := redactor.Scrub(text, patterns);
    ok := redactor.AssertClean(r);
  }

  /** When a value rejoins, a redactor that remembers it and eight of a character it lacks writes it into text that did not
      have it, and asserting that the text is clean then raises: the longer value's turn has passed. */
  method ScrubWritesItIn(word: string, c: char, text: string, patterns: seq<Matcher>) returns (r: string, ok: bool)
    requires MIN_SCRUB_LEN < |word| && c !in word && ComesBack(text, Eight(c), word)
    requires forall m <- patterns :: Matches(m) && m(Replace(Replace(text, word), Eight(c))) == []
    ensures !Occurs(text, word) && Occurs(r, word) && !ok
  {
    hide Replace, Matches, Rejoins, LongestFirst, ReplaceAll, MaskAll;
    var redactor := new Redactor();
    redactor.Remember(word);
    redactor.Remember(Eight(c));
    ghost var order: seq<string>;
    r, order := redactor.Scrub(text, patterns);
    assert redactor.values == {word, Eight(c)};
    EmptyGivesNothing(text, Eight(c), word);
    ScrubbedTwice(text, word, Eight(c), order, patterns);
    ok := redactor.AssertClean(r);
  }

  lemma ScrubbedTwice(text: string, word: string, head: string, order: seq<string>, patterns: seq<Matcher>)
    requires head != [] && |head| < |word| && LongestFirst(order, {word, head}) && Words(order)
    requires forall m <- patterns :: Matches(m) && m(Replace(Replace(text, word), head)) == []
    ensures MaskAll(ReplaceAll(text, order), patterns) == Replace(Replace(text, word), head)
  {
    hide Replace, MaskAll;
    TwoInOrder(order, word, head);
    assert order[..1] == [word] && [word][..0] == [];
    assert ReplaceAll(text, [word]) == Replace(text, word);
    SilentPatterns(ReplaceAll(text, order), patterns);
  }

  lemma TwoInOrder(order: seq<string>, word: string, head: string)
    requires |head| < |word| && LongestFirst(order, {word, head})
    ensures order == [word, head]
  {
    assert |{word, head}| == 2;
    assert word in order && head in order;
    assert order[0] in {word, head} && order[1] in {word, head};
  }

  lemma EmptyGivesNothing(text: string, head: string, word: string)
    requires head != [] && word != [] && ComesBack(text, head, word)
    ensures text != []
  {
    if text == [] {
      ReplaceAbsent(text, word);
      EmptyHoldsNothing();
      ReplaceAbsent(text, head);
    }
  }

  lemma {:induction false} SilentPatterns(text: string, patterns: seq<Matcher>)
    requires forall m <- patterns :: Matches(m) && m(text) == []
    ensures MaskAll(text, patterns) == text
  {
    if patterns != [] {
      SilentPatterns(text, patterns[..|patterns| - 1]);
      assert patterns[|patterns| - 1] in patterns && text[0..] == text;
    }
  }
}

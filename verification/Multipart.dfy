/** Reading one form field out of a multipart body, and splicing a new value into its place. */
module Multipart {
  import opened Contracts

  newtype Byte = x: int | 0 <= x < 256

  type Bytes = seq<Byte>

  const CR: Byte := 13
  const CRLF: Bytes := [13, 10]
  const HEAD_END: Bytes := [13, 10, 13, 10]
  const DASHES: Bytes := [45, 45]

  // ----- searching

  predicate At(raw: Bytes, pat: Bytes, i: nat) {
    i + |pat| <= |raw| && raw[i..i + |pat|] == pat
  }

  /** Python's `bytes.find`: the first occurrence at or after `from`. */
  function Find(raw: Bytes, pat: Bytes, from: nat): (r: Option<nat>)
    ensures r.Some? ==> from <= r.value && At(raw, pat, r.value)
    ensures r.Some? ==> forall i :: from <= i < r.value ==> !At(raw, pat, i)
    ensures r.None? ==> forall i :: from <= i ==> !At(raw, pat, i)
    decreases |raw| - from
  {
    if |raw| < from + |pat| then None
    else if At(raw, pat, from) then Some(from)
    else Find(raw, pat, from + 1)
  }

  lemma FindIs(raw: Bytes, pat: Bytes, from: nat, at: nat)
    requires from <= at && At(raw, pat, at)
    requires forall i :: from <= i < at ==> !At(raw, pat, i)
    ensures Find(raw, pat, from) == Some(at)
  {}

  function Delimiter(boundary: Bytes): Bytes { DASHES + boundary }

  function Closer(boundary: Bytes): Bytes { CRLF + Delimiter(boundary) }

  function Needle(name: Bytes): Bytes { [110, 97, 109, 101, 61, 34] + name + [34] }

  // ----- reading

  /** One part: where its headers start and end, and where its body ends. */
  datatype Part = Part(head: nat, headEnd: nat, bodyEnd: nat)
  {
    function BodyStart(): nat { headEnd + 4 }
  }

  /** The next part at or after the cursor; None when the body is not shaped like one. */
  function NextPart(raw: Bytes, boundary: Bytes, cursor: nat): (p: Option<Part>)
    ensures p.Some? ==> cursor < p.value.head <= p.value.headEnd && p.value.BodyStart() <= p.value.bodyEnd < |raw|
  {
    var start := Find(raw, Delimiter(boundary), cursor);
    if start.None? then None
    else
      var head := start.value + |Delimiter(boundary)|;
      var headEnd := Find(raw, HEAD_END, head);
      if headEnd.None? then None
      else
        var bodyEnd := Find(raw, Closer(boundary), headEnd.value + 4);
        if bodyEnd.None? then None else Some(Part(head, headEnd.value, bodyEnd.value))
  }

  /** The headers between two positions name the field. */
  predicate Names(raw: Bytes, head: nat, headEnd: nat, name: Bytes)
    requires head <= headEnd <= |raw|
  {
    Find(raw[head..headEnd], Needle(name), 0).Some?
  }

  datatype Span = Span(start: nat, end: nat)

  /** The first part after the cursor that names the field. */
  function SpanFrom(raw: Bytes, boundary: Bytes, name: Bytes, cursor: nat): (s: Option<Span>)
    ensures s.Some? ==> cursor < s.value.start <= s.value.end < |raw|
    decreases |raw| - cursor
  {
    var p := NextPart(raw, boundary, cursor);
    if p.None? then None
    else if Names(raw, p.value.head, p.value.headEnd, name) then Some(Span(p.value.BodyStart(), p.value.bodyEnd))
    else SpanFrom(raw, boundary, name, p.value.bodyEnd)
  }

  /** The field's value span; a value that is not valid text is declined. */
  function FieldSpan(raw: Bytes, boundary: Bytes, name: Bytes, valid: Bytes -> bool): (s: Option<Span>)
    ensures s.Some? ==> s.value.start <= s.value.end < |raw|
  {
    if boundary == [] then None
    else
      var s := SpanFrom(raw, boundary, name, 0);
      if s.Some? && valid(raw[s.value.start..s.value.end]) then s else None
  }

  /** What one turn of the reader finds. */
  lemma OnePart(raw: Bytes, boundary: Bytes, name: Bytes, cursor: nat)
    ensures var start := Find(raw, Delimiter(boundary), cursor);
      if start.None? then SpanFrom(raw, boundary, name, cursor) == None
      else
        var head := start.value + |Delimiter(boundary)|;
        var headEnd := Find(raw, HEAD_END, head);
        if headEnd.None? then SpanFrom(raw, boundary, name, cursor) == None
        else
          var bodyEnd := Find(raw, Closer(boundary), headEnd.value + 4);
          if bodyEnd.None? then SpanFrom(raw, boundary, name, cursor) == None
          else
            && cursor < bodyEnd.value && headEnd.value + 4 <= bodyEnd.value < |raw|
            && SpanFrom(raw, boundary, name, cursor)
               == if Names(raw, head, headEnd.value, name) then Some(Span(headEnd.value + 4, bodyEnd.value))
                  else SpanFrom(raw, boundary, name, bodyEnd.value)
  {
    hide At, Needle, Find;
    var p := NextPart(raw, boundary, cursor);
  }

  /** The reader as it runs, a cursor moving part by part. */
  method FindField(raw: Bytes, boundary: Bytes, name: Bytes, valid: Bytes -> bool) returns (found: Option<Span>)
    ensures found == FieldSpan(raw, boundary, name, valid) && (boundary == [] ==> found == None)
  {
    hide Find, At, Closer, Delimiter, Needle, SpanFrom, NextPart;
    if boundary == [] {
      return None;
    }
    var cursor := 0;
    while true
      invariant SpanFrom(raw, boundary, name, 0) == SpanFrom(raw, boundary, name, cursor)
      decreases |raw| - cursor
    {
      OnePart(raw, boundary, name, cursor);
      var start := Find(raw, Delimiter(boundary), cursor);
      if start.None? {
        return None;
      }
      var head := start.value + |Delimiter(boundary)|;
      var headEnd := Find(raw, HEAD_END, head);
      if headEnd.None? {
        return None;
      }
      var bodyStart := headEnd.value + 4;
      var bodyEnd := Find(raw, Closer(boundary), bodyStart);
      if bodyEnd.None? {
        return None;
      }
      if Find(raw[head..headEnd.value], Needle(name), 0).Some? {
        return if valid(raw[bodyStart..bodyEnd.value]) then Some(Span(bodyStart, bodyEnd.value)) else None;
      }
      cursor := bodyEnd.value;
    }
  }

  /** Replace the bytes of a span. */
  function Splice(raw: Bytes, s: Span, value: Bytes): Bytes
    requires s.start <= s.end <= |raw|
  {
    raw[..s.start] + value + raw[s.end..]
  }

  /** Swap one field's value, leaving every other byte alone. */
  function Rewrite(raw: Bytes, boundary: Bytes, name: Bytes, value: Bytes, valid: Bytes -> bool): Option<Bytes> {
    var s := FieldSpan(raw, boundary, name, valid);
    if s.None? then None else Some(Splice(raw, s.value, value))
  }

  // ----- splicing commutes with reading

  /** The value, followed by what closes a part, closes the part exactly where it ends. */
  predicate Closes(boundary: Bytes, value: Bytes) {
    Find(value + Closer(boundary), Closer(boundary), 0) == Some(|value|)
  }

  /** For a boundary without a carriage return that is just "the value does not contain the closing delimiter". */
  lemma ClosesIff(boundary: Bytes, value: Bytes)
    requires CR !in boundary
    ensures Closes(boundary, value) <==> Find(value, Closer(boundary), 0) == None
  {
    var pat := Closer(boundary);
    var all := value + pat;
    assert At(all, pat, |value|);
    forall i: nat | i < |value| && At(all, pat, i) ensures At(value, pat, i) {
      if |value| < i + |pat| {
        var k := |value| - i;
        assert all[i..i + |pat|][k] == all[|value|] == CR;
        OnlyFirstIsCr(boundary, k);
      } else {
        assert all[i..i + |pat|] == value[i..i + |pat|];
      }
    }
    forall i: nat | At(value, pat, i) ensures At(all, pat, i) {
      assert all[i..i + |pat|] == value[i..i + |pat|];
    }
  }

  lemma OnlyFirstIsCr(boundary: Bytes, k: nat)
    requires CR !in boundary && 1 <= k < |Closer(boundary)|
    ensures Closer(boundary)[k] != CR
  {
    if 4 <= k {
      assert Closer(boundary)[k] == boundary[k - 4];
    }
  }

  /** An occurrence moves with the text around it. */
  lemma AtShift(a: Bytes, b: Bytes, pat: Bytes, i: nat, j: nat)
    requires i <= |a| && j <= |b| && a[i..] == b[j..]
    ensures At(a, pat, i) == At(b, pat, j)
  {
    if i + |pat| <= |a| {
      assert a[i..i + |pat|] == a[i..][..|pat|];
      assert b[j..j + |pat|] == b[j..][..|pat|];
    }
  }

  /** A search that ends inside a common prefix ends at the same place. */
  lemma FindPrefix(a: Bytes, b: Bytes, pat: Bytes, from: nat, end: nat)
    requires end <= |a| && end <= |b| && a[..end] == b[..end]
    requires Find(a, pat, from).Some? && Find(a, pat, from).value + |pat| <= end
    ensures Find(b, pat, from) == Find(a, pat, from)
  {
    var at := Find(a, pat, from).value;
    forall i: nat | from <= i <= at ensures At(a, pat, i) == At(b, pat, i) {
      assert a[i..i + |pat|] == a[..end][i..i + |pat|];
      assert b[i..i + |pat|] == b[..end][i..i + |pat|];
    }
    FindIs(b, pat, from, at);
  }

  function Shift(r: Option<nat>, d: int): Option<int> {
    if r.None? then None else Some(r.value + d)
  }

  /** A search over a common suffix ends at the shifted place. */
  lemma {:induction false} FindSuffix(a: Bytes, b: Bytes, pat: Bytes, i: nat, j: nat)
    requires i <= |a| && j <= |b| && a[i..] == b[j..]
    ensures Find(b, pat, j) == Shift(Find(a, pat, i), j - i)
    decreases |a| - i
  {
    assert |a| - i == |b| - j;
    AtShift(a, b, pat, i, j);
    if i + |pat| <= |a| && !At(a, pat, i) {
      if i < |a| {
        assert a[i + 1..] == a[i..][1..] == b[j..][1..] == b[j + 1..];
        FindSuffix(a, b, pat, i + 1, j + 1);
      }
    }
  }

  /** Where a span lies once the bytes of `s` have been replaced by `n` others. */
  function Moved(s: Span, n: nat, t: Option<Span>): Option<Span>
    requires s.start <= s.end
    requires t.Some? ==> t.value.start <= t.value.end
  {
    if t.None? then None
    else if t.value == s then Some(Span(s.start, s.start + n))
    else if t.value.start < s.end then t
    else Some(Span(t.value.start - (s.end - s.start) + n, t.value.end - (s.end - s.start) + n))
  }

  /** After the spliced value the parts are the old ones, moved. */
  lemma {:induction false} SuffixCommutes(raw: Bytes, boundary: Bytes, name: Bytes, s: Span, value: Bytes, cursor: nat)
    requires s.start <= s.end <= cursor <= |raw|
    ensures SpanFrom(Splice(raw, s, value), boundary, name, cursor + (|value| - (s.end - s.start)))
      == Moved(s, |value|, SpanFrom(raw, boundary, name, cursor))
    decreases |raw| - cursor
  {
    hide NextPart, Names;
    PartCommutes(raw, boundary, s, value, cursor);
    var p := NextPart(raw, boundary, cursor);
    if p.Some? {
      NamesCommutes(raw, name, s, value, p.value);
      SuffixCommutes(raw, boundary, name, s, value, p.value.bodyEnd);
    }
  }

  function MovedPart(p: Part, d: int): Part
    requires 0 <= p.head + d && 0 <= p.headEnd + d && 0 <= p.bodyEnd + d
  {
    Part(p.head + d, p.headEnd + d, p.bodyEnd + d)
  }

  lemma PartCommutes(raw: Bytes, boundary: Bytes, s: Span, value: Bytes, cursor: nat)
    requires s.start <= s.end <= cursor <= |raw|
    ensures var d := |value| - (s.end - s.start);
      var p := NextPart(raw, boundary, cursor);
      NextPart(Splice(raw, s, value), boundary, cursor + d) == if p.None? then None else Some(MovedPart(p.value, d))
  {
    hide Find, At, Splice, Delimiter, Closer, HEAD_END;
    var out, d := Splice(raw, s, value), |value| - (s.end - s.start);
    SpliceSuffix(raw, s, value, cursor);
    FindSuffix(raw, out, Delimiter(boundary), cursor, cursor + d);
    var start := Find(raw, Delimiter(boundary), cursor);
    if start.Some? {
      FindFits(raw, Delimiter(boundary), cursor);
      var head := start.value + |Delimiter(boundary)|;
      SpliceSuffix(raw, s, value, head);
      FindSuffix(raw, out, HEAD_END, head, head + d);
      var headEnd := Find(raw, HEAD_END, head);
      if headEnd.Some? {
        FindFits(raw, HEAD_END, head);
        HeadEndIsFour();
        SpliceSuffix(raw, s, value, headEnd.value + 4);
        FindSuffix(raw, out, Closer(boundary), headEnd.value + 4, headEnd.value + 4 + d);
      }
    }
  }

  lemma HeadEndIsFour()
    ensures |HEAD_END| == 4
  {}

  lemma FindFits(raw: Bytes, pat: Bytes, from: nat)
    ensures Find(raw, pat, from).Some? ==> Find(raw, pat, from).value + |pat| <= |raw|
  {}

  lemma NamesCommutes(raw: Bytes, name: Bytes, s: Span, value: Bytes, p: Part)
    requires s.start <= s.end <= p.head <= p.headEnd <= p.bodyEnd <= |raw|
    ensures var d := |value| - (s.end - s.start);
      p.headEnd + d <= |Splice(raw, s, value)|
      && Names(Splice(raw, s, value), p.head + d, p.headEnd + d, name) == Names(raw, p.head, p.headEnd, name)
  {
    var out, d := Splice(raw, s, value), |value| - (s.end - s.start);
    SpliceSuffix(raw, s, value, p.head);
    assert raw[p.head..p.headEnd] == raw[p.head..][..p.headEnd - p.head];
    assert out[p.head + d..p.headEnd + d] == out[p.head + d..][..p.headEnd - p.head];
  }

  lemma SpliceSuffix(raw: Bytes, s: Span, value: Bytes, i: nat)
    requires s.start <= s.end <= i <= |raw|
    ensures i + (|value| - (s.end - s.start)) <= |Splice(raw, s, value)|
    ensures raw[i..] == Splice(raw, s, value)[i + (|value| - (s.end - s.start))..]
  {}

  /** What closes one part opens the next, past its line break. */
  lemma NextHeadPastCloser(raw: Bytes, boundary: Bytes, from: nat, at: nat)
    requires Find(raw, Closer(boundary), from) == Some(at)
    ensures Find(raw, Delimiter(boundary), at).Some? ==>
      at + |Closer(boundary)| <= Find(raw, Delimiter(boundary), at).value + |Delimiter(boundary)|
  {
    var found := Find(raw, Delimiter(boundary), at);
    assert raw[at] == raw[at..at + |Closer(boundary)|][0] == 13;
    assert raw[at + 1] == raw[at..at + |Closer(boundary)|][1] == 10;
    if found.Some? {
      assert raw[found.value] == raw[found.value..found.value + |Delimiter(boundary)|][0] == 45;
    }
  }

  /** A field found after a part's closer lies wholly past that closer. */
  lemma SpanPastCloser(raw: Bytes, boundary: Bytes, name: Bytes, from: nat, at: nat)
    requires Find(raw, Closer(boundary), from) == Some(at)
    ensures SpanFrom(raw, boundary, name, at).Some? ==> at + |Closer(boundary)| <= SpanFrom(raw, boundary, name, at).value.start
  {
    hide Find, At, Closer, Delimiter;
    NextHeadPastCloser(raw, boundary, from, at);
  }

  /** Before the spliced span nothing changes: the same parts, naming the same fields. */
  lemma PartBeforeKept(raw: Bytes, boundary: Bytes, s: Span, value: Bytes, cursor: nat)
    requires s.start <= s.end <= |raw|
    requires var p := NextPart(raw, boundary, cursor); p.Some? && p.value.bodyEnd + |Closer(boundary)| <= s.start
    ensures NextPart(Splice(raw, s, value), boundary, cursor) == NextPart(raw, boundary, cursor)
  {
    hide At, Delimiter, Closer, HEAD_END;
    HeadKept(raw, boundary, s, value, cursor);
    var p := NextPart(raw, boundary, cursor).value;
    FindPrefix(raw, Splice(raw, s, value), Closer(boundary), p.BodyStart(), s.start);
  }

  /** So are the headers of the part whose body is spliced. */
  lemma HeadKept(raw: Bytes, boundary: Bytes, s: Span, value: Bytes, cursor: nat)
    requires s.start <= s.end <= |raw|
    requires var p := NextPart(raw, boundary, cursor); p.Some? && p.value.BodyStart() <= s.start
    ensures var p := NextPart(raw, boundary, cursor).value;
      var out := Splice(raw, s, value);
      && Find(out, Delimiter(boundary), cursor) == Find(raw, Delimiter(boundary), cursor)
      && Find(out, HEAD_END, p.head) == Some(p.headEnd)
  {
    hide At, Delimiter, Closer, HEAD_END;
    HeadEndIsFour();
    var out := Splice(raw, s, value);
    assert raw[..s.start] == out[..s.start];
    FindPrefix(raw, out, Delimiter(boundary), cursor, s.start);
    var p := NextPart(raw, boundary, cursor).value;
    FindPrefix(raw, out, HEAD_END, p.head, s.start);
  }

  lemma SliceOfPrefix(a: Bytes, b: Bytes, n: nat, i: nat, j: nat)
    requires i <= j <= n && n <= |a| && n <= |b| && a[..n] == b[..n]
    ensures a[i..j] == b[i..j]
  {
    forall k | i <= k < j ensures a[k] == b[k] {
      assert a[..n][k] == b[..n][k];
    }
  }

  lemma SliceOfSuffix(a: Bytes, b: Bytes, m: nat, n: nat, k: nat)
    requires m + k <= |a| && n + k <= |b| && a[m..] == b[n..]
    ensures a[m..m + k] == b[n..n + k]
  {
    assert a[m..m + k] == a[m..][..k];
    assert b[n..n + k] == b[n..][..k];
  }

  lemma NamesKept(raw: Bytes, s: Span, value: Bytes, p: Part, name: Bytes)
    requires p.head <= p.headEnd <= s.start <= s.end <= |raw|
    ensures Names(Splice(raw, s, value), p.head, p.headEnd, name) == Names(raw, p.head, p.headEnd, name)
  {
    var out := Splice(raw, s, value);
    assert raw[..s.start] == out[..s.start];
    SliceOfPrefix(raw, out, s.start, p.head, p.headEnd);
  }

  /** The two bodies, before and after the splice, are read in step up to the part that holds the field. */
  lemma {:induction false} ReadInStep(raw: Bytes, boundary: Bytes, name: Bytes, other: Bytes, s: Span, value: Bytes, cursor: nat)
      returns (c: nat)
    requires SpanFrom(raw, boundary, name, cursor) == Some(s)
    ensures var p := NextPart(raw, boundary, c);
      p.Some? && Names(raw, p.value.head, p.value.headEnd, name) && s == Span(p.value.BodyStart(), p.value.bodyEnd)
    ensures var out := Splice(raw, s, value);
      var before, after := SpanFrom(raw, boundary, other, cursor), SpanFrom(out, boundary, other, cursor);
      || (before.Some? && before.value.end < s.start && after == before)
      || (before == SpanFrom(raw, boundary, other, c) && after == SpanFrom(out, boundary, other, c))
    decreases |raw| - cursor
  {
    hide Find, At, Delimiter, Closer, HEAD_END, Splice, NextPart, Names;
    var p := NextPart(raw, boundary, cursor).value;
    if Names(raw, p.head, p.headEnd, name) {
      c := cursor;
    } else {
      PartCloses(raw, boundary, cursor);
      SpanPastCloser(raw, boundary, name, p.BodyStart(), p.bodyEnd);
      CloserNonempty(boundary);
      PartBeforeKept(raw, boundary, s, value, cursor);
      NamesKept(raw, s, value, p, other);
      c := ReadInStep(raw, boundary, name, other, s, value, p.bodyEnd);
    }
  }

  lemma CloserNonempty(boundary: Bytes)
    ensures 1 <= |Closer(boundary)|
  {}

  lemma PartCloses(raw: Bytes, boundary: Bytes, cursor: nat)
    requires NextPart(raw, boundary, cursor).Some?
    ensures var p := NextPart(raw, boundary, cursor).value; Find(raw, Closer(boundary), p.BodyStart()) == Some(p.bodyEnd)
  {
    hide Find, At, Delimiter, Closer, HEAD_END;
  }

  /** Where the spliced part now ends: at the end of the value, exactly when the value closes there. */
  lemma SplicedBodyEnd(raw: Bytes, boundary: Bytes, s: Span, value: Bytes)
    requires s.start <= s.end <= |raw| && At(raw, Closer(boundary), s.end)
    ensures var out := Splice(raw, s, value);
      Find(out, Closer(boundary), s.start).Some?
      && (Find(out, Closer(boundary), s.start).value == s.start + |value| <==> Closes(boundary, value))
  {
    hide Closer, Find;
    var out, pat := Splice(raw, s, value), Closer(boundary);
    var all := value + pat;
    SplicedWindow(raw, s, value, pat);
    hide Splice;
    forall i: nat | i <= |value| ensures At(out, pat, s.start + i) == At(all, pat, i) {
      WindowAt(out, all, pat, s.start, i);
    }
    assert At(all, pat, |value|);
    assert At(out, pat, s.start + |value|);
    FirstAgrees(out, all, pat, s.start, |value|);
  }

  /** Past the splice point come the value and whatever followed the old one. */
  lemma SplicedWindow(raw: Bytes, s: Span, value: Bytes, pat: Bytes)
    requires s.start <= s.end <= |raw| && At(raw, pat, s.end)
    ensures var out, n := Splice(raw, s, value), |value| + |pat|;
      s.start + n <= |out| && out[s.start..s.start + n] == value + pat
  {
    var after := raw[s.end + |pat|..];
    assert raw[s.end..] == pat + after;
    assert Splice(raw, s, value) == raw[..s.start] + (value + pat) + after;
  }

  lemma SubSlice(a: Bytes, m: nat, n: nat, i: nat, j: nat)
    requires m <= n <= |a| && i <= j <= n - m
    ensures a[m..n][i..j] == a[m + i..m + j]
  {
    forall k | 0 <= k < j - i ensures a[m..n][i..j][k] == a[m + i..m + j][k] {}
  }

  lemma WindowAt(out: Bytes, all: Bytes, pat: Bytes, start: nat, i: nat)
    requires start + |all| <= |out| && out[start..start + |all|] == all && i + |pat| <= |all|
    ensures At(out, pat, start + i) == At(all, pat, i)
  {
    SubSlice(out, start, start + |all|, i, i + |pat|);
  }

  lemma FirstAgrees(a: Bytes, b: Bytes, pat: Bytes, start: nat, n: nat)
    requires forall i: nat :: i <= n ==> At(a, pat, start + i) == At(b, pat, i)
    requires At(b, pat, n)
    ensures Find(a, pat, start).Some? && (Find(a, pat, start).value == start + n <==> Find(b, pat, 0) == Some(n))
  {
    hide At;
    assert At(a, pat, start + n);
    var x, y := Find(a, pat, start).value, Find(b, pat, 0).value;
    assert x <= start + n && y <= n;
    assert At(b, pat, x - start) && At(a, pat, start + y);
  }

  /** Rewriting commutes with reading. The rewritten field reads back as the new value; every other field reads as it did
      before, at the same place if it comes earlier and moved by the change in length if it comes later; a field that was
      not there is still not there. */
  lemma RewriteCommutes(raw: Bytes, boundary: Bytes, name: Bytes, value: Bytes, other: Bytes, valid: Bytes -> bool)
    requires FieldSpan(raw, boundary, name, valid).Some? && Closes(boundary, value) && valid(value)
    ensures var s := FieldSpan(raw, boundary, name, valid).value;
      var out := Rewrite(raw, boundary, name, value, valid).value;
      && FieldSpan(out, boundary, other, valid) == Moved(s, |value|, FieldSpan(raw, boundary, other, valid))
      && FieldSpan(out, boundary, name, valid) == Some(Span(s.start, s.start + |value|))
      && out[s.start..s.start + |value|] == value
      && (FieldSpan(raw, boundary, other, valid).Some? && FieldSpan(raw, boundary, other, valid).value != s ==>
            var t, u := FieldSpan(raw, boundary, other, valid).value, FieldSpan(out, boundary, other, valid).value;
            out[u.start..u.end] == raw[t.start..t.end])
  {
    hide Closes, SpanFrom, Splice;
    var s := FieldSpan(raw, boundary, name, valid).value;
    var out := Splice(raw, s, value);
    SpansCommute(raw, boundary, name, value, name, s);
    SpansCommute(raw, boundary, name, value, other, s);
    ValueSpliced(raw, s, value);
    var t := SpanFrom(raw, boundary, other, 0);
    if t.Some? && t.value != s {
      SpansApart(raw, boundary, name, value, other, s);
      OtherBytesKept(raw, s, value, t.value);
    }
  }

  lemma ValueSpliced(raw: Bytes, s: Span, value: Bytes)
    requires s.start <= s.end <= |raw|
    ensures s.start + |value| <= |Splice(raw, s, value)| && Splice(raw, s, value)[s.start..s.start + |value|] == value
    ensures Splice(Splice(raw, s, value), Span(s.start, s.start + |value|), raw[s.start..s.end]) == raw
  {}

  lemma OtherBytesKept(raw: Bytes, s: Span, value: Bytes, t: Span)
    requires s.start <= s.end <= |raw| && t.start <= t.end <= |raw| && (t.end < s.start || s.end < t.start)
    ensures var out, u := Splice(raw, s, value), Moved(s, |value|, Some(t)).value;
      u.start <= u.end <= |out| && out[u.start..u.end] == raw[t.start..t.end]
  {
    var out, u := Splice(raw, s, value), Moved(s, |value|, Some(t)).value;
    if t.end < s.start {
      assert out[..s.start] == raw[..s.start];
      SliceOfPrefix(out, raw, s.start, t.start, t.end);
    } else {
      SpliceSuffix(raw, s, value, t.start);
      SliceOfSuffix(out, raw, u.start, t.start, t.end - t.start);
    }
  }

  /** The spliced part keeps its headers and ends where the value does. */
  lemma SplicedPart(raw: Bytes, boundary: Bytes, p: Part, value: Bytes, cursor: nat)
    requires NextPart(raw, boundary, cursor) == Some(p)
    ensures var s := Span(p.BodyStart(), p.bodyEnd);
      var q := NextPart(Splice(raw, s, value), boundary, cursor);
      && q.Some? && q.value.head == p.head && q.value.headEnd == p.headEnd
      && (q.value.bodyEnd == s.start + |value| <==> Closes(boundary, value))
  {
    hide Find, At, Delimiter, Closer, HEAD_END, Splice, Closes;
    var s := Span(p.BodyStart(), p.bodyEnd);
    PartCloses(raw, boundary, cursor);
    SplicedBodyEnd(raw, boundary, s, value);
    HeadKept(raw, boundary, s, value, cursor);
  }

  lemma SpansCommute(raw: Bytes, boundary: Bytes, name: Bytes, value: Bytes, other: Bytes, s: Span)
    requires SpanFrom(raw, boundary, name, 0) == Some(s) && Closes(boundary, value)
    ensures SpanFrom(Splice(raw, s, value), boundary, other, 0) == Moved(s, |value|, SpanFrom(raw, boundary, other, 0))
  {
    hide Find, At, Delimiter, Closer, HEAD_END, Splice, Names, Closes, NextPart;
    var c := ReadInStep(raw, boundary, name, other, s, value, 0);
    var p := NextPart(raw, boundary, c).value;
    SplicedPart(raw, boundary, p, value, c);
    NamesKept(raw, s, value, p, other);
    SuffixCommutes(raw, boundary, other, s, value, s.end);
  }

  lemma SpansApart(raw: Bytes, boundary: Bytes, name: Bytes, value: Bytes, other: Bytes, s: Span)
    requires SpanFrom(raw, boundary, name, 0) == Some(s)
    requires SpanFrom(raw, boundary, other, 0).Some? && SpanFrom(raw, boundary, other, 0).value != s
    ensures var t := SpanFrom(raw, boundary, other, 0).value; t.end < s.start || s.end < t.start
  {
    hide Find, At, Delimiter, Closer, HEAD_END, Splice, Names, NextPart;
    var c := ReadInStep(raw, boundary, name, other, s, value, 0);
  }

  /** A value that would close the part early, or is not text, is exactly what does not read back. */
  lemma ReadsBackIff(raw: Bytes, boundary: Bytes, name: Bytes, value: Bytes, valid: Bytes -> bool)
    requires FieldSpan(raw, boundary, name, valid).Some?
    ensures var s := FieldSpan(raw, boundary, name, valid).value;
      FieldSpan(Rewrite(raw, boundary, name, value, valid).value, boundary, name, valid) == Some(Span(s.start, s.start + |value|))
      <==> Closes(boundary, value) && valid(value)
  {
    hide Find, At, Delimiter, Closer, HEAD_END, Splice, Names, Closes, NextPart;
    var s := FieldSpan(raw, boundary, name, valid).value;
    ValueSpliced(raw, s, value);
    var c := ReadInStep(raw, boundary, name, name, s, value, 0);
    var p := NextPart(raw, boundary, c).value;
    SplicedPart(raw, boundary, p, value, c);
    NamesKept(raw, s, value, p, name);
  }

  /** Writing the old value back restores every byte of the body. */
  lemma RewriteUndone(raw: Bytes, boundary: Bytes, name: Bytes, value: Bytes, valid: Bytes -> bool)
    requires FieldSpan(raw, boundary, name, valid).Some? && Closes(boundary, value) && valid(value)
    ensures var s := FieldSpan(raw, boundary, name, valid).value;
      Rewrite(Rewrite(raw, boundary, name, value, valid).value, boundary, name, raw[s.start..s.end], valid) == Some(raw)
  {
    hide Closes, SpanFrom, Splice;
    RewriteCommutes(raw, boundary, name, value, name, valid);
    ValueSpliced(raw, FieldSpan(raw, boundary, name, valid).value, value);
  }

  // ----- a body that is put together part by part reads back

  datatype Field = Field(headers: Bytes, value: Bytes)

  /** Each part after its delimiter, and the delimiter that closes the last. */
  function Body(boundary: Bytes, fields: seq<Field>): Bytes {
    if fields == [] then [45, 45] + boundary + [45, 45]
    else [45, 45] + boundary + fields[0].headers + [13, 10, 13, 10] + fields[0].value + [13, 10] + Body(boundary, fields[1..])
  }

  /** The first occurrence in the text followed by the pattern is the one that follows it. */
  ghost predicate EndsAt(text: Bytes, pat: Bytes) {
    forall i :: 0 <= i < |text| ==> !At(text + pat, pat, i)
  }

  /** Neither the headers nor the value hold what ends them. */
  ghost predicate Separable(boundary: Bytes, fields: seq<Field>) {
    forall k :: 0 <= k < |fields| ==>
      EndsAt(fields[k].headers, [13, 10, 13, 10]) && EndsAt(fields[k].value, [13, 10, 45, 45] + boundary)
  }

  /** The headers hold name="..." with this name in the quotes. */
  ghost predicate Mentions(headers: Bytes, name: Bytes) {
    exists i :: 0 <= i < |headers| && At(headers, [110, 97, 109, 101, 61, 34] + name + [34], i)
  }

  ghost predicate FirstNaming(fields: seq<Field>, name: Bytes, k: nat) {
    k < |fields| && Mentions(fields[k].headers, name) && forall j :: 0 <= j < k ==> !Mentions(fields[j].headers, name)
  }

  /** Where the value of a part starts in the body. */
  function ValueAt(boundary: Bytes, fields: seq<Field>, k: nat): nat
    requires k < |fields|
  {
    2 + |boundary| + |fields[0].headers| + 4
    + if k == 0 then 0 else |fields[0].value| + 2 + ValueAt(boundary, fields[1..], k - 1)
  }

  lemma NamesMentions(raw: Bytes, head: nat, headEnd: nat, name: Bytes)
    requires head <= headEnd <= |raw|
    ensures Names(raw, head, headEnd, name) <==> Mentions(raw[head..headEnd], name)
  {
    var headers := raw[head..headEnd];
    if Find(headers, Needle(name), 0).Some? {
      assert At(headers, Needle(name), Find(headers, Needle(name), 0).value);
    }
  }

  lemma SliceOfSlice(a: Bytes, m: nat, n: nat, i: nat, j: nat)
    requires m <= n <= |a| && i <= j <= n - m
    ensures a[m..n][i..j] == a[m + i..m + j]
  {
    forall k | 0 <= k < j - i ensures a[m..n][i..j][k] == a[m + i..m + j][k] {}
  }

  /** A search for what follows a text that does not hold it ends there. */
  lemma FindAfter(raw: Bytes, text: Bytes, pat: Bytes, from: nat)
    requires from + |text| + |pat| <= |raw| && raw[from..from + |text| + |pat|] == text + pat && EndsAt(text, pat)
    ensures Find(raw, pat, from) == Some(from + |text|)
  {
    var window := text + pat;
    assert raw[from + |text|..from + |text| + |pat|] == raw[from..from + |text| + |pat|][|text|..];
    forall i: nat | from <= i < from + |text| ensures !At(raw, pat, i) {
      SliceOfSlice(raw, from, from + |text| + |pat|, i - from, i - from + |pat|);
      assert !At(window, pat, i - from);
    }
    FindIs(raw, pat, from, from + |text|);
  }

  /** One part read where it stands: at the start of the body, or after the line break that ends the part before. */
  lemma ReadsPart(raw: Bytes, boundary: Bytes, cursor: nat, lead: Bytes, field: Field, rest: Bytes)
    requires lead == [] || lead == [13, 10]
    requires EndsAt(field.headers, HEAD_END) && EndsAt(field.value, Closer(boundary))
    requires cursor <= |raw| && Delimiter(boundary) <= rest
    requires raw[cursor..] == lead + Delimiter(boundary) + field.headers + HEAD_END + field.value + CRLF + rest
    ensures var head := cursor + |lead| + |Delimiter(boundary)|;
      var part := Part(head, head + |field.headers|, head + |field.headers| + 4 + |field.value|);
      && NextPart(raw, boundary, cursor) == Some(part) && part.bodyEnd <= |raw|
      && raw[part.head..part.headEnd] == field.headers && raw[part.BodyStart()..part.bodyEnd] == field.value
      && raw[part.bodyEnd..] == CRLF + rest
  {
    hide Find, EndsAt, At, Delimiter, NextPart;
    var head := |lead| + |Delimiter(boundary)|;
    var headEnd := head + |field.headers|;
    Parted(raw, cursor, lead, Delimiter(boundary), field.headers, field.value, rest);
    LeadEnds(lead, boundary);
    hide Closer, HEAD_END;
    Sizes(boundary);
    FindAfter(raw, lead, Delimiter(boundary), cursor);
    FindAfter(raw, field.headers, HEAD_END, cursor + head);
    FindAfter(raw, field.value, Closer(boundary), cursor + headEnd + 4);
    NextPartIs(raw, boundary, cursor, cursor + |lead|, cursor + headEnd, cursor + headEnd + 4 + |field.value|);
  }

  lemma NextPartIs(raw: Bytes, boundary: Bytes, cursor: nat, start: nat, headEnd: nat, bodyEnd: nat)
    requires Find(raw, Delimiter(boundary), cursor) == Some(start)
    requires Find(raw, HEAD_END, start + |Delimiter(boundary)|) == Some(headEnd)
    requires Find(raw, Closer(boundary), headEnd + 4) == Some(bodyEnd)
    ensures NextPart(raw, boundary, cursor) == Some(Part(start + |Delimiter(boundary)|, headEnd, bodyEnd))
  {
    hide Find, Delimiter, Closer, HEAD_END;
  }

  lemma Sizes(boundary: Bytes)
    ensures |HEAD_END| == 4 && Closer(boundary) == CRLF + Delimiter(boundary)
    ensures |Closer(boundary)| == 2 + |Delimiter(boundary)|
  {}

  lemma Marks(boundary: Bytes)
    ensures Delimiter(boundary) == [45, 45] + boundary && Closer(boundary) == [13, 10] + ([45, 45] + boundary)
    ensures Closer(boundary) == [13, 10, 45, 45] + boundary && HEAD_END == [13, 10, 13, 10]
  {}

  /** Where the pieces of a part lie. */
  lemma Parted(raw: Bytes, cursor: nat, lead: Bytes, delimiter: Bytes, headers: Bytes, value: Bytes, rest: Bytes)
    requires cursor <= |raw| && delimiter <= rest
    requires raw[cursor..] == lead + delimiter + headers + HEAD_END + value + CRLF + rest
    ensures var head := cursor + |lead| + |delimiter|; var headEnd := head + |headers|; var bodyEnd := headEnd + 4 + |value|;
      && bodyEnd + 2 + |delimiter| <= |raw|
      && raw[cursor..head] == lead + delimiter && raw[head..headEnd + 4] == headers + HEAD_END
      && raw[headEnd + 4..bodyEnd + 2 + |delimiter|] == value + (CRLF + delimiter)
      && raw[head..headEnd] == headers && raw[headEnd + 4..bodyEnd] == value && raw[bodyEnd..] == CRLF + rest
  {
    var after := value + (CRLF + rest);
    Regrouped(lead + delimiter, headers, value, rest);
    Tail(raw, cursor, lead + delimiter, headers + HEAD_END + after);
    var head := cursor + |lead| + |delimiter|;
    Tail(raw, head, headers + HEAD_END, after);
    assert headers + HEAD_END + after == headers + (HEAD_END + after);
    Tail(raw, head, headers, HEAD_END + after);
    PartedBody(raw, head + |headers| + 4, delimiter, value, rest);
  }

  lemma Regrouped(opening: Bytes, headers: Bytes, value: Bytes, rest: Bytes)
    ensures opening + headers + HEAD_END + value + CRLF + rest == opening + (headers + HEAD_END + (value + (CRLF + rest)))
  {}

  lemma PartedBody(raw: Bytes, body: nat, delimiter: Bytes, value: Bytes, rest: Bytes)
    requires body <= |raw| && raw[body..] == value + (CRLF + rest) && delimiter <= rest
    ensures var bodyEnd := body + |value|;
      && bodyEnd + 2 + |delimiter| <= |raw| && raw[body..bodyEnd + 2 + |delimiter|] == value + (CRLF + delimiter)
      && raw[body..bodyEnd] == value && raw[bodyEnd..] == CRLF + rest
  {
    Tail(raw, body, value, CRLF + rest);
    assert rest == delimiter + rest[|delimiter|..];
    assert value + (CRLF + rest) == value + (CRLF + delimiter) + rest[|delimiter|..];
    Tail(raw, body, value + (CRLF + delimiter), rest[|delimiter|..]);
  }

  lemma Tail(raw: Bytes, from: nat, first: Bytes, rest: Bytes)
    requires from <= |raw| && raw[from..] == first + rest
    ensures from + |first| <= |raw| && raw[from..from + |first|] == first && raw[from + |first|..] == rest
  {
    assert raw[from..][..|first|] == first && raw[from..][|first|..] == rest;
  }

  lemma LeadEnds(lead: Bytes, boundary: Bytes)
    requires lead == [] || lead == [13, 10]
    ensures EndsAt(lead, Delimiter(boundary))
  {
    forall i | 0 <= i < |lead| ensures !At(lead + Delimiter(boundary), Delimiter(boundary), i) {
      assert (lead + Delimiter(boundary))[i..][0] == lead[i];
      assert Delimiter(boundary)[0] == 45;
      if i + |Delimiter(boundary)| <= |lead + Delimiter(boundary)| {
        assert (lead + Delimiter(boundary))[i..i + |Delimiter(boundary)|][0] == lead[i];
      }
    }
  }

  /** The closing delimiter ends the reading. */
  lemma ReadsEnd(raw: Bytes, boundary: Bytes, cursor: nat, lead: Bytes)
    requires lead == [] || lead == [13, 10]
    requires cursor <= |raw| && raw[cursor..] == lead + (Delimiter(boundary) + [45, 45])
    ensures NextPart(raw, boundary, cursor) == None
  {
    LeadEnds(lead, boundary);
    assert raw[cursor..][..|lead| + 2 + |boundary|] == lead + Delimiter(boundary);
    FindAfter(raw, lead, Delimiter(boundary), cursor);
  }

  /** What reading from `at` finds, the parts that are left standing from there on. */
  ghost predicate Finds(raw: Bytes, boundary: Bytes, name: Bytes, found: Option<Span>, at: nat, fields: seq<Field>) {
    && ((forall k :: 0 <= k < |fields| ==> !Mentions(fields[k].headers, name)) ==> found == None)
    && (forall k: nat :: FirstNaming(fields, name, k) ==> FoundAt(raw, found, at + ValueAt(boundary, fields, k), fields[k].value))
  }

  ghost predicate FoundAt(raw: Bytes, found: Option<Span>, start: nat, value: Bytes) {
    found == Some(Span(start, start + |value|)) && start + |value| <= |raw| && raw[start..start + |value|] == value
  }

  lemma {:induction false} ReadsFrom(raw: Bytes, boundary: Bytes, name: Bytes, cursor: nat, lead: Bytes, fields: seq<Field>)
    requires lead == [] || lead == [13, 10]
    requires Separable(boundary, fields) && cursor <= |raw| && raw[cursor..] == lead + Body(boundary, fields)
    ensures Finds(raw, boundary, name, SpanFrom(raw, boundary, name, cursor), cursor + |lead|, fields)
    decreases |fields|
  {
    hide NextPart, Names, Find, At, Mentions, Body, EndsAt, Delimiter, Closer, Finds;
    Marks(boundary);
    BodyIs(boundary, fields);
    if fields == [] {
      ReadsEnd(raw, boundary, cursor, lead);
      FindsNothing(raw, boundary, name, cursor + |lead|);
    } else {
      var field, rest := fields[0], Body(boundary, fields[1..]);
      BodyIs(boundary, fields[1..]);
      Joined(lead, Delimiter(boundary), field, rest);
      ReadsPart(raw, boundary, cursor, lead, field, rest);
      var part := NextPart(raw, boundary, cursor).value;
      NamesMentions(raw, part.head, part.headEnd, name);
      SeparableRest(boundary, fields);
      ReadsFrom(raw, boundary, name, part.bodyEnd, [13, 10], fields[1..]);
      FindsNext(raw, boundary, name, SpanFrom(raw, boundary, name, cursor), SpanFrom(raw, boundary, name, part.bodyEnd),
                cursor + |lead|, fields);
    }
  }

  lemma SeparableRest(boundary: Bytes, fields: seq<Field>)
    requires Separable(boundary, fields) && fields != []
    ensures Separable(boundary, fields[1..])
    ensures EndsAt(fields[0].headers, [13, 10, 13, 10]) && EndsAt(fields[0].value, [13, 10, 45, 45] + boundary)
  {
    hide EndsAt;
  }

  lemma FindsNothing(raw: Bytes, boundary: Bytes, name: Bytes, at: nat)
    ensures Finds(raw, boundary, name, None, at, [])
  {}

  lemma FindsNext(raw: Bytes, boundary: Bytes, name: Bytes, found: Option<Span>, later: Option<Span>, at: nat, fields: seq<Field>)
    requires fields != []
    requires Finds(raw, boundary, name, later, at + ValueAt(boundary, fields, 0) + |fields[0].value| + 2, fields[1..])
    requires Mentions(fields[0].headers, name) ==> FoundAt(raw, found, at + ValueAt(boundary, fields, 0), fields[0].value)
    requires !Mentions(fields[0].headers, name) ==> found == later
    ensures Finds(raw, boundary, name, found, at, fields)
  {
    hide Mentions, FoundAt, ValueAt;
    if !Mentions(fields[0].headers, name) {
      forall k: nat | FirstNaming(fields, name, k)
        ensures FoundAt(raw, found, at + ValueAt(boundary, fields, k), fields[k].value)
      {
        assert FirstNaming(fields[1..], name, k - 1);
        NextValueAt(boundary, fields, k);
      }
      if forall k :: 0 <= k < |fields| ==> !Mentions(fields[k].headers, name) {
        assert forall k :: 0 <= k < |fields[1..]| ==> fields[1..][k] == fields[k + 1];
      }
    }
  }

  lemma NextValueAt(boundary: Bytes, fields: seq<Field>, k: nat)
    requires 0 < k < |fields|
    ensures ValueAt(boundary, fields, k)
      == ValueAt(boundary, fields, 0) + |fields[0].value| + 2 + ValueAt(boundary, fields[1..], k - 1)
  {}

  lemma Joined(lead: Bytes, delimiter: Bytes, field: Field, rest: Bytes)
    ensures lead + (delimiter + field.headers + HEAD_END + field.value + CRLF + rest)
      == lead + delimiter + field.headers + HEAD_END + field.value + CRLF + rest
  {}

  lemma BodyIs(boundary: Bytes, fields: seq<Field>)
    ensures Delimiter(boundary) <= Body(boundary, fields) && |Delimiter(boundary)| == 2 + |boundary|
    ensures Body(boundary, fields) == if fields == [] then Delimiter(boundary) + [45, 45]
      else Delimiter(boundary) + fields[0].headers + HEAD_END + fields[0].value + CRLF + Body(boundary, fields[1..])
  {}

  /** Reading undoes writing: of a body put together from fields whose parts do not hold what ends them, the span found is the
      value of the first whose headers carry the name, and none is found when no headers do. */
  lemma ReadsWhatWasWritten(boundary: Bytes, name: Bytes, fields: seq<Field>, valid: Bytes -> bool)
    requires boundary != [] && Separable(boundary, fields)
    ensures var raw := Body(boundary, fields);
      && ((forall k :: 0 <= k < |fields| ==> !Mentions(fields[k].headers, name)) ==> FieldSpan(raw, boundary, name, valid) == None)
      && (forall k: nat :: FirstNaming(fields, name, k) ==>
            var found := FieldSpan(raw, boundary, name, valid);
            if valid(fields[k].value) then FoundAt(raw, found, ValueAt(boundary, fields, k), fields[k].value) else found == None)
  {
    hide SpanFrom, Body, Mentions, ValueAt, Separable, FirstNaming;
    assert Body(boundary, fields)[0..] == [] + Body(boundary, fields);
    ReadsFrom(Body(boundary, fields), boundary, name, 0, [], fields);
  }
}

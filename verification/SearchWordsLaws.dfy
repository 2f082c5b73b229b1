/** What splitting a search text keeps: every character that is not a blank, and the words themselves
    when they are joined by spaces and split again. */
module SearchWordsLaws {
  import opened SearchWords

  // ---- Nothing is lost ----

  function Squeeze(s: string): string {
    if s == [] then [] else (if IsSpace(s[0]) then [] else [s[0]]) + Squeeze(s[1..])
  }

  function Glue(ws: seq<string>): string {
    if ws == [] then [] else ws[0] + Glue(ws[1..])
  }

  lemma {:induction false} SqueezeJoin(a: string, b: string)
    ensures Squeeze(a + b) == Squeeze(a) + Squeeze(b)
  {
    if a == [] {
      assert a + b == b;
    } else {
      assert (a + b)[1..] == a[1..] + b;
      SqueezeJoin(a[1..], b);
    }
  }

  lemma {:induction false} GlueJoin(a: seq<string>, b: seq<string>)
    ensures Glue(a + b) == Glue(a) + Glue(b)
  {
    if a == [] {
      assert a + b == b;
    } else {
      assert (a + b)[1..] == a[1..] + b;
      GlueJoin(a[1..], b);
    }
  }

  lemma {:induction false} FieldsLoseNothing(s: string)
    ensures Squeeze(Glue(Fields(s))) == Squeeze(s)
    decreases |s|
  {
    if s != [] {
      if IsSpace(s[0]) {
        FieldsLoseNothing(s[1..]);
      } else {
        var n := SolidPrefix(s);
        FieldsLoseNothing(s[n..]);
        SqueezeJoin(s[..n], Glue(Fields(s[n..])));
        SqueezeJoin(s[..n], s[n..]);
        assert s[..n] + s[n..] == s;
      }
    }
  }

  // No character but blanks is lost, and the order is kept: unbalanced quotes and all.
  lemma {:induction false} SplitLosesNothing(s: string)
    ensures Squeeze(Glue(Split(s))) == Squeeze(s)
    decreases |s|, 1
  {
    hide Squeeze, Glue, Fields, FromPhrase;
    var q := QuoteFrom(s, 0);
    if q == |s| {
      FieldsLoseNothing(s);
    } else {
      var start := PhraseStart(s, q);
      FieldsLoseNothing(s[..start]);
      PhraseLosesNothing(s[start..], q - start);
      SqueezeTwo(s, start, Fields(s[..start]), FromPhrase(s[start..], q - start));
    }
  }

  lemma SqueezeTwo(s: string, k: nat, a: seq<string>, b: seq<string>)
    requires k <= |s| && Squeeze(Glue(a)) == Squeeze(s[..k]) && Squeeze(Glue(b)) == Squeeze(s[k..])
    ensures Squeeze(Glue(a + b)) == Squeeze(s)
  {
    hide Squeeze, Glue;
    GlueJoin(a, b);
    SqueezeJoin(Glue(a), Glue(b));
    SqueezeJoin(s[..k], s[k..]);
    assert s[..k] + s[k..] == s;
  }

  lemma {:induction false} PhraseLosesNothing(s: string, q: nat)
    requires q < |s|
    ensures Squeeze(Glue(FromPhrase(s, q))) == Squeeze(s)
    decreases |s|, 0
  {
    hide Squeeze, Fields, Split;
    var e := QuoteFrom(s, q + 1);
    if e == |s| {
      FieldsLoseNothing(s);
    } else {
      SplitLosesNothing(s[e + 1..]);
      assert Glue([s[..e + 1]]) == s[..e + 1] + Glue([]) == s[..e + 1];
      SqueezeTwo(s, e + 1, [s[..e + 1]], Split(s[e + 1..]));
    }
  }

  // ---- What words look like ----

  function Mark(w: string): nat { if w != [] && w[0] == '-' then 1 else 0 }

  ghost predicate Plain(w: string) { Solid(w) && '"' !in w }

  // A phrase: an optional minus sign, and no quotes but the first and the last.
  ghost predicate Quoted(w: string) {
    var q := Mark(w);
    q + 1 < |w| && w[q] == '"' && w[|w| - 1] == '"' && forall k :: q < k < |w| - 1 ==> w[k] != '"'
  }

  // The start of a phrase that is never closed.
  ghost predicate Opening(w: string) {
    var q := Mark(w);
    q < |w| && w[q] == '"' && Solid(w) && forall k :: q < k < |w| ==> w[k] != '"'
  }

  ghost predicate Normal(ws: seq<string>) {
    ws != [] ==>
      || ((Plain(ws[0]) || Quoted(ws[0])) && Normal(ws[1..]))
      || (Opening(ws[0]) && forall w :: w in ws[1..] ==> Plain(w))
  }

  lemma {:induction false} FieldsPlain(s: string)
    requires '"' !in s
    ensures forall w :: w in Fields(s) ==> Plain(w)
    decreases |s|
  {
    if s != [] {
      if IsSpace(s[0]) {
        FieldsPlain(s[1..]);
      } else {
        var n := SolidPrefix(s);
        FieldsPlain(s[n..]);
      }
    }
  }

  lemma {:induction false} NormalAfterPlain(ps: seq<string>, ws: seq<string>)
    requires (forall w :: w in ps ==> Plain(w)) && Normal(ws)
    ensures Normal(ps + ws)
  {
    if ps == [] {
      assert ps + ws == ws;
    } else {
      assert (ps + ws)[1..] == ps[1..] + ws && ps[0] in ps;
      NormalAfterPlain(ps[1..], ws);
    }
  }

  // Every word is non-empty, and is a plain word, a whole phrase, or the first word of an unclosed one.
  lemma {:induction false} SplitNormal(s: string)
    ensures Normal(Split(s))
    decreases |s|, 1
  {
    var q := QuoteFrom(s, 0);
    if q == |s| {
      FieldsPlain(s);
      NormalAfterPlain(Fields(s), []);
      assert Fields(s) + [] == Fields(s);
    } else {
      var start := PhraseStart(s, q);
      FieldsPlain(s[..start]);
      PhraseNormal(s[start..]);
      assert Mark(s[start..]) == q - start;
      NormalAfterPlain(Fields(s[..start]), FromPhrase(s[start..], q - start));
    }
  }

  lemma {:induction false} PhraseNormal(s: string)
    requires Mark(s) < |s| && s[Mark(s)] == '"'
    ensures Normal(FromPhrase(s, Mark(s)))
    decreases |s|, 0
  {
    var q := Mark(s);
    var e := QuoteFrom(s, q + 1);
    if e == |s| {
      var n := SolidPrefix(s);
      FieldsPlain(s[n..]);
      assert Opening(s[..n]);
    } else {
      SplitNormal(s[e + 1..]);
      assert Quoted(s[..e + 1]);
      assert FromPhrase(s, q)[1..] == Split(s[e + 1..]);
    }
  }

  lemma {:induction false} NormalWords(ws: seq<string>)
    requires Normal(ws)
    ensures forall w :: w in ws ==> w != [] && (Plain(w) || Quoted(w) || Opening(w))
  {
    if ws != [] {
      assert ws == [ws[0]] + ws[1..];
      if !Opening(ws[0]) || exists w :: w in ws[1..] && !Plain(w) {
        NormalWords(ws[1..]);
      }
    }
  }

  // ---- Splitting the words again ----

  function Join(ws: seq<string>): string {
    if ws == [] then [] else if |ws| == 1 then ws[0] else ws[0] + " " + Join(ws[1..])
  }

  lemma {:induction false} PrefixIs(s: string, n: nat)
    requires n <= |s| && (forall i :: 0 <= i < n ==> !IsSpace(s[i])) && (n < |s| ==> IsSpace(s[n]))
    ensures SolidPrefix(s) == n
  {
    if n > 0 { PrefixIs(s[1..], n - 1); }
  }

  lemma FieldsSolidFirst(w: string, u: string)
    requires Solid(w)
    ensures Fields(w + " " + u) == [w] + Fields(u) && Fields(w) == [w]
  {
    var s := w + " " + u;
    PrefixIs(s, |w|);
    PrefixIs(w, |w|);
    assert s[..|w|] == w && s[|w|..] == " " + u && (" " + u)[1..] == u;
    assert w[..|w|] == w && w[|w|..] == [];
  }

  lemma {:induction false} FieldsOfJoin(ws: seq<string>)
    requires forall w :: w in ws ==> Solid(w)
    ensures Fields(Join(ws)) == ws
  {
    if ws != [] {
      assert ws == [ws[0]] + ws[1..] && ws[0] in ws;
      FieldsOfJoin(ws[1..]);
      FieldsSolidFirst(ws[0], Join(ws[1..]));
    }
  }

  lemma SplitInto(s: string, q: nat, head: string, tail: string, p: nat)
    requires q < |s| && s[q] == '"' && forall k :: 0 <= k < q ==> s[k] != '"'
    requires s[..PhraseStart(s, q)] == head && s[PhraseStart(s, q)..] == tail && p + PhraseStart(s, q) == q
    ensures Split(s) == Fields(head) + FromPhrase(tail, p)
  {
    SplitAtQuote(s, q);
  }

  lemma NoMoreQuotesIn(w: string)
    requires '"' !in w
    ensures Split(w) == Fields(w)
  {
    QuoteIs(w, 0, |w|);
  }

  lemma QuoteAfter(w: string, t: string, q: nat)
    requires '"' !in w && q <= |t| && forall k :: 0 <= k < q ==> t[k] != '"'
    ensures forall k :: 0 <= k < |w| + 1 + q ==> (w + " " + t)[k] != '"'
    ensures q < |t| ==> (w + " " + t)[|w| + 1 + q] == t[q]
    ensures q < |t| ==> PhraseStart(w + " " + t, |w| + 1 + q) == |w| + 1 + PhraseStart(t, q)
  {
    var s, n := w + " " + t, |w| + 1;
    assert forall k :: 0 <= k < |t| ==> s[n + k] == t[k];
    forall k | 0 <= k < n + q ensures s[k] != '"' {
      if k < |w| { assert s[k] == w[k]; } else if k >= n { assert s[k] == t[k - n]; }
    }
  }

  lemma CutAfter(w: string, t: string, start: nat)
    requires start <= |t|
    ensures (w + " " + t)[..|w| + 1 + start] == w + " " + t[..start]
    ensures (w + " " + t)[|w| + 1 + start..] == t[start..]
  {
  }

  // A piece without quotes put in front of a text, with a blank between.
  lemma SplitAfter(w: string, t: string, q: nat, start: nat)
    requires '"' !in w && q < |t| && t[q] == '"' && (forall k :: 0 <= k < q ==> t[k] != '"')
    requires start == PhraseStart(t, q)
    ensures Split(w + " " + t) == Fields(w + " " + t[..start]) + FromPhrase(t[start..], q - start)
  {
    hide *;
    QuoteAfter(w, t, q);
    CutAfter(w, t, start);
    SplitInto(w + " " + t, |w| + 1 + q, w + " " + t[..start], t[start..], q - start);
  }

  lemma SplitAfterNone(w: string, t: string)
    requires '"' !in w && '"' !in t
    ensures Split(w + " " + t) == Fields(w + " " + t)
  {
    QuoteIs(w + " " + t, 0, |w + " " + t|);
  }

  lemma SplitPlainFirst(w: string, t: string)
    requires Plain(w)
    ensures Split(w + " " + t) == [w] + Split(t) && Split(w) == [w]
  {
    hide Fields, FromPhrase, Split, QuoteFrom, PhraseStart;
    var q := QuoteFrom(t, 0);
    NoMoreQuotesIn(w);
    FieldsSolidFirst(w, t);
    if q < |t| {
      var start := PhraseStart(t, q);
      SplitAfter(w, t, q, start);
      SplitAtQuote(t, q);
      FieldsSolidFirst(w, t[..start]);
      assert [w] + Fields(t[..start]) + FromPhrase(t[start..], q - start)
          == [w] + (Fields(t[..start]) + FromPhrase(t[start..], q - start));
    } else {
      SplitAfterNone(w, t);
      NoMoreQuotesIn(t);
    }
  }

  lemma FieldsBlankFirst(t: string)
    ensures Fields(" " + t) == Fields(t)
  {
    assert (" " + t)[1..] == t;
  }

  lemma SplitBlankFirst(t: string)
    ensures Split(" " + t) == Split(t)
  {
    hide Fields, FromPhrase, Split, QuoteFrom, PhraseStart;
    var q := QuoteFrom(t, 0);
    assert "" + " " + t == " " + t;
    if q < |t| {
      var start := PhraseStart(t, q);
      SplitAfter("", t, q, start);
      SplitAtQuote(t, q);
      FieldsBlankFirst(t[..start]);
      assert "" + " " + t[..start] == " " + t[..start];
    } else {
      SplitAfterNone("", t);
      NoMoreQuotesIn(t);
      FieldsBlankFirst(t);
    }
  }

  // A text that starts with a whole phrase.
  lemma SplitPhraseFirst(w: string, u: string)
    requires Quoted(w)
    ensures Split(w + u) == [w] + Split(u)
  {
    var s, q := w + u, Mark(w);
    SplitAtQuote(s, q);
    QuoteIs(s, q + 1, |w| - 1);
    assert s[..0] == [] && s[0..] == s;
    assert s[..|w|] == w && s[|w|..] == u;
  }

  lemma SplitQuotedFirst(w: string, t: string)
    requires Quoted(w)
    ensures Split(w + " " + t) == [w] + Split(t) && Split(w) == [w]
  {
    hide Quoted, Split, FromPhrase;
    SplitPhraseFirst(w, " " + t);
    SplitPhraseFirst(w, "");
    SplitBlankFirst(t);
    NoMoreQuotesIn("");
    assert w + "" == w && w + (" " + t) == w + " " + t;
  }

  lemma {:induction false} JoinPlain(ws: seq<string>)
    requires forall w :: w in ws ==> Plain(w)
    ensures '"' !in Join(ws)
  {
    if ws != [] {
      assert ws[0] in ws;
      JoinPlain(ws[1..]);
    }
  }

  lemma SplitOpeningFirst(ws: seq<string>)
    requires ws != [] && Opening(ws[0]) && forall w :: w in ws[1..] ==> Plain(w)
    ensures Split(Join(ws)) == ws
  {
    hide Split, Fields;
    var s, q := Join(ws), Mark(ws[0]);
    JoinPlain(ws[1..]);
    forall k | q < k < |s| ensures s[k] != '"' {
      if k > |ws[0]| { assert s[k] == Join(ws[1..])[k - |ws[0]| - 1]; }
    }
    OneQuote(s, q);
    forall w | w in ws ensures Solid(w) {
      if w != ws[0] { assert w in ws[1..]; }
    }
    FieldsOfJoin(ws);
  }

  lemma OneQuote(s: string, q: nat)
    requires q == Mark(s) && q < |s| && s[q] == '"' && forall k :: q < k < |s| ==> s[k] != '"'
    ensures Split(s) == Fields(s)
  {
    SplitAtQuote(s, q);
    QuoteIs(s, q + 1, |s|);
    assert s[..0] == [] && s[0..] == s;
  }

  lemma {:induction false} NormalSplitsBack(ws: seq<string>)
    requires Normal(ws)
    ensures Split(Join(ws)) == ws
  {
    if ws != [] {
      assert ws == [ws[0]] + ws[1..];
      if Opening(ws[0]) && forall w :: w in ws[1..] ==> Plain(w) {
        SplitOpeningFirst(ws);
      } else {
        NormalSplitsBack(ws[1..]);
        if Plain(ws[0]) { SplitPlainFirst(ws[0], Join(ws[1..])); } else { SplitQuotedFirst(ws[0], Join(ws[1..])); }
      }
    }
  }

  // Splitting is idempotent through joining, for every text.
  lemma SplitIsFixedPoint(s: string)
    ensures Split(Join(Split(s))) == Split(s)
  {
    SplitNormal(s);
    NormalSplitsBack(Split(s));
  }
}

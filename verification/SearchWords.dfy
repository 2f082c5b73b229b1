/** Splitting a search text into words, where a quoted phrase, with an optional minus sign before it, is
    one word and everything else is split at blanks. */
module SearchWords {
  // The blanks of strings.Fields: the characters with the Unicode property White_Space.
  predicate IsSpace(c: char) {
    var n := c as int;
    9 <= n <= 13 || n == 0x20 || n == 0x85 || n == 0xA0 || n == 0x1680 || 0x2000 <= n <= 0x200A
    || n == 0x2028 || n == 0x2029 || n == 0x202F || n == 0x205F || n == 0x3000
  }

  // ---- Blank-separated fields ----

  ghost predicate Solid(s: string) { s != [] && forall i :: 0 <= i < |s| ==> !IsSpace(s[i]) }

  function SolidPrefix(s: string): (n: nat)
    ensures n <= |s|
    ensures forall i :: 0 <= i < n ==> !IsSpace(s[i])
    ensures n < |s| ==> IsSpace(s[n])
  {
    if s == [] || IsSpace(s[0]) then 0 else 1 + SolidPrefix(s[1..])
  }

  function Fields(s: string): seq<string>
    decreases |s|
  {
    if s == [] then []
    else if IsSpace(s[0]) then Fields(s[1..])
    else
      var n := SolidPrefix(s);
      [s[..n]] + Fields(s[n..])
  }

  // ---- Splitting, as a recursion over what is left of the text ----

  function QuoteFrom(s: string, i: nat): (q: nat)
    requires i <= |s|
    ensures i <= q <= |s| && (q < |s| ==> s[q] == '"')
    ensures forall k :: i <= k < q ==> s[k] != '"'
    decreases |s| - i
  {
    if i == |s| || s[i] == '"' then i else QuoteFrom(s, i + 1)
  }

  // Where the phrase opened by the quote at q starts.
  function PhraseStart(s: string, q: nat): (start: nat)
    requires q <= |s|
    ensures start <= q <= start + 1
  {
    if q > 0 && s[q - 1] == '-' then q - 1 else q
  }

  function Split(s: string): seq<string>
    decreases |s|, 1
  {
    var q := QuoteFrom(s, 0);
    if q == |s| then Fields(s)
    else
      var start := PhraseStart(s, q);
      Fields(s[..start]) + FromPhrase(s[start..], q - start)
  }

  // A text that starts with a phrase, whose opening quote is at q.
  function FromPhrase(s: string, q: nat): seq<string>
    requires q < |s|
    decreases |s|, 0
  {
    var e := QuoteFrom(s, q + 1);
    if e == |s| then Fields(s) else [s[..e + 1]] + Split(s[e + 1..])
  }

  // The one pass of the program: location is where the current piece starts.
  method SplitWords(text: string) returns (words: seq<string>)
    ensures words == Split(text)
  {
    hide Split, FromPhrase, Fields, QuoteFrom;
    words := [];
    var foundQuote := false;
    var location := 0;
    ghost var q := 0;
    assert text[0..] == text;
    for i := 0 to |text|
      invariant 0 <= location <= q <= i
      invariant forall k :: q < k < i ==> text[k] != '"'
      invariant !foundQuote ==>
        words + Split(text[location..]) == Split(text) && location == q
        && (location > 0 ==> text[location - 1] == '"') && (location < i ==> text[location] != '"')
      invariant foundQuote ==> q < i && words + FromPhrase(text[location..], q - location) == Split(text)
    {
      if text[i] == '"' {
        if foundQuote {
          PhraseEnds(text, location, q, i);
          words := words + [text[location..i + 1]];
          foundQuote := false;
          location := i + 1;
          q := i + 1;
        } else {
          var nextStart := i;
          if i > 0 && text[i - 1] == '-' {
            nextStart := i - 1;
          }
          PhraseStarts(text, location, i);
          words := words + Fields(text[location..nextStart]);
          foundQuote := true;
          location := nextStart;
          q := i;
        }
      }
    }
    NoMoreQuotes(text[location..], q - location, foundQuote);
    words := words + Fields(text[location..]);
  }

  lemma {:induction false} QuoteIs(s: string, i: nat, q: nat)
    requires i <= q <= |s| && (q < |s| ==> s[q] == '"') && forall k :: i <= k < q ==> s[k] != '"'
    ensures QuoteFrom(s, i) == q
    decreases q - i
  {
    if i < q { QuoteIs(s, i + 1, q); }
  }

  lemma SplitAtQuote(s: string, q: nat)
    requires q < |s| && s[q] == '"' && forall k :: 0 <= k < q ==> s[k] != '"'
    ensures var start := PhraseStart(s, q); Split(s) == Fields(s[..start]) + FromPhrase(s[start..], q - start)
  {
    QuoteIs(s, 0, q);
  }

  lemma Slices(text: string, location: nat, k: nat)
    requires location <= k <= |text|
    ensures text[location..][..k - location] == text[location..k] && text[location..][k - location..] == text[k..]
  {
  }

  lemma PhraseStarts(text: string, location: nat, i: nat)
    requires location <= i < |text| && text[i] == '"' && forall k :: location <= k < i ==> text[k] != '"'
    requires location > 0 ==> text[location - 1] == '"'
    ensures var start := PhraseStart(text, i);
      && location <= start
      && Split(text[location..]) == Fields(text[location..start]) + FromPhrase(text[start..], i - start)
  {
    hide Fields, FromPhrase, Split, QuoteFrom;
    var start := PhraseStart(text, i);
    assert PhraseStart(text[location..], i - location) == start - location;
    SplitAtQuote(text[location..], i - location);
    Slices(text, location, start);
  }

  lemma PhraseEnds(text: string, location: nat, q: nat, i: nat)
    requires location <= q < i < |text| && text[i] == '"' && forall k :: q < k < i ==> text[k] != '"'
    ensures FromPhrase(text[location..], q - location) == [text[location..i + 1]] + Split(text[i + 1..])
  {
    hide Split, Fields;
    QuoteIs(text[location..], q - location + 1, i - location);
    Slices(text, location, i + 1);
  }

  lemma NoMoreQuotes(s: string, q: nat, open: bool)
    requires q <= |s| && (open ==> q < |s|) && forall k :: q < k < |s| ==> s[k] != '"'
    requires !open && q < |s| ==> q == 0 && s[0] != '"'
    ensures open ==> FromPhrase(s, q) == Fields(s)
    ensures !open && q == 0 ==> Split(s) == Fields(s)
  {
    if open { QuoteIs(s, q + 1, |s|); } else if q == 0 { QuoteIs(s, 0, |s|); }
  }
}

/** The one-pass domain name check, against a grammar of labels (sections 2.3.1 and 2.3.4 of RFC 1035, as
    the program relaxes them). A string is taken byte by byte. */
module DomainName {
  predicate Letter(c: char) { 'a' <= c <= 'z' || 'A' <= c <= 'Z' || c == '_' }

  predicate Digit(c: char) { '0' <= c <= '9' }

  predicate Allowed(c: char) { Letter(c) || Digit(c) || c == '-' }

  // ---- The grammar ----

  // The text cut at every dot: one label more than there are dots.
  function Labels(s: string): (ls: seq<string>)
    ensures |ls| > 0
  {
    if s == [] then [[]]
    else
      var ls, c := Labels(s[..|s| - 1]), s[|s| - 1];
      if c == '.' then ls + [[]] else ls[|ls| - 1 := ls[|ls| - 1] + [c]]
  }

  // A label may not start with a hyphen.
  ghost predicate Beginning(l: string) {
    (forall i :: 0 <= i < |l| ==> Allowed(l[i])) && (l != [] ==> l[0] != '-')
  }

  ghost predicate Label(l: string) { Beginning(l) && 1 <= |l| <= 63 && l[|l| - 1] != '-' }

  predicate LengthFits(s: string) { 1 <= |s| <= 254 && (|s| == 254 ==> s[|s| - 1] == '.') }

  // The final dot of an absolute name is not part of its labels.
  function Body(s: string): string { if s != [] && s[|s| - 1] == '.' then s[..|s| - 1] else s }

  ghost predicate Name(s: string) {
    && LengthFits(s)
    && (forall i :: 0 <= i < |Labels(Body(s))| ==> Label(Labels(Body(s))[i]))
    && exists i :: 0 <= i < |s| && Letter(s[i])
  }

  // ---- Labels are what they are meant to be ----

  function Dotted(ls: seq<string>): string {
    if ls == [] then [] else if |ls| == 1 then ls[0] else Dotted(ls[..|ls| - 1]) + "." + ls[|ls| - 1]
  }

  lemma DottedMore(ls: seq<string>)
    requires ls != []
    ensures Dotted(ls + [[]]) == Dotted(ls) + "."
  {
    assert (ls + [[]])[..|ls|] == ls;
    assert Dotted(ls) + "." + [] == Dotted(ls) + ".";
  }

  lemma DottedLonger(ls: seq<string>, c: char)
    requires ls != []
    ensures Dotted(ls[|ls| - 1 := ls[|ls| - 1] + [c]]) == Dotted(ls) + [c]
  {
    var n := |ls| - 1;
    var ms := ls[n := ls[n] + [c]];
    assert ms[..n] == ls[..n];
    if n > 0 { assert Dotted(ls[..n]) + "." + (ls[n] + [c]) == Dotted(ls[..n]) + "." + ls[n] + [c]; }
  }

  lemma {:induction false} LabelsAreThePieces(s: string)
    ensures Dotted(Labels(s)) == s
    ensures forall i :: 0 <= i < |Labels(s)| ==> '.' !in Labels(s)[i]
  {
    hide Dotted;
    if s != [] {
      var front, c := s[..|s| - 1], s[|s| - 1];
      LabelsAreThePieces(front);
      assert s == front + [c];
      DottedMore(Labels(front));
      DottedLonger(Labels(front), c);
    } else {
      OneLabel([]);
    }
  }

  lemma OneLabel(l: string)
    ensures Dotted([l]) == l
  {
  }

  // ---- The scan ----

  // What the scan has established of the part it has read: whole labels, and the beginning of one.
  ghost predicate Scanned(s: string) {
    var ls := Labels(s);
    (forall i :: 0 <= i < |ls| - 1 ==> Label(ls[i])) && Beginning(ls[|ls| - 1])
  }

  lemma LabelsMore(s: string, c: char)
    ensures var ls := Labels(s);
      Labels(s + [c]) == if c == '.' then ls + [[]] else ls[|ls| - 1 := ls[|ls| - 1] + [c]]
  {
    assert (s + [c])[..|s|] == s;
  }

  lemma BeginningMore(l: string, c: char)
    ensures Beginning(l + [c]) <==> Beginning(l) && Allowed(c) && (c == '-' ==> l != [])
  {
    var m := l + [c];
    assert m[|l|] == c && forall i :: 0 <= i < |l| ==> m[i] == l[i];
  }

  lemma ScannedMore(s: string, c: char)
    ensures var ls := Labels(s);
      Scanned(s + [c]) <==>
        (Scanned(s) && if c == '.' then Label(ls[|ls| - 1]) else Allowed(c) && (c == '-' ==> ls[|ls| - 1] != []))
  {
    hide Labels, Beginning;
    var ls, ms := Labels(s), Labels(s + [c]);
    LabelsMore(s, c);
    BeginningMore(ls[|ls| - 1], c);
    NoLetters();
    assert forall i :: 0 <= i < |ls| - 1 ==> ms[i] == ls[i];
    if c == '.' {
      assert Scanned(s + [c]) ==> Label(ms[|ls| - 1]);
      assert forall i :: 0 <= i < |ls| - 1 && Label(ms[i]) ==> Label(ls[i]);
    }
  }

  lemma NoLetters()
    ensures Beginning([])
  {
  }

  // A name that has gone wrong stays wrong.
  lemma {:induction false} ScannedPrefix(s: string, i: nat)
    requires i <= |s| && Scanned(s)
    ensures Scanned(s[..i])
  {
    if i < |s| {
      var front := s[..|s| - 1];
      assert s == front + [s[|s| - 1]];
      ScannedMore(front, s[|s| - 1]);
      ScannedPrefix(front, i);
      assert front[..i] == s[..i];
    } else {
      assert s[..i] == s;
    }
  }

  lemma NameIsScanned(s: string)
    requires Name(s)
    ensures Scanned(s)
  {
    var ls := Labels(Body(s));
    assert Label(ls[|ls| - 1]);
    if s[|s| - 1] == '.' {
      var front := s[..|s| - 1];
      assert s == front + ['.'];
      ScannedMore(front, '.');
    }
  }

  lemma WrongForGood(s: string, i: nat)
    requires i <= |s| && !Scanned(s[..i])
    ensures !Name(s)
  {
    if Name(s) {
      NameIsScanned(s);
      ScannedPrefix(s, i);
    }
  }

  // The last label read is what follows the last dot.
  lemma LastLabel(s: string)
    ensures var l := Labels(s)[|Labels(s)| - 1];
      && (l == [] <==> s == [] || s[|s| - 1] == '.')
      && (l != [] ==> l[|l| - 1] == s[|s| - 1])
  {
  }

  lemma ScanDecides(s: string)
    requires LengthFits(s) && Scanned(s)
    ensures var l := Labels(s)[|Labels(s)| - 1];
      Name(s) <==> (s[|s| - 1] != '-' && |l| <= 63 && exists i :: 0 <= i < |s| && Letter(s[i]))
  {
    LastLabel(s);
    var ls := Labels(s);
    if s[|s| - 1] == '.' {
      var front := s[..|s| - 1];
      assert ls == Labels(front) + [[]];
      assert forall i :: 0 <= i < |Labels(front)| ==> ls[i] == Labels(front)[i];
    } else {
      assert Body(s) == s;
      assert Name(s) ==> Label(Labels(Body(s))[|ls| - 1]);
    }
  }

  method IsDomainName(s: string) returns (yes: bool)
    ensures yes <==> Name(s)
  {
    hide Labels, Label, Beginning, Scanned, Name;
    var l := |s|;
    if l == 0 || l > 254 || (l == 254 && s[l - 1] != '.') {
      NameFits(s);
      return false;
    }
    var last := '.';
    var ok := false;
    var partlen := 0;
    NothingScanned();
    assert s[..0] == [];
    for i := 0 to |s|
      invariant Scanned(s[..i])
      invariant last == if i == 0 then '.' else s[i - 1]
      invariant ok <==> exists k :: 0 <= k < i && Letter(s[k])
      invariant partlen == |Labels(s[..i])[|Labels(s[..i])| - 1]|
    {
      var c := s[i];
      assert s[..i + 1] == s[..i] + [c];
      ScannedMore(s[..i], c);
      LastLabel(s[..i]);
      LastGrows(s[..i], c);
      if !Scanned(s[..i + 1]) { WrongForGood(s, i + 1); }
      LabelEnds(s[..i]);
      if 'a' <= c <= 'z' || 'A' <= c <= 'Z' || c == '_' {
        ok := true;
        partlen := partlen + 1;
      } else if '0' <= c <= '9' {
        partlen := partlen + 1;
      } else if c == '-' {
        // a label does not begin with a dash
        if last == '.' { return false; }
        partlen := partlen + 1;
      } else if c == '.' {
        // nor is it empty, or ends with one
        if last == '.' || last == '-' { return false; }
        if partlen > 63 || partlen == 0 { return false; }
        partlen := 0;
      } else {
        return false;
      }
      last := c;
    }
    assert s[..|s|] == s;
    ScanDecides(s);
    if last == '-' || partlen > 63 { return false; }
    return ok;
  }

  lemma NameFits(s: string)
    ensures Name(s) ==> LengthFits(s)
  {
  }

  lemma NothingScanned()
    ensures Scanned([]) && Labels([]) == [[]]
  {
  }

  lemma LastGrows(s: string, c: char)
    ensures var ls, ms := Labels(s), Labels(s + [c]);
      |ms[|ms| - 1]| == if c == '.' then 0 else |ls[|ls| - 1]| + 1
  {
    assert (s + [c])[..|s|] == s;
  }

  // Of the beginning of a label, what more makes it whole.
  lemma LabelEnds(s: string)
    requires Scanned(s)
    ensures var l := Labels(s)[|Labels(s)| - 1]; Label(l) <==> 1 <= |l| <= 63 && l[|l| - 1] != '-'
  {
  }
}

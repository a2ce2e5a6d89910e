/** Licence-plate normalisation (internal/utils/normalize_plate.go): trim surrounding white space,
    drop every space and hyphen, upper-case what is left. */
module PlateNormalizer {

  /** White space as Go's unicode.IsSpace sees it: the Latin-1 spaces plus the Unicode
      White_Space code points above U+00FF. */
  predicate IsSpace(c: char)
  {
    var n := c as int;
    (0x09 <= n <= 0x0D) || n == 0x20 || n == 0x85 || n == 0xA0
    || n == 0x1680 || (0x2000 <= n <= 0x200A)
    || n == 0x2028 || n == 0x2029 || n == 0x202F || n == 0x205F || n == 0x3000
  }

  predicate IsLowerAscii(c: char) { 'a' <= c <= 'z' }

  /** A plate in normal form: no white space, no hyphen, no lower-case letter. */
  predicate IsNormal(s: string)
  {
    forall i :: 0 <= i < |s| ==> !IsSpace(s[i]) && s[i] != '-' && !IsLowerAscii(s[i])
  }

  /** Drops leading white space. */
  function TrimLeft(s: string): (r: string)
    ensures |r| <= |s|
  {
    if s != [] && IsSpace(s[0]) then TrimLeft(s[1..]) else s
  }

  /** Drops trailing white space. */
  function TrimRight(s: string): (r: string)
    ensures |r| <= |s|
  {
    if s != [] && IsSpace(s[|s| - 1]) then TrimRight(s[..|s| - 1]) else s
  }

  /** strings.TrimSpace. */
  function TrimSpace(s: string): (r: string)
    ensures |r| <= |s|
  {
    TrimRight(TrimLeft(s))
  }

  /** strings.ReplaceAll(s, c, ""). */
  function RemoveAll(s: string, c: char): (r: string)
    ensures |r| <= |s|
  {
    if s == [] then []
    else (if s[0] == c then [] else [s[0]]) + RemoveAll(s[1..], c)
  }

  /** strings.ToUpper on one character, for the ASCII letters. */
  function UpperChar(c: char): (u: char)
    ensures !IsLowerAscii(u)
    ensures IsLowerAscii(c) || u == c
  {
    if IsLowerAscii(c) then (c as int - 32) as char else c
  }

  /** strings.ToUpper: each character upper-cased, length kept. */
  function ToUpper(s: string): (r: string)
    ensures |r| == |s|
    ensures forall i :: 0 <= i < |s| ==> r[i] == UpperChar(s[i])
  {
    if s == [] then [] else [UpperChar(s[0])] + ToUpper(s[1..])
  }

  /** NormalizePlate: trim, remove spaces, remove hyphens, upper-case. The result never holds a
      space, a hyphen or a lower-case letter, and is never longer than the input. */
  function NormalizePlate(raw: string): (r: string)
    ensures |r| <= |raw|
    ensures ' ' !in r && '-' !in r
    ensures forall i :: 0 <= i < |r| ==> !IsLowerAscii(r[i])
  {
    var u := RemoveAll(TrimSpace(raw), ' ');
    var t := RemoveAll(u, '-');
    var r := ToUpper(t);
    RemoveAllMembers(TrimSpace(raw), ' ');
    RemoveAllMembers(u, '-');
    assert forall i :: 0 <= i < |r| ==> r[i] != ' ' && r[i] != '-' by {
      forall i | 0 <= i < |r| ensures r[i] != ' ' && r[i] != '-' {
        assert t[i] in t;
      }
    }
    r
  }

  /** TrimLeft keeps a suffix: what it drops is white space, and it stops at the first other
      character. */
  lemma {:induction false} TrimLeftDrops(s: string)
    ensures TrimLeft(s) == s[|s| - |TrimLeft(s)|..]
    ensures forall i :: 0 <= i < |s| - |TrimLeft(s)| ==> IsSpace(s[i])
    ensures TrimLeft(s) == [] || !IsSpace(TrimLeft(s)[0])
  {
    if s != [] && IsSpace(s[0]) {
      TrimLeftDrops(s[1..]);
      assert forall i :: 1 <= i < |s| ==> s[i] == s[1..][i - 1];
    }
  }

  /** TrimRight keeps a prefix: what it drops is white space, and it stops at the last other
      character. */
  lemma {:induction false} TrimRightDrops(s: string)
    ensures TrimRight(s) == s[..|TrimRight(s)|]
    ensures forall i :: |TrimRight(s)| <= i < |s| ==> IsSpace(s[i])
    ensures TrimRight(s) == [] || !IsSpace(TrimRight(s)[|TrimRight(s)| - 1])
  {
    if s != [] && IsSpace(s[|s| - 1]) {
      TrimRightDrops(s[..|s| - 1]);
    }
  }

  /** strings.TrimSpace keeps an infix of its input with no white space at either end, and drops
      only white space. */
  lemma TrimSpaceInfix(s: string)
    ensures forall c :: c in TrimSpace(s) ==> c in s
    ensures TrimSpace(s) == [] || (!IsSpace(TrimSpace(s)[0]) && !IsSpace(TrimSpace(s)[|TrimSpace(s)| - 1]))
    ensures forall i :: 0 <= i < |s| && !IsSpace(s[i]) ==> s[i] in TrimSpace(s)
  {
    var l := TrimLeft(s);
    var t := TrimSpace(s);
    TrimLeftDrops(s);
    TrimRightDrops(l);
    assert t == l[..|t|];
    forall c | c in t ensures c in s {
      var k :| 0 <= k < |t| && t[k] == c;
      assert l[k] == c;
      assert s[|s| - |l| + k] == c;
    }
    forall i | 0 <= i < |s| && !IsSpace(s[i]) ensures s[i] in t {
      assert |s| - |l| <= i;
      assert l[i - (|s| - |l|)] == s[i];
      assert i - (|s| - |l|) < |t|;
      assert t[i - (|s| - |l|)] == s[i];
    }
  }

  /** The characters ReplaceAll keeps are exactly those other than the removed one. */
  lemma {:induction false} RemoveAllMembers(s: string, c: char)
    ensures forall x :: x in RemoveAll(s, c) <==> x in s && x != c
  {
    if s != [] {
      RemoveAllMembers(s[1..], c);
      assert forall x :: x in s <==> x == s[0] || x in s[1..];
    }
  }

  lemma {:induction false} RemoveAllAbsent(s: string, c: char)
    requires c !in s
    ensures RemoveAll(s, c) == s
  {
    if s != [] {
      RemoveAllAbsent(s[1..], c);
    }
  }

  lemma {:induction false} RemoveAllOnly(s: string, c: char)
    requires forall x :: x in s ==> x == c
    ensures RemoveAll(s, c) == []
  {
    if s != [] {
      assert s[0] in s;
      assert forall x :: x in s[1..] ==> x in s;
      RemoveAllOnly(s[1..], c);
    }
  }

  lemma {:induction false} RemoveAllConcat(a: string, b: string, c: char)
    ensures RemoveAll(a + b, c) == RemoveAll(a, c) + RemoveAll(b, c)
  {
    if a == [] {
      assert a + b == b;
    } else {
      assert (a + b)[0] == a[0];
      assert (a + b)[1..] == a[1..] + b;
      RemoveAllConcat(a[1..], b, c);
    }
  }

  lemma {:induction false} ToUpperFixed(s: string)
    requires forall i :: 0 <= i < |s| ==> !IsLowerAscii(s[i])
    ensures ToUpper(s) == s
  {
    if s != [] {
      ToUpperFixed(s[1..]);
    }
  }

  /** A plate already in normal form is left as it is. */
  lemma NormalFormFixed(s: string)
    requires IsNormal(s)
    ensures NormalizePlate(s) == s
  {
    if s != [] {
      assert !IsSpace(s[0]) && !IsSpace(s[|s| - 1]);
    }
    assert TrimLeft(s) == s;
    assert TrimRight(s) == s;
    assert ' ' !in s && '-' !in s by {
      forall i | 0 <= i < |s| ensures s[i] != ' ' && s[i] != '-' {
        assert !IsSpace(s[i]);
      }
    }
    RemoveAllAbsent(s, ' ');
    RemoveAllAbsent(s, '-');
    ToUpperFixed(s);
  }

  /** When the only white space in a plate is the plain space, its normal form is in normal
      form, so normalising twice is normalising once. */
  lemma NormalizeIdempotent(raw: string)
    requires forall i :: 0 <= i < |raw| ==> IsSpace(raw[i]) ==> raw[i] == ' '
    ensures IsNormal(NormalizePlate(raw))
    ensures NormalizePlate(NormalizePlate(raw)) == NormalizePlate(raw)
  {
    var r := NormalizePlate(raw);
    var u := RemoveAll(TrimSpace(raw), ' ');
    var t := RemoveAll(u, '-');
    TrimSpaceInfix(raw);
    RemoveAllMembers(TrimSpace(raw), ' ');
    RemoveAllMembers(u, '-');
    forall i | 0 <= i < |r|
      ensures !IsSpace(r[i]) && r[i] != '-' && !IsLowerAscii(r[i])
    {
      assert t[i] in t;
      var k :| 0 <= k < |raw| && raw[k] == t[i];
    }
    NormalFormFixed(r);
  }

  /** Normalisation assembled from its stages, for a plate whose remaining letters are already
      upper case. */
  lemma NormalizeStages(raw: string, trimmed: string, spaceless: string, bare: string)
    requires TrimSpace(raw) == trimmed
    requires RemoveAll(trimmed, ' ') == spaceless
    requires RemoveAll(spaceless, '-') == bare
    requires ToUpper(bare) == bare
    ensures NormalizePlate(raw) == bare
  {
  }

  lemma HyphenTabStages(raw: string, bare: string)
    requires raw == "-\tAB" && bare == "\tAB"
    ensures TrimSpace(raw) == raw
    ensures RemoveAll(raw, ' ') == raw
    ensures RemoveAll(raw, '-') == bare
  {
    assert !IsSpace(raw[0]) && !IsSpace(raw[|raw| - 1]);
    RemoveAllAbsent(raw, ' ');
    assert raw == [raw[0]] + bare;
    RemoveAllConcat([raw[0]], bare, '-');
    RemoveAllAbsent(bare, '-');
  }

  lemma TabStages(raw: string, bare: string)
    requires raw == "\tAB" && bare == "AB"
    ensures TrimSpace(raw) == bare
    ensures RemoveAll(bare, ' ') == bare
    ensures RemoveAll(bare, '-') == bare
  {
    assert IsSpace(raw[0]) && raw[1..] == bare;
    assert !IsSpace(bare[0]) && !IsSpace(bare[1]);
    assert TrimLeft(raw) == TrimLeft(bare) == bare;
    assert TrimRight(bare) == bare;
    RemoveAllAbsent(bare, ' ');
    RemoveAllAbsent(bare, '-');
  }

  /** Normalisation is not idempotent in general: a hyphen in front of a tab shields the tab
      from the trim, and only the second pass removes it. */
  lemma NotIdempotentWithTab()
    ensures NormalizePlate("-\tAB") == "\tAB"
    ensures NormalizePlate(NormalizePlate("-\tAB")) == "AB"
  {
    HyphenTabPass("-\tAB", "\tAB");
    TabPass("\tAB", "AB");
  }

  /** Without the plain-space restriction spellings that differ only by a hyphen can normalise
      apart: the hyphen in "-\tAB" keeps the tab from being trimmed. */
  lemma HyphenShieldsTab()
    ensures NormalizePlate("-\tAB") != NormalizePlate("\tAB")
  {
    NotIdempotentWithTab();
  }

  lemma HyphenTabPass(raw: string, once: string)
    requires raw == "-\tAB" && once == "\tAB"
    ensures NormalizePlate(raw) == once
  {
    HyphenTabStages(raw, once);
    NormalizeStages(raw, raw, raw, once);
  }

  lemma TabPass(once: string, twice: string)
    requires once == "\tAB" && twice == "AB"
    ensures NormalizePlate(once) == twice
  {
    TabStages(once, twice);
    NormalizeStages(once, twice, twice, twice);
  }

  lemma SpacedPlateTrim(raw: string, inner: string)
    requires raw == " 12 ab-3456 " && inner == "12 ab-3456"
    ensures TrimSpace(raw) == inner
  {
    var padded := inner + [' '];
    assert IsSpace(raw[0]) && raw[1..] == padded;
    assert !IsSpace(padded[0]);
    assert TrimLeft(raw) == padded;
    assert IsSpace(padded[|padded| - 1]) && padded[..|padded| - 1] == inner;
    assert !IsSpace(inner[|inner| - 1]);
    assert TrimRight(padded) == TrimRight(inner) == inner;
  }

  /** Removing a character that occurs once, between two runs that do not hold it. */
  lemma RemoveSingle(front: string, c: char, back: string)
    requires c !in front && c !in back
    ensures RemoveAll(front + [c] + back, c) == front + back
  {
    var head := front + [c];
    assert RemoveAll([c], c) == [] by {
      assert [c][1..] == [];
    }
    RemoveAllConcat(front, [c], c);
    RemoveAllAbsent(front, c);
    assert RemoveAll(head, c) == front;
    RemoveAllConcat(head, back, c);
    RemoveAllAbsent(back, c);
  }

  /** The spaced plate's one space, then its one hyphen, removed. */
  lemma SpacedPlateRemove(whole: string, c: char, front: string, back: string, rest: string)
    requires || (whole, c, front, back, rest) == ("12 ab-3456", ' ', "12", "ab-3456", "12ab-3456")
             || (whole, c, front, back, rest) == ("12ab-3456", '-', "12ab", "3456", "12ab3456")
    ensures RemoveAll(whole, c) == rest
  {
    assert whole == front + [c] + back && rest == front + back;
    assert c !in front && c !in back;
    RemoveSingle(front, c, back);
  }

  lemma SpacedPlateUpper(bare: string, upper: string)
    requires bare == "12ab3456" && upper == "12AB3456"
    ensures ToUpper(bare) == upper
  {
  }

  lemma SpacedPlateNormal(upper: string)
    requires upper == "12AB3456"
    ensures IsNormal(upper)
  {
  }

  /** The usual ways of writing one plate, with spaces, hyphens or lower-case letters, meet. */
  lemma SpellingsMeet()
    ensures NormalizePlate(" 12 ab-3456 ") == "12AB3456"
    ensures NormalizePlate("12AB3456") == "12AB3456"
  {
    SpacedPlateTrim(" 12 ab-3456 ", "12 ab-3456");
    SpacedPlateRemove("12 ab-3456", ' ', "12", "ab-3456", "12ab-3456");
    SpacedPlateRemove("12ab-3456", '-', "12ab", "3456", "12ab3456");
    SpacedPlateUpper("12ab3456", "12AB3456");
    SpacedPlateNormal("12AB3456");
    NormalFormFixed("12AB3456");
  }

  /** When the plain space is the only white space, trimming before removing the spaces changes
      nothing: the trim drops only spaces the removal drops anyway. */
  lemma TrimAbsorbed(s: string)
    requires forall i :: 0 <= i < |s| ==> IsSpace(s[i]) ==> s[i] == ' '
    ensures RemoveAll(TrimSpace(s), ' ') == RemoveAll(s, ' ')
  {
    var l := TrimLeft(s);
    TrimLeftAbsorbed(s);
    TrimLeftDrops(s);
    forall i | 0 <= i < |l| && IsSpace(l[i]) ensures l[i] == ' ' {
      assert l[i] == s[|s| - |l| + i];
    }
    TrimRightAbsorbed(l);
  }

  lemma {:induction false} TrimLeftAbsorbed(s: string)
    requires forall i :: 0 <= i < |s| ==> IsSpace(s[i]) ==> s[i] == ' '
    ensures RemoveAll(TrimLeft(s), ' ') == RemoveAll(s, ' ')
  {
    if s != [] && IsSpace(s[0]) {
      assert forall i :: 0 <= i < |s[1..]| ==> s[1..][i] == s[i + 1];
      TrimLeftAbsorbed(s[1..]);
    }
  }

  lemma {:induction false} TrimRightAbsorbed(s: string)
    requires forall i :: 0 <= i < |s| ==> IsSpace(s[i]) ==> s[i] == ' '
    ensures RemoveAll(TrimRight(s), ' ') == RemoveAll(s, ' ')
  {
    if s != [] && IsSpace(s[|s| - 1]) {
      var front := s[..|s| - 1];
      TrimRightAbsorbed(front);
      assert s == front + [' '];
      RemoveAllConcat(front, [' '], ' ');
      assert RemoveAll([' '], ' ') == [] by {
        assert [' '][1..] == [];
      }
      assert RemoveAll(front, ' ') + [] == RemoveAll(front, ' ');
    }
  }

  /** Plates whose only white space is the plain space normalise equal exactly when they agree
      once their spaces and hyphens are dropped and ASCII case is ignored. */
  lemma SameUpToSeparatorsAndCase(a: string, b: string)
    requires forall i :: 0 <= i < |a| ==> IsSpace(a[i]) ==> a[i] == ' '
    requires forall i :: 0 <= i < |b| ==> IsSpace(b[i]) ==> b[i] == ' '
    ensures NormalizePlate(a) == NormalizePlate(b) <==>
      ToUpper(RemoveAll(RemoveAll(a, ' '), '-')) == ToUpper(RemoveAll(RemoveAll(b, ' '), '-'))
  {
    TrimAbsorbed(a);
    TrimAbsorbed(b);
  }

  /** A plate made only of spaces and hyphens normalises to the empty string, which every
      caller rejects. */
  lemma OnlySeparatorsEmpty(raw: string)
    requires forall i :: 0 <= i < |raw| ==> raw[i] == ' ' || raw[i] == '-'
    ensures NormalizePlate(raw) == ""
  {
    var t := TrimSpace(raw);
    var u := RemoveAll(t, ' ');
    TrimSpaceInfix(raw);
    RemoveAllMembers(t, ' ');
    forall x | x in u ensures x == '-' {
      var k :| 0 <= k < |raw| && raw[k] == x;
    }
    RemoveAllOnly(u, '-');
  }

  /** Conversely, an empty normal form means the raw plate held nothing but white space and
      hyphens. */
  lemma EmptyOnlySeparators(raw: string)
    requires NormalizePlate(raw) == ""
    ensures forall i :: 0 <= i < |raw| ==> IsSpace(raw[i]) || raw[i] == '-'
  {
    var t := TrimSpace(raw);
    var u := RemoveAll(t, ' ');
    TrimSpaceInfix(raw);
    RemoveAllMembers(t, ' ');
    RemoveAllMembers(u, '-');
  }
}

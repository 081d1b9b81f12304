/**
 * The within-building match key of a unit label: exactly when normalizing it again is harmless, and which labels share
 * a key. Upper-casing is an arbitrary map from characters to strings that leaves its own results alone.
 */
module Fingerprint {

  const DESIGNATORS := ["APT", "UNIT", "STE", "SUITE", "NO"]

  function Upper(s: string, up: char -> string): string {
    if s == [] then [] else up(s[0]) + Upper(s[1..], up)
  }

  /** Upper-casing what is already a result of upper-casing changes nothing. */
  ghost predicate Stable(up: char -> string) {
    forall c: char, i: nat :: i < |up(c)| ==> up(up(c)[i]) == [up(c)[i]]
  }

  /** The characters that strip() removes and that \s matches. */
  predicate IsSpace(c: char) {
    var n := c as int;
    || 0x09 <= n <= 0x0D || 0x1C <= n <= 0x20 || n == 0x85 || n == 0xA0 || n == 0x1680
    || 0x2000 <= n <= 0x200A || n == 0x2028 || n == 0x2029 || n == 0x202F || n == 0x205F || n == 0x3000
  }

  function StripLeft(s: string): string {
    if s != [] && IsSpace(s[0]) then StripLeft(s[1..]) else s
  }

  function StripRight(s: string): string {
    if s != [] && IsSpace(s[|s| - 1]) then StripRight(s[..|s| - 1]) else s
  }

  predicate StartsWith(s: string, word: string) {
    |word| <= |s| && s[..|word|] == word
  }

  /** The designator a label starts with; no designator is a prefix of another. */
  function Designator(s: string): (word: string)
    ensures word == "" || (word in DESIGNATORS && StartsWith(s, word))
    ensures word == "" ==> forall other :: other in DESIGNATORS ==> !StartsWith(s, other)
  {
    if StartsWith(s, "APT") then assert DESIGNATORS[0] == "APT"; "APT"
    else if StartsWith(s, "UNIT") then assert DESIGNATORS[1] == "UNIT"; "UNIT"
    else if StartsWith(s, "STE") then assert DESIGNATORS[2] == "STE"; "STE"
    else if StartsWith(s, "SUITE") then assert DESIGNATORS[3] == "SUITE"; "SUITE"
    else if StartsWith(s, "NO") then assert DESIGNATORS[4] == "NO"; "NO"
    else ""
  }

  /** Removes one designator with the period and blanks behind it. */
  function DropDesignator(s: string): string {
    var word := Designator(s);
    if word == "" then
      s
    else
      var rest := s[|word|..];
      StripLeft(if rest != [] && rest[0] == '.' then rest[1..] else rest)
  }

  predicate Kept(c: char) {
    !IsSpace(c) && c != '-' && c != '#' && c != '.'
  }

  function Squeeze(s: string): string {
    if s == [] then [] else (if Kept(s[0]) then [s[0]] else []) + Squeeze(s[1..])
  }

  function UnitFingerprint(raw: string, up: char -> string): string {
    Squeeze(DropDesignator(StripRight(StripLeft(Upper(raw, up)))))
  }

  /**
   * Squeezing drops blanks, dashes, number signs and periods, and keeps every other character as often as it stands.
   */
  lemma {:induction false} SqueezeKeepsTheRest(s: string, c: char)
    ensures multiset(Squeeze(s))[c] == if IsSpace(c) || c in {'-', '#', '.'} then 0 else multiset(s)[c]
  {
    if s != [] {
      SqueezeKeepsTheRest(s[1..], c);
      assert s == [s[0]] + s[1..];
    }
  }

  /** The words that may lead a label, and what counts as a blank. */
  lemma DesignatorsAre(c: char)
    ensures DESIGNATORS == ["APT", "UNIT", "STE", "SUITE", "NO"]
    ensures c in {' ', '\t', '\n', '\r', '\U{00A0}', '\U{2009}', '\U{3000}'} ==> IsSpace(c)
    ensures 'A' <= c <= 'Z' || '0' <= c <= '9' || c in {'-', '#', '.', '/'} ==> !IsSpace(c)
  {
  }

  // ---------------------------------------------------------------- the shape of a key

  predicate AllUpper(s: string, up: char -> string) {
    forall i :: 0 <= i < |s| ==> up(s[i]) == [s[i]]
  }

  predicate AllKept(s: string) {
    forall i :: 0 <= i < |s| ==> Kept(s[i])
  }

  /** What every key looks like. */
  predicate IsKey(s: string, up: char -> string) {
    AllUpper(s, up) && AllKept(s)
  }

  lemma {:induction false} UpperIsUpper(s: string, up: char -> string)
    requires Stable(up)
    ensures AllUpper(Upper(s, up), up)
  {
    if s != [] {
      UpperIsUpper(s[1..], up);
    }
  }

  lemma {:induction false} UpperFixes(s: string, up: char -> string)
    requires AllUpper(s, up)
    ensures Upper(s, up) == s
  {
    if s != [] {
      UpperFixes(s[1..], up);
    }
  }

  lemma {:induction false} StripKeepsUpper(s: string, up: char -> string)
    requires AllUpper(s, up)
    ensures AllUpper(StripLeft(s), up) && AllUpper(StripRight(s), up)
  {
    hide IsSpace;
    if s != [] {
      if IsSpace(s[0]) { StripKeepsUpper(s[1..], up); }
      if IsSpace(s[|s| - 1]) { StripKeepsUpper(s[..|s| - 1], up); }
    }
  }

  lemma DropKeepsUpper(s: string, up: char -> string)
    requires AllUpper(s, up)
    ensures AllUpper(DropDesignator(s), up)
  {
    hide Designator, StripLeft;
    var word := Designator(s);
    if word != "" {
      var rest := s[|word|..];
      StripKeepsUpper(if rest != [] && rest[0] == '.' then rest[1..] else rest, up);
    }
  }

  lemma {:induction false} SqueezeShape(s: string, up: char -> string)
    ensures AllKept(Squeeze(s)) && (AllUpper(s, up) ==> AllUpper(Squeeze(s), up))
    ensures AllKept(s) ==> Squeeze(s) == s
  {
    hide Kept;
    if s != [] {
      SqueezeShape(s[1..], up);
    }
  }

  lemma KeyShape(raw: string, up: char -> string)
    requires Stable(up)
    ensures IsKey(UnitFingerprint(raw, up), up)
  {
    hide Upper, DropDesignator, StripLeft, StripRight, Squeeze, Stable, AllUpper, AllKept;
    UpperIsUpper(raw, up);
    StripKeepsUpper(Upper(raw, up), up);
    StripKeepsUpper(StripLeft(Upper(raw, up)), up);
    DropKeepsUpper(StripRight(StripLeft(Upper(raw, up))), up);
    SqueezeShape(DropDesignator(StripRight(StripLeft(Upper(raw, up)))), up);
  }

  // ---------------------------------------------------------------- normalizing a key

  /** On a key, normalizing does nothing but drop a designator it still starts with. */
  lemma NormalizingAKey(key: string, up: char -> string)
    requires IsKey(key, up)
    ensures UnitFingerprint(key, up) == key[|Designator(key)|..]
  {
    hide Designator, Squeeze, Upper, IsSpace;
    UpperFixes(key, up);
    assert StripLeft(key) == key && StripRight(key) == key;
    var rest := key[|Designator(key)|..];
    assert rest == [] || Kept(rest[0]);
    SqueezeShape(rest, up);
  }

  /** A key is left alone if and only if it does not start with a designator. */
  lemma KeyIsFixedIff(key: string, up: char -> string)
    requires IsKey(key, up)
    ensures UnitFingerprint(key, up) == key <==> forall word :: word in DESIGNATORS ==> !StartsWith(key, word)
  {
    hide UnitFingerprint;
    NormalizingAKey(key, up);
    if Designator(key) == "" {
      assert key[0..] == key;
    } else {
      assert |key[|Designator(key)|..]| < |key|;
    }
  }

  /** Two keys are confused if and only if they agree once each has lost the designator it starts with. */
  lemma KeysCollideIff(a: string, b: string, up: char -> string)
    requires IsKey(a, up) && IsKey(b, up)
    ensures UnitFingerprint(a, up) == UnitFingerprint(b, up) <==> a[|Designator(a)|..] == b[|Designator(b)|..]
  {
    hide UnitFingerprint, Designator;
    NormalizingAKey(a, up);
    NormalizingAKey(b, up);
  }

  /** Normalizing twice gives the same key exactly when the first key does not itself start with a designator. */
  lemma FingerprintTwiceIff(raw: string, up: char -> string)
    requires Stable(up)
    ensures
      var key := UnitFingerprint(raw, up);
      UnitFingerprint(key, up) == key <==> forall word :: word in DESIGNATORS ==> !StartsWith(key, word)
  {
    hide UnitFingerprint, Stable;
    KeyShape(raw, up);
    KeyIsFixedIff(UnitFingerprint(raw, up), up);
  }

  // ---------------------------------------------------------------- which labels share a key

  /** The label as the designator is looked for in it. */
  function Label(raw: string, up: char -> string): string {
    StripRight(StripLeft(Upper(raw, up)))
  }

  /** All its characters but blanks, dashes, number signs and periods, without the designator it starts with. */
  function Stem(raw: string, up: char -> string): string
    requires |Designator(Label(raw, up))| <= |Squeeze(Upper(raw, up))|
  {
    Squeeze(Upper(raw, up))[|Designator(Label(raw, up))|..]
  }

  lemma {:induction false} SqueezeConcat(a: string, b: string)
    ensures Squeeze(a + b) == Squeeze(a) + Squeeze(b)
  {
    hide Kept;
    if a == [] {
      assert a + b == b;
    } else {
      assert (a + b)[0] == a[0] && (a + b)[1..] == a[1..] + b;
      SqueezeConcat(a[1..], b);
      var first := if Kept(a[0]) then [a[0]] else [];
      assert first + (Squeeze(a[1..]) + Squeeze(b)) == (first + Squeeze(a[1..])) + Squeeze(b);
    }
  }

  lemma {:induction false} SqueezeIgnoresStripping(s: string)
    ensures Squeeze(StripLeft(s)) == Squeeze(s) && Squeeze(StripRight(s)) == Squeeze(s)
  {
    if s != [] {
      var last := |s| - 1;
      if IsSpace(s[0]) {
        SqueezeIgnoresStripping(s[1..]);
      }
      if IsSpace(s[last]) {
        SqueezeIgnoresStripping(s[..last]);
        assert s == s[..last] + [s[last]] && Squeeze([s[last]]) == [];
        SqueezeConcat(s[..last], [s[last]]);
      }
    }
  }

  /** Dropping a designator and then squeezing drops exactly the designator. */
  lemma SqueezeAfterDropping(s: string)
    ensures |Designator(s)| <= |Squeeze(s)|
    ensures Squeeze(DropDesignator(s)) == Squeeze(s)[|Designator(s)|..]
  {
    hide Designator, StripLeft, Kept;
    var word := Designator(s);
    if word != "" {
      var rest := s[|word|..];
      assert s == word + rest;
      SqueezeConcat(word, rest);
      DesignatorIsKept(word);
      SqueezeShape(word, AsciiUpper);
      SqueezeIgnoresStripping(rest);
      if rest != [] && rest[0] == '.' {
        assert Squeeze(rest) == Squeeze(rest[1..]) by { PeriodIsSqueezed(rest); }
        SqueezeIgnoresStripping(rest[1..]);
      }
    }
  }

  lemma PeriodIsSqueezed(s: string)
    requires s != [] && s[0] == '.'
    ensures Squeeze(s) == Squeeze(s[1..])
  {
  }

  lemma DesignatorIsKept(word: string)
    requires word in DESIGNATORS
    ensures AllKept(word)
  {
  }

  lemma KeyIsStem(raw: string, up: char -> string)
    ensures |Designator(Label(raw, up))| <= |Squeeze(Upper(raw, up))|
    ensures UnitFingerprint(raw, up) == Stem(raw, up)
  {
    hide Designator, StripLeft, StripRight, Squeeze, Upper, DropDesignator;
    SqueezeAfterDropping(Label(raw, up));
    SqueezeIgnoresStripping(StripLeft(Upper(raw, up)));
    SqueezeIgnoresStripping(Upper(raw, up));
  }

  /**
   * Two labels share a key if and only if the same characters are left once blanks and punctuation are gone and each
   * label has lost the designator it starts with.
   */
  lemma LabelsShareAKeyIff(a: string, b: string, up: char -> string)
    ensures |Designator(Label(a, up))| <= |Squeeze(Upper(a, up))|
    ensures |Designator(Label(b, up))| <= |Squeeze(Upper(b, up))|
    ensures UnitFingerprint(a, up) == UnitFingerprint(b, up) <==> Stem(a, up) == Stem(b, up)
  {
    hide UnitFingerprint, Stem;
    KeyIsStem(a, up);
    KeyIsStem(b, up);
  }

  // ---------------------------------------------------------------- labels that show it

  function AsciiUpper(c: char): string {
    if 'a' <= c <= 'z' then [(c as int - 32) as char] else [c]
  }

  lemma AsciiIsStable()
    ensures Stable(AsciiUpper)
  {
  }

  lemma CapitalsAreKeys(s: string)
    requires forall i :: 0 <= i < |s| ==> 'A' <= s[i] <= 'Z'
    ensures IsKey(s, AsciiUpper)
  {
  }

  /** Labels that start with NO, and labels that start like no designator. */
  lemma DesignatorByFirst(s: string)
    requires s != []
    ensures s[0] == 'N' && |s| > 1 && s[1] == 'O' ==> Designator(s) == "NO"
    ensures s[0] != 'A' && s[0] != 'U' && s[0] != 'S' && s[0] != 'N' ==> Designator(s) == ""
  {
    assert StartsWith(s, "APT") ==> s[0] == "APT"[0];
    assert StartsWith(s, "UNIT") ==> s[0] == "UNIT"[0];
    assert StartsWith(s, "STE") ==> s[0] == "STE"[0];
    assert StartsWith(s, "SUITE") ==> s[0] == "SUITE"[0];
    assert StartsWith(s, "NO") ==> s[0] == "NO"[0];
    if s[0] == 'N' && |s| > 1 && s[1] == 'O' {
      assert s[..2] == "NO";
    }
  }

  /** A doubled designator loses one at a time, under a stable upper-casing. */
  lemma DoubledDesignator()
    ensures Stable(AsciiUpper)
    ensures UnitFingerprint("NONO", AsciiUpper) == "NO" && UnitFingerprint("NO", AsciiUpper) == ""
  {
    hide UnitFingerprint, Designator, Stable;
    AsciiIsStable();
    CapitalsAreKeys("NONO");
    CapitalsAreKeys("NO");
    DesignatorByFirst("NONO");
    DesignatorByFirst("NO");
    NormalizingAKey("NONO", AsciiUpper);
    NormalizingAKey("NO", AsciiUpper);
  }

  /** A name that merely begins like a designator is confused with its rest. */
  lemma ConfusedNames()
    ensures Stable(AsciiUpper)
    ensures UnitFingerprint("NOVA", AsciiUpper) == UnitFingerprint("VA", AsciiUpper) == "VA"
  {
    hide UnitFingerprint, Designator, Stable;
    AsciiIsStable();
    CapitalsAreKeys("NOVA");
    CapitalsAreKeys("VA");
    DesignatorByFirst("NOVA");
    DesignatorByFirst("VA");
    NormalizingAKey("NOVA", AsciiUpper);
    NormalizingAKey("VA", AsciiUpper);
  }

  /** Labels without any content share the empty key. */
  lemma EmptyLabels()
    ensures UnitFingerprint("APT", AsciiUpper) == UnitFingerprint("#", AsciiUpper) == ""
  {
    CapitalsAreKeys("APT");
    assert Designator("APT") == "APT";
    NormalizingAKey("APT", AsciiUpper);
    assert AllUpper("#", AsciiUpper);
    UpperFixes("#", AsciiUpper);
    assert StripLeft("#") == "#" && StripRight("#") == "#";
    assert Designator("#") == "";
    assert Squeeze("#") == [] + Squeeze([]);
  }
}

/** What a user may type for a label: exactly the spellings the normal form accepts. */
module Names {
  import opened Basics
  import opened Registry

  /** Four to thirty-two letters, digits and inner hyphens, by their character codes. */
  lemma LabelSpelled(s: string)
    ensures ValidLabel(s)
            <==> && 4 <= |s| <= 32 && (forall i :: 0 <= i < |s| ==> 97 <= s[i] as int <= 122 || 48 <= s[i] as int <= 57 || s[i] as int == 45)
                 && s[0] as int != 45 && s[|s| - 1] as int != 45
  {
    if ValidLabel(s) { assert forall i :: 0 <= i < |s| ==> LabelChar(s[i]); }
  }

  /** The code points String.prototype.trim removes. */
  lemma SpaceSpelled(c: char)
    ensures Space(c) <==> c as int in {9, 10, 11, 12, 13, 32, 0xA0, 0x1680, 0x2000, 0x2001, 0x2002, 0x2003, 0x2004, 0x2005, 0x2006, 0x2007,
                                       0x2008, 0x2009, 0x200A, 0x2028, 0x2029, 0x202F, 0x205F, 0x3000, 0xFEFF}
  {
  }

  // --------------------------------------------------------------- what was typed

  /** One typed character stands for one of the label: in either case, or the Kelvin sign for a k. */
  predicate StandsFor(c: char, x: char) {
    c == x || ('a' <= x <= 'z' && c as int == x as int - 32) || (x == 'k' && c == '\U{212A}')
  }

  predicate Spells(typed: string, text: string) {
    |typed| == |text| && forall i :: 0 <= i < |typed| ==> StandsFor(typed[i], text[i])
  }

  predicate Blank(s: string) {
    forall i :: 0 <= i < |s| ==> Space(s[i])
  }

  /** Between blanks stands the label in any case, bare or with its suffix. */
  predicate TypedAs(raw: string, left: string, core: string, right: string, name: string) {
    raw == left + core + right && Blank(left) && Blank(right) && (Spells(core, name) || Spells(core, name + ".cook"))
  }

  // -------------------------------------------------------------------- trimming

  lemma {:induction false} LeftSplits(s: string) returns (left: string)
    ensures s == left + TrimLeft(s) && Blank(left)
  {
    left := "";
    if s != "" && Space(s[0]) {
      var rest := LeftSplits(s[1..]);
      left := [s[0]] + rest;
      assert s == [s[0]] + s[1..];
    }
  }

  lemma {:induction false} RightSplits(s: string) returns (right: string)
    ensures s == TrimRight(s) + right && Blank(right)
  {
    right := "";
    if s != "" && Space(s[|s| - 1]) {
      var rest := RightSplits(s[..|s| - 1]);
      right := rest + [s[|s| - 1]];
      assert s == s[..|s| - 1] + [s[|s| - 1]];
    }
  }

  lemma {:induction false} LeftGoes(left: string, rest: string)
    requires Blank(left) && rest != "" && !Space(rest[0])
    ensures TrimLeft(left + rest) == rest
  {
    if left == "" {
      assert left + rest == rest;
    } else {
      LeftGoes(left[1..], rest);
      assert (left + rest)[1..] == left[1..] + rest;
    }
  }

  lemma {:induction false} RightGoes(rest: string, right: string)
    requires Blank(right) && rest != "" && !Space(rest[|rest| - 1])
    ensures TrimRight(rest + right) == rest
  {
    if right == "" {
      assert rest + right == rest;
    } else {
      var n := |right| - 1;
      RightGoes(rest, right[..n]);
      assert (rest + right)[..|rest + right| - 1] == rest + right[..n];
    }
  }

  /** Nothing is left of a text exactly when it is blank. */
  lemma BlankExactly(s: string)
    ensures Trim(s) == "" <==> Blank(s)
  {
    hide TrimLeft, TrimRight;
    var left := LeftSplits(s);
    var right := RightSplits(TrimLeft(s));
    assert s == left + Trim(s) + right;
    if Trim(s) == "" {
      assert s == left + right;
    } else {
      Trimmed(s);
      assert s[|left|] == Trim(s)[0];
    }
  }

  lemma {:induction false} LeftTrimmed(s: string)
    ensures TrimLeft(s) != "" ==> !Space(TrimLeft(s)[0])
  {
    if s != "" && Space(s[0]) { LeftTrimmed(s[1..]); }
  }

  lemma {:induction false} RightStarts(s: string)
    ensures TrimRight(s) != "" ==> s != "" && TrimRight(s)[0] == s[0]
  {
    if s != "" && Space(s[|s| - 1]) { RightStarts(s[..|s| - 1]); }
  }

  lemma Trimmed(s: string)
    ensures Trim(s) != "" ==> !Space(Trim(s)[0])
  {
    LeftTrimmed(s);
    RightStarts(TrimLeft(s));
  }

  // -------------------------------------------------------------------- spelling

  /** A character of a label, or the suffix's dot. */
  predicate NameChar(x: char) {
    LabelChar(x) || x == '.'
  }

  lemma LowerStands(c: char, x: char)
    requires NameChar(x)
    ensures StandsFor(c, x) <==> Lower(c) == x
    ensures StandsFor(c, x) ==> !Space(c)
  {
  }

  lemma SpellsLower(typed: string, text: string)
    requires forall i :: 0 <= i < |text| ==> NameChar(text[i])
    ensures Spells(typed, text) <==> LowerCase(typed) == text
    ensures Spells(typed, text) && text != "" ==> !Space(typed[0]) && !Space(typed[|typed| - 1])
  {
    hide NameChar, StandsFor, Lower, LowerCase;
    if |typed| == |text| {
      forall i | 0 <= i < |typed| ensures (StandsFor(typed[i], text[i]) <==> LowerCase(typed)[i] == text[i])
        ensures StandsFor(typed[i], text[i]) ==> !Space(typed[i])
      {
        assert NameChar(text[i]);
        LowerStands(typed[i], text[i]);
      }
    }
  }

  lemma SuffixNamed(name: string)
    requires ValidLabel(name)
    ensures forall i :: 0 <= i < |name| ==> NameChar(name[i])
    ensures forall i :: 0 <= i < |name + ".cook"| ==> NameChar((name + ".cook")[i])
    ensures !(|name| >= 5 && name[|name| - 5..] == ".cook")
  {
    assert forall i :: 0 <= i < |name| ==> LabelChar(name[i]);
    assert NameChar('.') && NameChar('c') && NameChar('o') && NameChar('k');
    if |name| >= 5 {
      assert LabelChar(name[|name| - 5]) && name[|name| - 5..][0] == name[|name| - 5] && ".cook"[0] == '.';
    }
  }

  /** What was typed names this label exactly when it spells it between blanks, in any case, with or without the suffix. */
  lemma NormalizesExactly(raw: string, name: string)
    ensures NormalizeName(raw) == Some(name)
            <==> ValidLabel(name) && exists left, core, right :: TypedAs(raw, left, core, right, name)
  {
    hide ValidLabel, Spells;
    if NormalizeName(raw) == Some(name) {
      TypedForm(raw, name);
    }
    if ValidLabel(name) && exists left, core, right :: TypedAs(raw, left, core, right, name) {
      var left, core, right :| TypedAs(raw, left, core, right, name);
      FormNormalizes(raw, left, core, right, name);
    }
  }

  lemma TypedForm(raw: string, name: string)
    requires NormalizeName(raw) == Some(name)
    ensures exists left, core, right :: TypedAs(raw, left, core, right, name)
  {
    hide ValidLabel, Spells, TrimLeft, TrimRight, NormalizeName, Blank;
    var left := LeftSplits(raw);
    var right := RightSplits(TrimLeft(raw));
    var core := Trim(raw);
    assert raw == left + core + right;
    CoreSpells(raw, name);
    assert TypedAs(raw, left, core, right, name);
  }

  lemma CoreSpells(raw: string, name: string)
    requires NormalizeName(raw) == Some(name)
    ensures Spells(Trim(raw), name) || Spells(Trim(raw), name + ".cook")
  {
    hide ValidLabel, Spells, Trim, LowerCase;
    var core := Trim(raw);
    SuffixNamed(name);
    SpellsLower(core, name);
    SpellsLower(core, name + ".cook");
    var s := LowerCase(core);
    if s != name { assert s == s[..|s| - 5] + s[|s| - 5..]; }
  }

  lemma FormNormalizes(raw: string, left: string, core: string, right: string, name: string)
    requires ValidLabel(name) && TypedAs(raw, left, core, right, name)
    ensures NormalizeName(raw) == Some(name)
  {
    hide ValidLabel, TrimLeft, TrimRight, LowerCase, Space;
    SuffixNamed(name);
    var text := if Spells(core, name) then name else name + ".cook";
    assert |name| >= 4 by { LabelSpelled(name); }
    SpellsLower(core, text);
    assert core != "" && !Space(core[0]) && !Space(core[|core| - 1]);
    var tail := core + right;
    assert tail[0] == core[0] && left + core + right == left + tail;
    LeftGoes(left, tail);
    RightGoes(core, right);
    assert Trim(raw) == core;
    if text != name { assert text[|text| - 5..] == ".cook" && text[..|text| - 5] == name; }
  }
}

/**
 * Worked examples: the descriptors, tables and key events the key map is documented
 * with, and what the model makes of them.
 */
module KeyMapExamples {
  import opened Wrappers
  import opened JsString
  import opened KeyDescriptor
  import CanonicalFormLemmas
  import KeyMaps

  // ---------------------------------------------------------------------------
  // Reading a few tokens
  // ---------------------------------------------------------------------------

  /** What a token sequence names: the three flags and the key. */
  predicate Reads(ts: seq<string>, ctrl: bool, alt: bool, shift: bool, key: string) {
    HasModifier(ts, Ctrl) == ctrl && HasModifier(ts, Alt) == alt && HasModifier(ts, Shift) == shift && FirstKey(ts) == key
  }

  lemma ReadsNothing()
    ensures Reads([], false, false, false, [])
  {
  }

  /** A token that names a modifier sets its flag and leaves the key. */
  lemma ModifierStep(ts: seq<string>, t: string, m: Modifier, ctrl: bool, alt: bool, shift: bool, key: string)
    requires Reads(ts, ctrl, alt, shift, key) && ModifierOf(t) == Some(m)
    ensures Reads(ts + [t], ctrl || m == Ctrl, alt || m == Alt, shift || m == Shift, key)
  {
    HasModifierAppend(ts, t, Ctrl);
    HasModifierAppend(ts, t, Alt);
    HasModifierAppend(ts, t, Shift);
    FirstKeyAppend(ts, t);
  }

  /** A token that names no modifier becomes the key unless there already is one. */
  lemma KeyStep(ts: seq<string>, t: string, ctrl: bool, alt: bool, shift: bool, key: string)
    requires Reads(ts, ctrl, alt, shift, key) && ModifierOf(t) == None
    ensures Reads(ts + [t], ctrl, alt, shift, if key != [] then key else Trim(t))
  {
    HasModifierAppend(ts, t, Ctrl);
    HasModifierAppend(ts, t, Alt);
    HasModifierAppend(ts, t, Shift);
    FirstKeyAppend(ts, t);
  }

  lemma TwoModifiers(t1: string, t2: string, m1: Modifier, m2: Modifier)
    requires ModifierOf(t1) == Some(m1) && ModifierOf(t2) == Some(m2)
    ensures Reads([t1, t2], m1 == Ctrl || m2 == Ctrl, m1 == Alt || m2 == Alt, m1 == Shift || m2 == Shift, [])
  {
    ReadsNothing();
    ModifierStep([], t1, m1, false, false, false, []);
    assert [] + [t1] == [t1];
    ModifierStep([t1], t2, m2, m1 == Ctrl, m1 == Alt, m1 == Shift, []);
    assert [t1] + [t2] == [t1, t2];
  }

  lemma ModifierThenKey(t1: string, t2: string, m: Modifier)
    requires ModifierOf(t1) == Some(m) && ModifierOf(t2) == None
    ensures Reads([t1, t2], m == Ctrl, m == Alt, m == Shift, Trim(t2))
  {
    ReadsNothing();
    ModifierStep([], t1, m, false, false, false, []);
    assert [] + [t1] == [t1];
    KeyStep([t1], t2, m == Ctrl, m == Alt, m == Shift, []);
    assert [t1] + [t2] == [t1, t2];
  }

  lemma KeyThenModifier(t1: string, t2: string, m: Modifier)
    requires ModifierOf(t1) == None && ModifierOf(t2) == Some(m)
    ensures Reads([t1, t2], m == Ctrl, m == Alt, m == Shift, Trim(t1))
  {
    ReadsNothing();
    KeyStep([], t1, false, false, false, []);
    assert [] + [t1] == [t1];
    ModifierStep([t1], t2, m, false, false, false, Trim(t1));
    assert [t1] + [t2] == [t1, t2];
  }

  lemma KeyThenKey(t1: string, t2: string)
    requires ModifierOf(t1) == None && ModifierOf(t2) == None
    ensures Reads([t1, t2], false, false, false, if Trim(t1) != [] then Trim(t1) else Trim(t2))
  {
    ReadsNothing();
    KeyStep([], t1, false, false, false, []);
    assert [] + [t1] == [t1];
    KeyStep([t1], t2, false, false, false, Trim(t1));
    assert [t1] + [t2] == [t1, t2];
  }

  lemma ModifierModifierKey(t1: string, t2: string, t3: string, m1: Modifier, m2: Modifier)
    requires ModifierOf(t1) == Some(m1) && ModifierOf(t2) == Some(m2) && ModifierOf(t3) == None
    ensures Reads([t1, t2, t3], m1 == Ctrl || m2 == Ctrl, m1 == Alt || m2 == Alt, m1 == Shift || m2 == Shift, Trim(t3))
  {
    TwoModifiers(t1, t2, m1, m2);
    KeyStep([t1, t2], t3, m1 == Ctrl || m2 == Ctrl, m1 == Alt || m2 == Alt, m1 == Shift || m2 == Shift, []);
    assert [t1, t2] + [t3] == [t1, t2, t3];
  }

  lemma ThreeModifiers(t1: string, t2: string, t3: string, m1: Modifier, m2: Modifier, m3: Modifier)
    requires ModifierOf(t1) == Some(m1) && ModifierOf(t2) == Some(m2) && ModifierOf(t3) == Some(m3)
    ensures Reads([t1, t2, t3], m1 == Ctrl || m2 == Ctrl || m3 == Ctrl, m1 == Alt || m2 == Alt || m3 == Alt,
                  m1 == Shift || m2 == Shift || m3 == Shift, [])
  {
    TwoModifiers(t1, t2, m1, m2);
    ModifierStep([t1, t2], t3, m3, m1 == Ctrl || m2 == Ctrl, m1 == Alt || m2 == Alt, m1 == Shift || m2 == Shift, []);
    assert [t1, t2] + [t3] == [t1, t2, t3];
  }

  /** A descriptor whose dash-free tokens read as given normalises to the descriptor those build. */
  lemma NormalizeJoined(ts: seq<string>, ctrl: bool, alt: bool, shift: bool, key: string)
    requires |ts| >= 1 && forall i :: 0 <= i < |ts| ==> '-' !in ts[i]
    requires Reads(ts, ctrl, alt, shift, key)
    ensures NormalizedDescriptor(Join(ts)) == Descriptor(ctrl, alt, shift, key)
  {
    SplitJoin(ts);
  }

  // ---------------------------------------------------------------------------
  // Words and letters
  // ---------------------------------------------------------------------------

  lemma CtrlWord()
    ensures ModifierOf("ctrl") == Some(Ctrl)
  {
    LowerWordIsCanonical("ctrl");
  }

  lemma CmdWord()
    ensures ModifierOf("Cmd") == Some(Ctrl)
  {
    assert !IsWhitespace('C') && !IsWhitespace('d');
    assert Trim("Cmd") == "Cmd";
    assert Lower("Cmd") == "cmd";
  }

  lemma OptWord()
    ensures ModifierOf("Opt") == Some(Alt)
  {
    assert !IsWhitespace('O') && !IsWhitespace('t');
    assert Trim("Opt") == "Opt";
    assert Lower("Opt") == "opt";
    assert Lower(Trim("Opt")) == "opt";
    AliasesDistinct();
  }

  /** A letter is trimmed, upper-cases as `UpperChar` says and names no modifier. */
  lemma Letter(c: char)
    requires 'A' <= c <= 'Z' || 'a' <= c <= 'z'
    ensures Trim([c]) == [c] && Upper([c]) == [UpperChar(c)] && ModifierOf([c]) == None
  {
    assert !IsWhitespace(c);
    KeyMaps.SingleCharNoModifier(c);
  }

  // ---------------------------------------------------------------------------
  // Order and case: "Alt-ctrl-A" is "Ctrl-Alt-A"
  // ---------------------------------------------------------------------------

  lemma JoinAltCtrlA()
    ensures Join(["Alt", "ctrl", "A"]) == "Alt-ctrl-A"
    ensures forall i :: 0 <= i < 3 ==> '-' !in ["Alt", "ctrl", "A"][i]
  {
    assert Join(["ctrl", "A"]) == "ctrl-A";
  }

  lemma AltCtrlATokens()
    ensures Reads(["Alt", "ctrl", "A"], true, true, false, "A")
  {
    CanonicalFormLemmas.AltSegment();
    CtrlWord();
    Letter('A');
    ModifierModifierKey("Alt", "ctrl", "A", Alt, Ctrl);
  }

  lemma CtrlAltADescriptor()
    ensures Descriptor(true, true, false, "A") == "Ctrl-Alt-A"
  {
    Letter('A');
    assert Segments(true, true, false) + ["A"] == ["Ctrl", "Alt", "A"];
    assert Join(["Alt", "A"]) == "Alt-A";
  }

  lemma NormalizeAltCtrlA()
    ensures NormalizedDescriptor("Alt-ctrl-A") == "Ctrl-Alt-A"
  {
    JoinAltCtrlA();
    AltCtrlATokens();
    NormalizeJoined(["Alt", "ctrl", "A"], true, true, false, "A");
    CtrlAltADescriptor();
  }

  // ---------------------------------------------------------------------------
  // Aliases: "Cmd-S" is "Ctrl-S", "Opt-Shift-X" is "Alt-Shift-X"
  // ---------------------------------------------------------------------------

  lemma JoinCmdS()
    ensures Join(["Cmd", "S"]) == "Cmd-S"
    ensures forall i :: 0 <= i < 2 ==> '-' !in ["Cmd", "S"][i]
  {
    assert Join(["S"]) == "S";
  }

  lemma CmdSTokens()
    ensures Reads(["Cmd", "S"], true, false, false, "S")
  {
    CmdWord();
    Letter('S');
    ModifierThenKey("Cmd", "S", Ctrl);
  }

  lemma CtrlSDescriptor()
    ensures Descriptor(true, false, false, "S") == "Ctrl-S"
  {
    Letter('S');
    assert Segments(true, false, false) + ["S"] == ["Ctrl", "S"];
    assert Join(["S"]) == "S";
  }

  lemma NormalizeCmdS()
    ensures NormalizedDescriptor("Cmd-S") == "Ctrl-S"
  {
    JoinCmdS();
    CmdSTokens();
    NormalizeJoined(["Cmd", "S"], true, false, false, "S");
    CtrlSDescriptor();
  }

  lemma JoinOptShiftX()
    ensures Join(["Opt", "Shift", "X"]) == "Opt-Shift-X"
    ensures forall i :: 0 <= i < 3 ==> '-' !in ["Opt", "Shift", "X"][i]
  {
    assert Join(["Shift", "X"]) == "Shift-X";
  }

  lemma OptShiftXTokens()
    ensures Reads(["Opt", "Shift", "X"], false, true, true, "X")
  {
    OptWord();
    CanonicalFormLemmas.ShiftSegment();
    Letter('X');
    ModifierModifierKey("Opt", "Shift", "X", Alt, Shift);
  }

  lemma AltShiftXDescriptor()
    ensures Descriptor(false, true, true, "X") == "Alt-Shift-X"
  {
    Letter('X');
    assert Segments(false, true, true) + ["X"] == ["Alt", "Shift", "X"];
    assert Join(["Shift", "X"]) == "Shift-X";
  }

  lemma NormalizeOptShiftX()
    ensures NormalizedDescriptor("Opt-Shift-X") == "Alt-Shift-X"
  {
    JoinOptShiftX();
    OptShiftXTokens();
    NormalizeJoined(["Opt", "Shift", "X"], false, true, true, "X");
    AltShiftXDescriptor();
  }

  // ---------------------------------------------------------------------------
  // The first key wins: "A-B" is "A"; no key: "Ctrl-Alt-Shift" is ""
  // ---------------------------------------------------------------------------

  lemma JoinAB()
    ensures Join(["A", "B"]) == "A-B"
    ensures forall i :: 0 <= i < 2 ==> '-' !in ["A", "B"][i]
  {
    assert Join(["B"]) == "B";
  }

  lemma ABTokens()
    ensures Reads(["A", "B"], false, false, false, "A")
  {
    Letter('A');
    Letter('B');
    KeyThenKey("A", "B");
  }

  lemma ADescriptor()
    ensures Descriptor(false, false, false, "A") == "A"
  {
    Letter('A');
    assert Segments(false, false, false) + ["A"] == ["A"];
  }

  lemma NormalizeAB()
    ensures NormalizedDescriptor("A-B") == "A"
  {
    JoinAB();
    ABTokens();
    NormalizeJoined(["A", "B"], false, false, false, "A");
    ADescriptor();
  }

  lemma JoinCtrlAltShift()
    ensures Join(["Ctrl", "Alt", "Shift"]) == "Ctrl-Alt-Shift"
    ensures forall i :: 0 <= i < 3 ==> '-' !in ["Ctrl", "Alt", "Shift"][i]
  {
    assert Join(["Alt", "Shift"]) == "Alt-Shift";
  }

  lemma NormalizeCtrlAltShift()
    ensures NormalizedDescriptor("Ctrl-Alt-Shift") == ""
  {
    JoinCtrlAltShift();
    CanonicalFormLemmas.CtrlSegment();
    CanonicalFormLemmas.AltSegment();
    CanonicalFormLemmas.ShiftSegment();
    ThreeModifiers("Ctrl", "Alt", "Shift", Ctrl, Alt, Shift);
    NormalizeJoined(["Ctrl", "Alt", "Shift"], true, true, true, []);
  }

  // ---------------------------------------------------------------------------
  // Building tables
  // ---------------------------------------------------------------------------

  lemma CollectOne(e: KeyMaps.Entry)
    ensures KeyMaps.Collect([e]) == KeyMaps.Insert(map[], e)
  {
    assert [e][..0] == [];
  }

  /** A falsy value is dropped: {"Ctrl-B": null} gives an empty table. */
  lemma FalsyValueDropped()
    ensures KeyMaps.NormalizedMap([KeyMaps.Entry("Ctrl-B", KeyMaps.Null)]) == map[]
  {
    CollectOne(KeyMaps.Entry(NormalizedDescriptor("Ctrl-B"), KeyMaps.Null));
  }

  lemma JoinCtrlAlt()
    ensures Join(["Ctrl", "Alt"]) == "Ctrl-Alt"
    ensures forall i :: 0 <= i < 2 ==> '-' !in ["Ctrl", "Alt"][i]
  {
    assert Join(["Alt"]) == "Alt";
  }

  lemma NormalizeCtrlAlt()
    ensures NormalizedDescriptor("Ctrl-Alt") == ""
  {
    JoinCtrlAlt();
    CanonicalFormLemmas.CtrlSegment();
    CanonicalFormLemmas.AltSegment();
    TwoModifiers("Ctrl", "Alt", Ctrl, Alt);
    NormalizeJoined(["Ctrl", "Alt"], true, true, false, []);
  }

  /** A descriptor without a key is dropped: {"Ctrl-Alt": "cmd.x"} gives an empty table. */
  lemma MalformedDropped()
    ensures KeyMaps.NormalizedMap([KeyMaps.Entry("Ctrl-Alt", KeyMaps.Str("cmd.x"))]) == map[]
  {
    var e := KeyMaps.Entry("Ctrl-Alt", KeyMaps.Str("cmd.x"));
    NormalizeCtrlAlt();
    assert KeyMaps.NormalizeEntries([e]) == [KeyMaps.Entry("", e.value)];
    CollectOne(KeyMaps.Entry("", e.value));
  }

  lemma JoinCtrlA()
    ensures Join(["Ctrl", "A"]) == "Ctrl-A"
    ensures forall i :: 0 <= i < 2 ==> '-' !in ["Ctrl", "A"][i]
  {
    assert Join(["A"]) == "A";
  }

  lemma JoinACtrl()
    ensures Join(["A", "Ctrl"]) == "A-Ctrl"
    ensures forall i :: 0 <= i < 2 ==> '-' !in ["A", "Ctrl"][i]
  {
    assert Join(["Ctrl"]) == "Ctrl";
  }

  lemma CtrlATokens()
    ensures Reads(["Ctrl", "A"], true, false, false, "A")
    ensures Reads(["A", "Ctrl"], true, false, false, "A")
  {
    CanonicalFormLemmas.CtrlSegment();
    Letter('A');
    ModifierThenKey("Ctrl", "A", Ctrl);
    KeyThenModifier("A", "Ctrl", Ctrl);
  }

  lemma CtrlADescriptor()
    ensures Descriptor(true, false, false, "A") == "Ctrl-A"
  {
    Letter('A');
    assert Segments(true, false, false) + ["A"] == ["Ctrl", "A"];
    assert Join(["A"]) == "A";
  }

  lemma NormalizeCtrlA()
    ensures NormalizedDescriptor("Ctrl-A") == "Ctrl-A"
    ensures NormalizedDescriptor("A-Ctrl") == "Ctrl-A"
  {
    JoinCtrlA();
    JoinACtrl();
    CtrlATokens();
    NormalizeJoined(["Ctrl", "A"], true, false, false, "A");
    NormalizeJoined(["A", "Ctrl"], true, false, false, "A");
    CtrlADescriptor();
  }

  /**
   * Of two descriptors that normalise alike, the first is kept:
   * {"Ctrl-A": "cmd.one", "A-Ctrl": "cmd.two"} binds "Ctrl-A" to "cmd.one".
   */
  lemma DuplicateDropped()
    ensures var m := KeyMaps.NormalizedMap([KeyMaps.Entry("Ctrl-A", KeyMaps.Str("cmd.one")), KeyMaps.Entry("A-Ctrl", KeyMaps.Str("cmd.two"))]);
      "Ctrl-A" in m && m["Ctrl-A"] == KeyMaps.Str("cmd.one")
  {
    NormalizeCtrlA();
    KeyMaps.NormalizedMapFirstWins([KeyMaps.Entry("Ctrl-A", KeyMaps.Str("cmd.one")), KeyMaps.Entry("A-Ctrl", KeyMaps.Str("cmd.two"))], 0);
  }

  // ---------------------------------------------------------------------------
  // Key events
  // ---------------------------------------------------------------------------

  /** Ctrl with key code 65 ("A") translates to "Ctrl-A", the descriptor "A-Ctrl" is bound under. */
  lemma TranslateCtrlA()
    ensures KeyMaps.TranslateKeyboardEvent(KeyMaps.KeyboardEvent(false, true, false, false, 65)) == "Ctrl-A"
  {
    CtrlADescriptor();
  }
}

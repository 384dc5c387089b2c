/**
 * Properties of key-descriptor normalisation: what the key is, when the result is
 * empty, that the canonical form parses back to itself (idempotence), and that
 * order, case and repetition of the modifier tokens do not matter.
 */
module KeyDescriptorLemmas {
  import opened JsString
  import opened SeqFilter
  import opened KeyDescriptor

  // ---------------------------------------------------------------------------
  // The key slot
  // ---------------------------------------------------------------------------

  /**
   * The key is the first token that names no modifier and is not blank, trimmed;
   * every later such token is ignored.
   */
  lemma FirstKeyIsFirst(tokens: seq<string>, i: nat)
    requires i < |tokens| && IsKeyToken(tokens[i])
    requires forall j :: 0 <= j < i ==> !IsKeyToken(tokens[j])
    ensures FirstKey(tokens) == Trim(tokens[i])
  {
    FilterFirst(IsKeyToken, tokens, i);
  }

  /** Tokens after the first key token do not change the key. */
  lemma LaterTokensIgnored(tokens: seq<string>, more: seq<string>)
    requires FirstKey(tokens) != []
    ensures FirstKey(tokens + more) == FirstKey(tokens)
  {
    FilterConcat(IsKeyToken, tokens, more);
  }

  // ---------------------------------------------------------------------------
  // When normalisation fails
  // ---------------------------------------------------------------------------

  /**
   * A descriptor normalises to "" exactly when none of its dash-separated tokens is
   * a key token: every token is a modifier alias or blank (`SeqFilter.FilterEmpty`
   * turns "no key tokens" into "no token is a key token").
   */
  lemma NormalizedEmpty(descriptor: string)
    ensures NormalizedDescriptor(descriptor) == [] <==> KeyTokens(Split(descriptor)) == []
  {
    var ks := KeyTokens(Split(descriptor));
    if ks != [] {
      TrimIdempotent(ks[0]);
    }
  }
}

module CanonicalFormLemmas {
  import opened Wrappers
  import opened JsString
  import opened SeqFilter
  import opened KeyDescriptor

  lemma CtrlTrimmed() ensures Trim("Ctrl") == "Ctrl" { assert !IsWhitespace('C') && !IsWhitespace('l'); }
  lemma AltTrimmed() ensures Trim("Alt") == "Alt" { assert !IsWhitespace('A') && !IsWhitespace('t'); }
  lemma ShiftTrimmed() ensures Trim("Shift") == "Shift" { assert !IsWhitespace('S') && !IsWhitespace('t'); }
  lemma CtrlLowered() ensures Lower("Ctrl") == "ctrl" { }
  lemma AltLowered() ensures Lower("Alt") == "alt" { }
  lemma ShiftLowered() ensures Lower("Shift") == "shift" { }

  lemma CtrlSegment()
    ensures ModifierOf("Ctrl") == Some(Ctrl)
  {
    CtrlTrimmed();
    CtrlLowered();
  }

  lemma AltSegment()
    ensures ModifierOf("Alt") == Some(Alt)
  {
    AltTrimmed();
    AltLowered();
    NamesAlt("Alt");
  }

  lemma ShiftSegment()
    ensures ModifierOf("Shift") == Some(Shift)
  {
    ShiftTrimmed();
    ShiftLowered();
    NamesShift("Shift");
  }

  lemma NamesAlt(token: string)
    requires Lower(Trim(token)) == "alt"
    ensures ModifierOf(token) == Some(Alt)
  {
    AliasesDistinct();
  }

  lemma NamesShift(token: string)
    requires Lower(Trim(token)) == "shift"
    ensures ModifierOf(token) == Some(Shift)
  {
    AliasesDistinct();
  }

  /**
   * Upper-casing a trimmed, non-blank key leaves it trimmed and upper-case, keeps it
   * free of dashes, and does not change it case-insensitively.
   */
  lemma CanonicalKey(key: string)
    requires Trim(key) != []
    ensures var k := Upper(Trim(key));
      && k != [] && Trim(k) == k && Upper(k) == k && Lower(k) == Lower(Trim(key))
      && ('-' !in key ==> '-' !in k)
  {
    var t := Trim(key);
    var k := Upper(t);
    CaseMapsKeepWhitespaceAndDash();
    assert k[0] == UpperChar(t[0]) && k[|k| - 1] == UpperChar(t[|t| - 1]);
    CaseFolding(t);
    if '-' !in key {
      forall i | 0 <= i < |k| ensures k[i] != '-' {
        assert t[i] in t;
        TrimKeepsChars(key, t[i]);
      }
    }
  }

  lemma SegmentsFlags(hasCtrl: bool, hasAlt: bool, hasShift: bool, m: Modifier)
    ensures HasModifier(Segments(hasCtrl, hasAlt, hasShift), m) ==
      match m
      case Ctrl => hasCtrl
      case Alt => hasAlt
      case Shift => hasShift
  {
    CtrlSegment();
    AltSegment();
    ShiftSegment();
    NamedSegmentsFlags(ModifierOf, hasCtrl, hasAlt, hasShift, m, "Ctrl", "Alt", "Shift");
  }

  /** `SegmentsFlags` for any classification `f` and three tokens it maps to Ctrl, Alt and Shift. */
  lemma NamedSegmentsFlags(f: string -> Option<Modifier>, hasCtrl: bool, hasAlt: bool, hasShift: bool, m: Modifier, c: string, a: string, s: string)
    requires f(c) == Some(Ctrl) && f(a) == Some(Alt) && f(s) == Some(Shift)
    ensures Has(f, (if hasCtrl then [c] else []) + (if hasAlt then [a] else []) + (if hasShift then [s] else []), Some(m)) ==
      match m
      case Ctrl => hasCtrl
      case Alt => hasAlt
      case Shift => hasShift
  {
    var s1: seq<string> := if hasCtrl then [c] else [];
    var s2 := s1 + (if hasAlt then [a] else []);
    var s3 := s2 + (if hasShift then [s] else []);
    if hasAlt {
      HasAppend(f, s1, a, Some(m));
    } else {
      assert s2 == s1;
    }
    if hasShift {
      HasAppend(f, s2, s, Some(m));
    } else {
      assert s3 == s2;
    }
  }

  lemma SegmentsDashFree(hasCtrl: bool, hasAlt: bool, hasShift: bool)
    ensures forall i :: 0 <= i < |Segments(hasCtrl, hasAlt, hasShift)| ==> '-' !in Segments(hasCtrl, hasAlt, hasShift)[i]
  {
  }

  lemma SegmentsNoKey(hasCtrl: bool, hasAlt: bool, hasShift: bool)
    ensures KeyTokens(Segments(hasCtrl, hasAlt, hasShift)) == []
  {
    CtrlSegment();
    AltSegment();
    ShiftSegment();
    var s1: seq<string> := if hasCtrl then ["Ctrl"] else [];
    var a: seq<string> := if hasAlt then ["Alt"] else [];
    var b: seq<string> := if hasShift then ["Shift"] else [];
    assert Segments(hasCtrl, hasAlt, hasShift) == s1 + a + b;
    assert KeyTokens(s1) == [] && KeyTokens(a) == [] && KeyTokens(b) == [];
    FilterConcat(IsKeyToken, s1, a);
    FilterConcat(IsKeyToken, s1 + a, b);
  }

  /**
   * A canonical descriptor splits back into its modifier segments and its key, when
   * the key holds no dash.
   */
  lemma DescriptorTokens(hasCtrl: bool, hasAlt: bool, hasShift: bool, key: string)
    requires Trim(key) != [] && '-' !in key
    ensures Split(Descriptor(hasCtrl, hasAlt, hasShift, key)) == Segments(hasCtrl, hasAlt, hasShift) + [Upper(Trim(key))]
  {
    var k := Upper(Trim(key));
    var ts := Segments(hasCtrl, hasAlt, hasShift) + [k];
    CanonicalKey(key);
    SegmentsDashFree(hasCtrl, hasAlt, hasShift);
    assert forall i :: 0 <= i < |ts| ==> '-' !in ts[i];
    SplitJoin(ts);
  }

  /** The upper-cased, trimmed form of a key token is a key token that both leave unchanged. */
  lemma UpperKeyIsKey(key: string)
    requires Trim(key) != [] && ModifierOf(key) == None
    ensures var k := Upper(Trim(key));
      IsKeyToken(k) && Trim(k) == k && Upper(k) == k
  {
    var k := Upper(Trim(key));
    CanonicalKey(key);
    assert Lower(Trim(k)) == Lower(Trim(key));
  }

  /** Modifier segments followed by a key token read back as their flags and that key. */
  lemma SegmentsThenKey(hasCtrl: bool, hasAlt: bool, hasShift: bool, k: string)
    requires IsKeyToken(k)
    ensures var ts := Segments(hasCtrl, hasAlt, hasShift) + [k];
      && HasModifier(ts, Ctrl) == hasCtrl && HasModifier(ts, Alt) == hasAlt && HasModifier(ts, Shift) == hasShift
      && FirstKey(ts) == Trim(k)
  {
    var segs := Segments(hasCtrl, hasAlt, hasShift);
    SegmentsFlags(hasCtrl, hasAlt, hasShift, Ctrl);
    SegmentsFlags(hasCtrl, hasAlt, hasShift, Alt);
    SegmentsFlags(hasCtrl, hasAlt, hasShift, Shift);
    SegmentsNoKey(hasCtrl, hasAlt, hasShift);
    HasModifierAppend(segs, k, Ctrl);
    HasModifierAppend(segs, k, Alt);
    HasModifierAppend(segs, k, Shift);
    FirstKeyAppend(segs, k);
  }

  /**
   * Normalising a canonical descriptor gives it back, when its key holds no dash and
   * is not a modifier alias.
   */
  lemma DescriptorIsCanonical(hasCtrl: bool, hasAlt: bool, hasShift: bool, key: string)
    requires Trim(key) != [] && '-' !in key && ModifierOf(key) == None
    ensures NormalizedDescriptor(Descriptor(hasCtrl, hasAlt, hasShift, key)) == Descriptor(hasCtrl, hasAlt, hasShift, key)
  {
    var k := Upper(Trim(key));
    DescriptorTokens(hasCtrl, hasAlt, hasShift, key);
    UpperKeyIsKey(key);
    SegmentsThenKey(hasCtrl, hasAlt, hasShift, k);
  }

  lemma NormalizedOfEmpty()
    ensures NormalizedDescriptor("") == ""
  {
    assert Split("") == [""];
    assert Trim("") == "";
    assert ModifierOf("") == None;
    assert HasModifier([""], Ctrl) == false;
    assert KeyTokens([""]) == [];
  }

  /** The key of dash-free tokens is non-blank, trimmed, dash-free and names no modifier. */
  lemma FirstKeyIsCanonicalKey(tokens: seq<string>)
    requires KeyTokens(tokens) != []
    requires forall i :: 0 <= i < |tokens| ==> '-' !in tokens[i]
    ensures var key := FirstKey(tokens);
      Trim(key) != [] && '-' !in key && ModifierOf(key) == None
  {
    var t := KeyTokens(tokens)[0];
    assert IsKeyToken(t);
    FilterSubset(IsKeyToken, tokens, 0);
    var key := Trim(t);
    forall c | c in key ensures c != '-' {
      TrimKeepsChars(t, c);
    }
    TrimIdempotent(t);
    assert ModifierOf(key) == ModifierOf(t);
  }

  /** Normalisation is idempotent: a normalised descriptor is canonical. */
  lemma NormalizeIdempotent(descriptor: string)
    ensures NormalizedDescriptor(NormalizedDescriptor(descriptor)) == NormalizedDescriptor(descriptor)
  {
    var ts := Split(descriptor);
    if KeyTokens(ts) == [] {
      NormalizedOfEmpty();
    } else {
      FirstKeyIsCanonicalKey(ts);
      DescriptorIsCanonical(HasModifier(ts, Ctrl), HasModifier(ts, Alt), HasModifier(ts, Shift), FirstKey(ts));
    }
  }
}

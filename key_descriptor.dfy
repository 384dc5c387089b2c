/**
 * Key descriptors: strings such as "Alt-ctrl-A" that name a keyboard shortcut as
 * optional modifiers plus one key, and their canonical form "Ctrl-Alt-Shift-<KEY>",
 * where each modifier appears at most once, always in that order, and the key is
 * upper-cased.
 */
module KeyDescriptor {
  import opened Wrappers
  import opened JsString
  import opened SeqFilter

  datatype Modifier = Ctrl | Alt | Shift

  // ---------------------------------------------------------------------------
  // Building the canonical form from its parts (`_buildKeyDescriptor`)
  // ---------------------------------------------------------------------------

  /** The modifier segments present, in the fixed order Ctrl, Alt, Shift. */
  function Segments(hasCtrl: bool, hasAlt: bool, hasShift: bool): seq<string> {
    (if hasCtrl then ["Ctrl"] else []) + (if hasAlt then ["Alt"] else []) + (if hasShift then ["Shift"] else [])
  }

  /**
   * The canonical descriptor for three modifier flags and a key: empty when the key
   * is blank, otherwise the present modifier segments and the trimmed, upper-cased
   * key, joined with dashes.
   */
  function Descriptor(hasCtrl: bool, hasAlt: bool, hasShift: bool, key: string): (d: string)
    ensures d == [] <==> Trim(key) == []
  {
    var k := Trim(key);
    if k == [] then [] else Join(Segments(hasCtrl, hasAlt, hasShift) + [Upper(k)])
  }

  /**
   * `_buildKeyDescriptor`: pushes the present modifier segments and the key into a
   * list and joins it with dashes; a missing or blank key gives "".
   */
  method BuildKeyDescriptor(hasCtrl: bool, hasAlt: bool, hasShift: bool, key: string) returns (d: string)
    ensures d == Descriptor(hasCtrl, hasAlt, hasShift, key)
  {
    if key == [] {
      return [];
    }
    var k := Upper(Trim(key));
    if |k| == 0 {
      return [];
    }
    var segments: seq<string> := [];
    if hasCtrl {
      segments := segments + ["Ctrl"];
    }
    if hasAlt {
      segments := segments + ["Alt"];
    }
    if hasShift {
      segments := segments + ["Shift"];
    }
    segments := segments + [k];
    assert segments == Segments(hasCtrl, hasAlt, hasShift) + [k];
    d := Join(segments);
  }

  // ---------------------------------------------------------------------------
  // Classifying tokens (`_isModifier`)
  // ---------------------------------------------------------------------------

  /**
   * `_isModifier(left, right)`: `right` is present and, trimmed and lower-cased, equals
   * the alias `left`. The source also trims and lower-cases `left`; every alias it
   * passes is a lower-case word, which both leave unchanged (`LowerWordIsCanonical`).
   */
  function IsModifier(left: string, right: string): bool {
    if left == [] || right == [] then false
    else left == Lower(Trim(right))
  }

  /**
   * The modifier a token names: trimmed and lower-cased, "ctrl" and "cmd" name Ctrl,
   * "alt" and "opt" name Alt, "shift" names Shift; any other token names none.
   */
  function ModifierOf(token: string): Option<Modifier> {
    var w := Lower(Trim(token));
    if w == "ctrl" || w == "cmd" then Some(Ctrl)
    else if w == "alt" || w == "opt" then Some(Alt)
    else if w == "shift" then Some(Shift)
    else None
  }

  /** A token takes the key slot when it names no modifier and is not blank. */
  predicate IsKeyToken(token: string) {
    ModifierOf(token) == None && Trim(token) != []
  }

  /** A word of lower-case ASCII letters. */
  predicate IsLowerWord(w: string) {
    w != [] && forall i :: 0 <= i < |w| ==> 'a' <= w[i] <= 'z'
  }

  lemma LowerWordIsTrimmed(w: string)
    requires IsLowerWord(w)
    ensures Trim(w) == w
  {
  }

  lemma LowerWordIsLowerCase(w: string)
    requires IsLowerWord(w)
    ensures Lower(w) == w
  {
  }

  lemma LowerWordIsCanonical(w: string)
    requires IsLowerWord(w)
    ensures Lower(Trim(w)) == w
  {
    LowerWordIsTrimmed(w);
    LowerWordIsLowerCase(w);
  }

  /** Against a lower-case alias, `_isModifier` compares the trimmed, lower-cased token with it. */
  lemma IsModifierMeans(alias: string, token: string)
    requires alias != []
    ensures IsModifier(alias, token) <==> Lower(Trim(token)) == alias
  {
    if token == [] {
      assert Trim(token) == [];
    }
  }

  /** The five aliases are distinct words. */
  lemma AliasesDistinct()
    ensures "ctrl" != "cmd" && "ctrl" != "alt" && "ctrl" != "opt" && "ctrl" != "shift"
    ensures "cmd" != "alt" && "cmd" != "opt" && "cmd" != "shift"
    ensures "alt" != "opt" && "alt" != "shift" && "opt" != "shift"
  {
    assert "cmd"[0] != "alt"[0] && "cmd"[0] != "opt"[0] && "alt"[0] != "opt"[0];
  }

  /**
   * The source's chain of `_isModifier` tests (ctrl, cmd, alt, opt, shift, in that
   * order) classifies a token as `ModifierOf` does.
   */
  lemma IsModifierChain(token: string)
    ensures IsModifier("ctrl", token) || IsModifier("cmd", token) <==> ModifierOf(token) == Some(Ctrl)
    ensures !IsModifier("ctrl", token) && !IsModifier("cmd", token) ==>
      (IsModifier("alt", token) || IsModifier("opt", token) <==> ModifierOf(token) == Some(Alt))
    ensures !IsModifier("ctrl", token) && !IsModifier("cmd", token) && !IsModifier("alt", token) && !IsModifier("opt", token) ==>
      (IsModifier("shift", token) <==> ModifierOf(token) == Some(Shift))
  {
    AliasesDistinct();
    IsModifierMeans("ctrl", token);
    IsModifierMeans("cmd", token);
    IsModifierMeans("alt", token);
    IsModifierMeans("opt", token);
    IsModifierMeans("shift", token);
  }

  // ---------------------------------------------------------------------------
  // Normalising a descriptor string (`_normalizeKeyDescriptorString`)
  // ---------------------------------------------------------------------------

  /** Some token names modifier `m`. */
  predicate HasModifier(tokens: seq<string>, m: Modifier) {
    Has(ModifierOf, tokens, Some(m))
  }

  /** The tokens that may take the key slot, in order. */
  function KeyTokens(tokens: seq<string>): seq<string> {
    Filter(IsKeyToken, tokens)
  }

  /** The key: the first key token, trimmed; "" when there is none. */
  function FirstKey(tokens: seq<string>): (k: string)
    ensures k == [] <==> KeyTokens(tokens) == []
  {
    var ks := KeyTokens(tokens);
    if ks == [] then [] else assert IsKeyToken(ks[0]); Trim(ks[0])
  }

  /** The canonical descriptor a sequence of tokens denotes. */
  function TokensDescriptor(tokens: seq<string>): string {
    Descriptor(HasModifier(tokens, Ctrl), HasModifier(tokens, Alt), HasModifier(tokens, Shift), FirstKey(tokens))
  }

  /** The canonical form of a descriptor string: its dash-separated tokens, read as modifiers and a key. */
  function NormalizedDescriptor(descriptor: string): string {
    TokensDescriptor(Split(descriptor))
  }

  lemma HasModifierAppend(tokens: seq<string>, t: string, m: Modifier)
    ensures HasModifier(tokens + [t], m) <==> HasModifier(tokens, m) || ModifierOf(t) == Some(m)
  {
    HasAppend(ModifierOf, tokens, t, Some(m));
  }

  /** What one more token does to the key. */
  lemma FirstKeyAppend(tokens: seq<string>, t: string)
    ensures FirstKey(tokens + [t]) ==
      if FirstKey(tokens) != [] then FirstKey(tokens)
      else if ModifierOf(t) == None then Trim(t)
      else []
  {
    FilterConcat(IsKeyToken, tokens, [t]);
    assert [t][1..] == [];
  }

  /**
   * What one more token does to the three flags and the key, in terms of the
   * source's chain of `_isModifier` tests.
   */
  lemma TokenStep(tokens: seq<string>, t: string)
    ensures var ctrl := IsModifier("ctrl", t) || IsModifier("cmd", t);
      var alt := !ctrl && (IsModifier("alt", t) || IsModifier("opt", t));
      var shift := !ctrl && !alt && IsModifier("shift", t);
      && HasModifier(tokens + [t], Ctrl) == (HasModifier(tokens, Ctrl) || ctrl)
      && HasModifier(tokens + [t], Alt) == (HasModifier(tokens, Alt) || alt)
      && HasModifier(tokens + [t], Shift) == (HasModifier(tokens, Shift) || shift)
      && FirstKey(tokens + [t]) == if ctrl || alt || shift || FirstKey(tokens) != [] then FirstKey(tokens) else Trim(t)
  {
    HasModifierAppend(tokens, t, Ctrl);
    HasModifierAppend(tokens, t, Alt);
    HasModifierAppend(tokens, t, Shift);
    FirstKeyAppend(tokens, t);
    IsModifierChain(t);
  }

  /** What the source's loop has found so far: the three flags and the key. */
  datatype ScanState = ScanState(hasCtrl: bool, hasAlt: bool, hasShift: bool, key: string)

  /** One call of the source's `forEach` callback: its chain of `_isModifier` tests. */
  function ScanToken(st: ScanState, t: string): ScanState {
    if IsModifier("ctrl", t) || IsModifier("cmd", t) then st.(hasCtrl := true)
    else if IsModifier("alt", t) || IsModifier("opt", t) then st.(hasAlt := true)
    else if IsModifier("shift", t) then st.(hasShift := true)
    else if |st.key| > 0 then st
    else st.(key := Trim(t))
  }

  /** The state after the callback has run on every token, in order. */
  function Scan(tokens: seq<string>): ScanState
    decreases |tokens|
  {
    if tokens == [] then ScanState(false, false, false, "")
    else ScanToken(Scan(tokens[..|tokens| - 1]), tokens[|tokens| - 1])
  }

  /** The scan finds the modifiers the tokens name and the first key token. */
  lemma {:induction false} ScanFinds(tokens: seq<string>)
    ensures Scan(tokens) == ScanState(HasModifier(tokens, Ctrl), HasModifier(tokens, Alt), HasModifier(tokens, Shift), FirstKey(tokens))
    decreases |tokens|
  {
    if tokens == [] {
      assert KeyTokens(tokens) == [];
    } else {
      var init := tokens[..|tokens| - 1];
      var t := tokens[|tokens| - 1];
      assert init + [t] == tokens;
      ScanFinds(init);
      TokenStep(init, t);
    }
  }

  /**
   * `_normalizeKeyDescriptorString`: walks the dash-separated tokens once, setting a
   * flag for each modifier alias and keeping the first non-blank other token as the
   * key, then builds the canonical descriptor.
   */
  method NormalizeKeyDescriptor(descriptor: string) returns (d: string)
    ensures d == NormalizedDescriptor(descriptor)
  {
    var hasCtrl, hasAlt, hasShift, key := false, false, false, "";
    var tokens := Split(descriptor);
    for i := 0 to |tokens|
      invariant ScanState(hasCtrl, hasAlt, hasShift, key) == Scan(tokens[..i])
    {
      var t := tokens[i];
      assert tokens[..i + 1][..i] == tokens[..i];
      if IsModifier("ctrl", t) {
        hasCtrl := true;
      } else if IsModifier("cmd", t) {
        hasCtrl := true;
      } else if IsModifier("alt", t) {
        hasAlt := true;
      } else if IsModifier("opt", t) {
        hasAlt := true;
      } else if IsModifier("shift", t) {
        hasShift := true;
      } else if |key| > 0 {
        // a later key token is ignored
      } else {
        key := Trim(t);
      }
    }
    assert tokens[..|tokens|] == tokens;
    ScanFinds(tokens);
    d := BuildKeyDescriptor(hasCtrl, hasAlt, hasShift, key);
  }
}

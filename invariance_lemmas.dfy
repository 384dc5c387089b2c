/**
 * What a key descriptor's normal form does not depend on: the case of its letters,
 * the order of its modifier tokens, and modifiers named more than once.
 */
module InvarianceLemmas {
  import opened Wrappers
  import opened JsString
  import opened SeqFilter
  import opened KeyDescriptor

  // ---------------------------------------------------------------------------
  // Case
  // ---------------------------------------------------------------------------

  /** Lower-casing a token does not change the modifier it names. */
  lemma ModifierOfLower(t: string)
    ensures ModifierOf(Lower(t)) == ModifierOf(t)
    ensures Trim(Lower(t)) == Lower(Trim(t))
  {
    CaseMapsKeepWhitespaceAndDash();
    TrimMap(LowerChar, t);
    CaseFolding(Trim(t));
  }

  lemma KeyTokenLower(t: string)
    ensures IsKeyToken(Lower(t)) == IsKeyToken(t)
  {
    ModifierOfLower(t);
  }

  lemma {:induction false} HasModifierLower(tokens: seq<string>, m: Modifier)
    ensures HasModifier(MapTokens(LowerChar, tokens), m) == HasModifier(tokens, m)
    decreases |tokens|
  {
    if tokens != [] {
      var lowered := MapTokens(LowerChar, tokens);
      assert lowered[1..] == MapTokens(LowerChar, tokens[1..]);
      ModifierOfLower(tokens[0]);
      HasModifierLower(tokens[1..], m);
    }
  }

  /** Lower-casing every token lower-cases the key. */
  lemma FirstKeyLower(tokens: seq<string>)
    ensures FirstKey(MapTokens(LowerChar, tokens)) == Lower(FirstKey(tokens))
  {
    var lowered := MapTokens(LowerChar, tokens);
    forall i | 0 <= i < |tokens|
      ensures lowered[i] == Lower(tokens[i]) && IsKeyToken(lowered[i]) == IsKeyToken(tokens[i])
    {
      KeyTokenLower(tokens[i]);
    }
    FilterPointwise(IsKeyToken, Lower, tokens, lowered);
    var ks := KeyTokens(tokens);
    if ks != [] {
      ModifierOfLower(ks[0]);
    }
  }

  /** The key's case does not matter: it is upper-cased. */
  lemma DescriptorLowerKey(hasCtrl: bool, hasAlt: bool, hasShift: bool, key: string)
    ensures Descriptor(hasCtrl, hasAlt, hasShift, Lower(key)) == Descriptor(hasCtrl, hasAlt, hasShift, key)
  {
    ModifierOfLower(key);
    CaseFolding(Trim(key));
  }

  /** A descriptor and its lower-cased form normalise alike. */
  lemma NormalizeLower(descriptor: string)
    ensures NormalizedDescriptor(Lower(descriptor)) == NormalizedDescriptor(descriptor)
  {
    var ts := Split(descriptor);
    CaseMapsKeepWhitespaceAndDash();
    SplitMap(LowerChar, descriptor);
    HasModifierLower(ts, Ctrl);
    HasModifierLower(ts, Alt);
    HasModifierLower(ts, Shift);
    FirstKeyLower(ts);
    DescriptorLowerKey(HasModifier(ts, Ctrl), HasModifier(ts, Alt), HasModifier(ts, Shift), FirstKey(ts));
  }

  /** Normalisation is case-insensitive: descriptors that differ only in case normalise alike. */
  lemma NormalizeIgnoresCase(d1: string, d2: string)
    requires Lower(d1) == Lower(d2)
    ensures NormalizedDescriptor(d1) == NormalizedDescriptor(d2)
  {
    NormalizeLower(d1);
    NormalizeLower(d2);
  }

  // ---------------------------------------------------------------------------
  // Order and repetition
  // ---------------------------------------------------------------------------

  /** Whether a modifier is named depends only on which tokens occur, not on where. */
  lemma HasModifierSameTokens(ts1: seq<string>, ts2: seq<string>, m: Modifier)
    requires forall t :: t in ts1 <==> t in ts2
    ensures HasModifier(ts1, m) == HasModifier(ts2, m)
  {
    HasExists(ModifierOf, ts1, Some(m));
    HasExists(ModifierOf, ts2, Some(m));
    if HasModifier(ts1, m) {
      var i :| 0 <= i < |ts1| && ModifierOf(ts1[i]) == Some(m);
      assert ts1[i] in ts2;
      var j :| 0 <= j < |ts2| && ts2[j] == ts1[i];
    }
    if HasModifier(ts2, m) {
      var j :| 0 <= j < |ts2| && ModifierOf(ts2[j]) == Some(m);
      assert ts2[j] in ts1;
      var i :| 0 <= i < |ts1| && ts1[i] == ts2[j];
    }
  }

  /**
   * Reordering the tokens of a descriptor does not change its normal form, as long as
   * the key tokens keep their relative order (the first one is the key).
   */
  lemma ReorderTokens(ts1: seq<string>, ts2: seq<string>)
    requires multiset(ts1) == multiset(ts2)
    requires KeyTokens(ts1) == KeyTokens(ts2)
    ensures TokensDescriptor(ts1) == TokensDescriptor(ts2)
  {
    forall t ensures t in ts1 <==> t in ts2 {
      assert t in ts1 <==> t in multiset(ts1);
      assert t in ts2 <==> t in multiset(ts2);
    }
    HasModifierSameTokens(ts1, ts2, Ctrl);
    HasModifierSameTokens(ts1, ts2, Alt);
    HasModifierSameTokens(ts1, ts2, Shift);
  }

  lemma KeyTokensConcat3(a: seq<string>, b: seq<string>, c: seq<string>)
    ensures KeyTokens(a + b + c) == KeyTokens(a) + KeyTokens(b) + KeyTokens(c)
  {
    FilterConcat(IsKeyToken, a + b, c);
    FilterConcat(IsKeyToken, a, b);
  }

  /** Next to a modifier, a token is the only possible key token of the pair. */
  lemma PairKeyTokens(t: string, u: string)
    requires ModifierOf(t) != None
    ensures KeyTokens([t, u]) == KeyTokens([u]) && KeyTokens([u, t]) == KeyTokens([u])
  {
    FilterConcat(IsKeyToken, [t], [u]);
    FilterConcat(IsKeyToken, [u], [t]);
    assert [t] + [u] == [t, u] && [u] + [t] == [u, t];
    assert [t][1..] == [];
  }

  /** Two adjacent tokens, at least one of them a modifier, may swap places. */
  lemma SwapModifier(before: seq<string>, t: string, u: string, after: seq<string>)
    requires ModifierOf(t) != None
    ensures TokensDescriptor(before + [t, u] + after) == TokensDescriptor(before + [u, t] + after)
  {
    KeyTokensConcat3(before, [t, u], after);
    KeyTokensConcat3(before, [u, t], after);
    PairKeyTokens(t, u);
    assert multiset([t, u]) == multiset([u, t]);
    ReorderTokens(before + [t, u] + after, before + [u, t] + after);
  }

  lemma HasModifierConcat3(a: seq<string>, b: seq<string>, c: seq<string>, m: Modifier)
    ensures HasModifier(a + b + c, m) <==> HasModifier(a, m) || HasModifier(b, m) || HasModifier(c, m)
  {
    HasConcat(ModifierOf, a + b, c, Some(m));
    HasConcat(ModifierOf, a, b, Some(m));
  }

  lemma HasModifierOne(t: string, m: Modifier)
    ensures HasModifier([t], m) <==> ModifierOf(t) == Some(m)
  {
    HasOne(ModifierOf, t, Some(m));
  }

  lemma RepeatedModifierFlags(before: seq<string>, t: string, after: seq<string>, m: Modifier, other: Modifier)
    requires ModifierOf(t) == Some(m)
    requires HasModifier(before + after, m)
    ensures HasModifier(before + [t] + after, other) == HasModifier(before + after, other)
  {
    HasConcat(ModifierOf, before, after, Some(other));
    HasModifierConcat3(before, [t], after, other);
    HasModifierOne(t, other);
    HasConcat(ModifierOf, before, after, Some(m));
  }

  /** A token that names a modifier is never a key token, wherever it stands. */
  lemma ModifierTokenNoKey(before: seq<string>, t: string, after: seq<string>)
    requires ModifierOf(t) != None
    ensures KeyTokens(before + [t] + after) == KeyTokens(before + after)
  {
    assert [t][1..] == [];
    assert KeyTokens([t]) == [];
    KeyTokensConcat3(before, [t], after);
    FilterConcat(IsKeyToken, before, after);
  }

  /** Naming a modifier that is already named changes nothing. */
  lemma RepeatedModifier(before: seq<string>, t: string, after: seq<string>, m: Modifier)
    requires ModifierOf(t) == Some(m)
    requires HasModifier(before + after, m)
    ensures TokensDescriptor(before + [t] + after) == TokensDescriptor(before + after)
  {
    RepeatedModifierFlags(before, t, after, m, Ctrl);
    RepeatedModifierFlags(before, t, after, m, Alt);
    RepeatedModifierFlags(before, t, after, m, Shift);
    ModifierTokenNoKey(before, t, after);
  }
}

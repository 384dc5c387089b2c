# KeyMap: key descriptors and key maps

A model of the key map of a code editor (`src/KeyMap.js`). A key map binds
*key descriptors* — strings such as `"Ctrl-Alt-Shift-A"` naming optional modifiers
and one key — to command ids. Descriptors may be written in any order and case
(`"alt-ctrl-a"`, `"Cmd-S"`, `"Opt-Shift-X"`); the key map stores them in the
canonical form `Ctrl-Alt-Shift-<KEY>`, where each modifier appears at most once and in
that order, `Cmd` is read as `Ctrl`, `Opt` as `Alt`, and the key is trimmed and
upper-cased. A keyboard event is translated into the same canonical form, so that it
can be looked up in the map.

Modules:

- `Wrappers` — `Option` and `Result`.
- `SeqFilter` — filtering a sequence and "some element maps to `u`", with their algebra.
- `JsString` — the JavaScript string operations the source uses: `trim` (the
  ECMAScript white-space and line-terminator set), `toUpperCase` / `toLowerCase`
  (ASCII), `split("-")` and `join("-")`, with the lemmas that relate them
  (`Split(Join(ts)) == ts` for dash-free tokens, `Join(Split(s)) == s`, trimming
  commutes with case mapping, ...).
- `KeyDescriptor` — `_buildKeyDescriptor` (method `BuildKeyDescriptor`, specified by
  the function `Descriptor`), `_isModifier` (`IsModifier`) and
  `_normalizeKeyDescriptorString` (method `NormalizeKeyDescriptor`, whose loop is
  proved against the specification function `NormalizedDescriptor`: the modifiers
  some token names, and the first non-blank token that names none, as the key).
- `KeyDescriptorLemmas`, `CanonicalFormLemmas`, `InvarianceLemmas` — what
  normalisation means: which token is the key, when the result is empty, that the
  canonical form normalises to itself (idempotence), and that case, the order of
  modifier tokens and repeated modifiers do not matter.
- `KeyMaps` — `_normalizeMap` (method `NormalizeMap`, proved against the function
  `NormalizedMap`), the `KeyMap` class and `create`, and `translateKeyboardEvent`,
  with the lemmas connecting the two: which events can ever be bound and when.
- `KeyMapExamples` — concrete descriptors, tables and events worked through the model.

A raw table (a JavaScript object) is a sequence of `Entry(key, value)` in
`Object.keys` order; values are JavaScript values (`Value`) with JavaScript
truthiness. Writing to `console.log` is left out; the constructor's exception is the
`Failure` of a `Result`.

## Model

| member | source | states |
|---|---|---|
| KeyDescriptor.BuildKeyDescriptor | src/KeyMap.js:15-39 | the result is `Descriptor(...)`: "" when the key is missing or blank after trimming, otherwise the present segments in the order Ctrl, Alt, Shift and the trimmed upper-cased key, joined with "-" |
| KeyDescriptor.Descriptor | src/KeyMap.js:16-24 | the descriptor is empty exactly when the trimmed key is empty |
| KeyDescriptor.IsModifier | src/KeyMap.js:52-63 | `_isModifier(left, right)`: false when either is missing, otherwise whether the alias equals the token trimmed and lower-cased; its meaning is proved in `IsModifierMeans` and its use in the source's chain in `IsModifierChain` |
| KeyDescriptor.IsModifierMeans | src/KeyMap.js:52-63 | against a non-empty lower-case alias, `_isModifier` holds exactly when the token, trimmed and lower-cased, equals the alias (a missing token never matches) |
| KeyDescriptor.LowerWordIsCanonical | src/KeyMap.js:56 | trimming and lower-casing leave each alias the source passes unchanged, so comparing with the alias as written is what the source does |
| KeyDescriptor.AliasesDistinct | src/KeyMap.js:66-76 | the five aliases ctrl, cmd, alt, opt, shift are pairwise different |
| KeyDescriptor.IsModifierChain | src/KeyMap.js:66-77 | the chain of tests ctrl, cmd, alt, opt, shift classifies a token as `ModifierOf` does: ctrl/cmd give Ctrl, alt/opt give Alt, shift gives Shift |
| KeyDescriptor.FirstKey | src/KeyMap.js:78-81 | the key is empty exactly when no token is a key token |
| KeyDescriptor.HasModifierAppend | src/KeyMap.js:65-77 | one more token names a modifier exactly when the earlier tokens or that token do |
| KeyDescriptor.FirstKeyAppend | src/KeyMap.js:78-81 | one more token changes the key only when no key was found yet and the token names no modifier; then the key is that token trimmed |
| KeyDescriptor.TokenStep | src/KeyMap.js:65-83 | one run of the `forEach` callback sets the flag its `_isModifier` test matches, or takes the trimmed token as key when none is set yet |
| KeyDescriptor.ScanFinds | src/KeyMap.js:65-83 | after the callback has run on every token, the three flags say whether some token names that modifier and the key is the first key token, trimmed |
| KeyDescriptor.NormalizeKeyDescriptor | src/KeyMap.js:46-86 | the loop over the dash-separated tokens and the final build compute `NormalizedDescriptor(descriptor)` |
| KeyDescriptorLemmas.FirstKeyIsFirst | src/KeyMap.js:78-81 | when token `i` is the first key token, the key is that token trimmed |
| KeyDescriptorLemmas.LaterTokensIgnored | src/KeyMap.js:78-79 | once a key is found, further tokens never change it ("multiple keys defined") |
| KeyDescriptorLemmas.NormalizedEmpty | src/KeyMap.js:78-85 | a descriptor normalises to "" exactly when none of its tokens is a non-blank, non-modifier token |
| CanonicalFormLemmas.SegmentsFlags | src/KeyMap.js:26-35 | the segments built from three flags name exactly the modifiers whose flag is set |
| CanonicalFormLemmas.CanonicalKey | src/KeyMap.js:20 | the trimmed, upper-cased key is non-empty, trimmed, upper-case, dash-free when the key is, and equal to the key up to case |
| CanonicalFormLemmas.DescriptorTokens | src/KeyMap.js:38 | a canonical descriptor with a dash-free key splits back into its modifier segments and its key |
| CanonicalFormLemmas.DescriptorIsCanonical | src/KeyMap.js:15-39 | normalising a built descriptor whose key is dash-free and names no modifier gives it back |
| CanonicalFormLemmas.NormalizedOfEmpty | src/KeyMap.js:46-86 | the empty descriptor normalises to "" |
| CanonicalFormLemmas.FirstKeyIsCanonicalKey | src/KeyMap.js:81 | the key found among the tokens of a split descriptor is non-blank, dash-free and names no modifier |
| CanonicalFormLemmas.NormalizeIdempotent | src/KeyMap.js:46-86 | normalisation is idempotent: a normalised descriptor normalises to itself |
| InvarianceLemmas.ModifierOfLower | src/KeyMap.js:57 | lower-casing a token does not change the modifier it names |
| InvarianceLemmas.FirstKeyLower | src/KeyMap.js:78-81 | lower-casing every token lower-cases the key |
| InvarianceLemmas.DescriptorLowerKey | src/KeyMap.js:20 | the key's case does not matter to the built descriptor |
| InvarianceLemmas.NormalizeLower | src/KeyMap.js:46-86 | a descriptor and its lower-cased form normalise alike |
| InvarianceLemmas.NormalizeIgnoresCase | src/KeyMap.js:46-86 | descriptors equal up to case normalise alike |
| InvarianceLemmas.HasModifierSameTokens | src/KeyMap.js:65-77 | whether a modifier is named depends only on which tokens occur |
| InvarianceLemmas.ReorderTokens | src/KeyMap.js:46-86 | token sequences that are permutations of each other with the same key tokens in the same order denote the same descriptor |
| InvarianceLemmas.SwapModifier | src/KeyMap.js:46-86 | swapping a modifier token with its neighbour never changes the normal form |
| InvarianceLemmas.ModifierTokenNoKey | src/KeyMap.js:65-77 | a modifier token never takes the key slot, wherever it stands |
| InvarianceLemmas.RepeatedModifier | src/KeyMap.js:59-61 | naming a modifier that is already named changes nothing ("modifier defined twice" only logs) |
| KeyMaps.Collect | src/KeyMap.js:94-110 | every descriptor the insertion policy binds is non-empty and bound to a truthy value |
| KeyMaps.CollectDomain | src/KeyMap.js:98-108 | a descriptor is bound exactly when it is non-empty and some entry offers it a truthy value |
| KeyMaps.CollectFirstWins | src/KeyMap.js:102-108 | the first entry that offers a descriptor a truthy value is the one bound |
| KeyMaps.CollectSize | src/KeyMap.js:108 | no more descriptors are bound than there are entries |
| KeyMaps.CollectStep | src/KeyMap.js:95-110 | one more run of the callback applies the insertion policy (reject malformed, falsy or already bound, else bind) to one more entry |
| KeyMaps.NormalizeMap | src/KeyMap.js:93-112 | the loop with its three rejections (malformed, falsy, defined twice) computes `NormalizedMap(raw)` |
| KeyMaps.NormalizedMapDomain | src/KeyMap.js:93-112 | a descriptor is bound exactly when it is non-empty and some raw key with a truthy value normalises to it |
| KeyMaps.NormalizedMapFirstWins | src/KeyMap.js:102-108 | of several raw keys normalising alike, the first (in `Object.keys` order) with a truthy value is bound |
| KeyMaps.NormalizedMapKeysCanonical | src/KeyMap.js:93-112 | every bound descriptor is canonical: normalising it gives it back |
| KeyMaps.NormalizedMapBounds | src/KeyMap.js:100-108 | every bound value is truthy and the map has no more keys than the raw table |
| KeyMaps.KeyMap.constructor | src/KeyMap.js:130-135 | a new key map's bindings are the normalised raw table |
| KeyMaps.Create | src/KeyMap.js:130-143 | an undefined table fails with the constructor's message; otherwise a fresh key map holding the normalised table is returned |
| KeyMaps.TranslateKeyboardEvent | src/KeyMap.js:148-155 | the event's descriptor is `Descriptor(metaKey \|\| ctrlKey, altKey, shiftKey, FromCharCode(keyCode))`; what it yields is proved in `TranslateBlank`, `TranslateCanonical`, `TranslateDash`, `TranslateUnbound` and `TranslateMatches` |
| KeyMaps.SingleCharNoModifier | src/KeyMap.js:152 | a one-character key never names a modifier |
| KeyMaps.TranslateBlank | src/KeyMap.js:148-155 | an event translates to "" exactly when its key code's character is white space |
| KeyMaps.TranslateCanonical | src/KeyMap.js:148-155 | any key other than "-" or white space translates to a non-empty descriptor that normalisation leaves unchanged |
| KeyMaps.TranslateDash | src/KeyMap.js:148-155 | the key "-" translates to a descriptor that normalises to "" |
| KeyMaps.DashKeyHasNoKeyToken | src/KeyMap.js:36-38 | a descriptor built around the key "-" is non-empty but has no key token once split at its dashes |
| KeyMaps.TranslateUnbound | src/KeyMap.js:148-155 | an event whose key is "-" or white space is bound in no key map |
| KeyMaps.TranslateMatches | src/KeyMap.js:148-155 | any other event is bound exactly when some raw key with a truthy value normalises to its descriptor |
| JsString.Trim | src/KeyMap.js:20 | the trimmed string neither starts nor ends with white space, and a string that does neither is unchanged |
| JsString.TrimBlank | src/KeyMap.js:21 | trimming gives "" exactly when every character is white space |
| JsString.TrimIdempotent | src/KeyMap.js:81 | trimming twice is trimming once |
| JsString.TrimMap | src/KeyMap.js:56-57 | case mapping commutes with trimming |
| JsString.CaseFolding | src/KeyMap.js:20 | upper- and lower-casing absorb each other |
| JsString.Split | src/KeyMap.js:65 | `split("-")` gives at least one token and no token holds a dash |
| JsString.SplitJoin | src/KeyMap.js:38 | splitting a joined sequence of dash-free tokens gives the tokens back |
| JsString.JoinSplit | src/KeyMap.js:65 | joining the tokens of a split gives the string back |
| JsString.SplitMap | src/KeyMap.js:57 | case mapping commutes with `split("-")` |
| KeyMapExamples.NormalizeJoined | src/KeyMap.js:46-86 | tokens read as given flags and key normalise, once joined, to the descriptor of those flags and key |
| KeyMapExamples.NormalizeAltCtrlA | src/KeyMap.js:46-86 | "Alt-ctrl-A" normalises to "Ctrl-Alt-A" |
| KeyMapExamples.NormalizeCmdS | src/KeyMap.js:68-70 | "Cmd-S" normalises to "Ctrl-S" |
| KeyMapExamples.NormalizeOptShiftX | src/KeyMap.js:73-77 | "Opt-Shift-X" normalises to "Alt-Shift-X" |
| KeyMapExamples.NormalizeAB | src/KeyMap.js:78-81 | "A-B" normalises to "A" |
| KeyMapExamples.NormalizeCtrlAltShift | src/KeyMap.js:16-24 | "Ctrl-Alt-Shift" normalises to "" |
| KeyMapExamples.NormalizeCtrlA | src/KeyMap.js:46-86 | "Ctrl-A" and "A-Ctrl" both normalise to "Ctrl-A" |
| KeyMapExamples.FalsyValueDropped | src/KeyMap.js:100-101 | a table binding "Ctrl-B" to `null` normalises to the empty map |
| KeyMapExamples.MalformedDropped | src/KeyMap.js:98-99 | a table binding "Ctrl-Alt" normalises to the empty map |
| KeyMapExamples.DuplicateDropped | src/KeyMap.js:102-103 | of "Ctrl-A" and "A-Ctrl", the first binding is kept |
| KeyMapExamples.TranslateCtrlA | src/KeyMap.js:148-155 | Ctrl held with key code 65 translates to "Ctrl-A" |

## Left out

- Writing to `console.log` (every diagnostic, including "Corrected a malformed key"): it has no effect on results.
- The module wrapper (`define`, `exports`): the public operations are `KeyMaps.Create` and `KeyMaps.TranslateKeyboardEvent`.
- KeyDescriptor.IsModifier: takes the alias `left` as already trimmed and lower-cased instead of trimming and lower-casing it, because every call passes a lower-case word that both leave unchanged (`KeyDescriptor.LowerWordIsCanonical`); its unused `previouslyFound` argument only selects a log message.
- KeyDescriptor.BuildKeyDescriptor: a missing key (`undefined`) is modelled as "", which the source treats the same way; the callers only pass strings.
- JsString.Upper: `toUpperCase` and `toLowerCase` are modelled on ASCII letters only; Unicode case mapping (which may change a string's length, as for "ß") is left out. `CanonicalFormLemmas.NormalizeIdempotent` and `KeyMaps.TranslateCanonical` depend on it: under Unicode `toUpperCase` the key token "ſhift" (long s) upper-cases to "SHIFT", which then reads as the Shift modifier, so the source's normalisation is not idempotent on such input.
- JsString.Trim: the white-space set is the ECMAScript one; Dafny's `char` has no surrogate code points, so strings holding lone surrogates are not modelled.
- KeyMaps.NormalizeMap: the test `finalMap[normalizedKey]` is modelled as "bound"; every stored value is truthy, and no canonical descriptor can name an inherited `Object.prototype` property: those names hold no dash and a lower-case letter, while a canonical descriptor either holds a dash or is an upper-cased key.
- KeyMaps.RawMap: a table is its own enumerable properties in `Object.keys` order; property-order rules of JavaScript objects (integer-like keys first) are taken as given by that order, and the order of the keys of the resulting object is not modelled.
- KeyMaps.Create: passing `null` (a `TypeError` from `Object.keys`) or a non-object is not modelled; only `undefined` is the error case.
- KeyMaps.Value: numbers are reals with a separate `NaN`; `-0`, BigInt and symbol values are not modelled.
- KeyMaps.KeyboardEvent: the DOM event is reduced to the five fields read; the key code is a code point outside the surrogate range, so `String.fromCharCode`'s 16-bit wrap-around of larger codes and surrogate halves are not modelled.
- KeyMapExamples.DuplicateDropped: states that "Ctrl-A" is bound to the first value, not that the resulting map has no other key, because that fuller statement on a literal table is too costly for the prover.

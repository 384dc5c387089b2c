/**
 * Key maps: a table from canonical key descriptors to command ids, built from a raw
 * table whose descriptors may be written in any form, and the translation of a
 * keyboard event into the descriptor under which it is looked up.
 */
module KeyMaps {
  import opened Wrappers
  import opened JsString
  import opened KeyDescriptor
  import opened SeqFilter
  import KeyDescriptorLemmas
  import CanonicalFormLemmas

  // ---------------------------------------------------------------------------
  // Values and raw tables
  // ---------------------------------------------------------------------------

  /** A JavaScript value bound to a descriptor; normally a command id string. */
  datatype Value =
    | Undefined
    | Null
    | Bool(b: bool)
    | Num(x: real)
    | NaN
    | Str(s: string)
    | Obj(id: nat)

  /** JavaScript truthiness: `undefined`, `null`, `false`, `0`, `NaN` and "" are falsy. */
  predicate Truthy(v: Value) {
    match v
    case Undefined => false
    case Null => false
    case Bool(b) => b
    case Num(x) => x != 0.0
    case NaN => false
    case Str(s) => s != []
    case Obj(_) => true
  }

  /** One own property of the raw table: a descriptor as written and its value. */
  datatype Entry = Entry(key: string, value: Value)

  /** The raw table's own properties, in `Object.keys` order. */
  type RawMap = seq<Entry>

  // ---------------------------------------------------------------------------
  // Collecting normalised entries (the policy of `_normalizeMap`)
  // ---------------------------------------------------------------------------

  /**
   * Adds one normalised entry: an empty descriptor (malformed) and a falsy value are
   * rejected, and so is a descriptor that is already bound; otherwise it is bound.
   */
  function Insert(m: map<string, Value>, e: Entry): map<string, Value> {
    if |e.key| == 0 then m
    else if !Truthy(e.value) then m
    else if e.key in m then m
    else m[e.key := e.value]
  }

  /** The table the normalised entries produce when inserted in order. */
  function Collect(entries: seq<Entry>): (m: map<string, Value>)
    ensures forall k :: k in m ==> k != [] && Truthy(m[k])
    decreases |entries|
  {
    if entries == [] then map[]
    else Insert(Collect(entries[..|entries| - 1]), entries[|entries| - 1])
  }

  /** Some entry binds `k` to a truthy value. */
  predicate Offers(entries: seq<Entry>, k: string) {
    exists i :: 0 <= i < |entries| && entries[i].key == k && Truthy(entries[i].value)
  }

  /** A descriptor is bound exactly when it is not empty and some entry offers it a truthy value. */
  lemma {:induction false} CollectDomain(entries: seq<Entry>, k: string)
    ensures k in Collect(entries) <==> k != [] && Offers(entries, k)
    decreases |entries|
  {
    if entries != [] {
      var init := entries[..|entries| - 1];
      var e := entries[|entries| - 1];
      CollectDomain(init, k);
      if Offers(init, k) {
        var i :| 0 <= i < |init| && init[i].key == k && Truthy(init[i].value);
        assert entries[i] == init[i];
      }
      if Offers(entries, k) && !(e.key == k && Truthy(e.value)) {
        var i :| 0 <= i < |entries| && entries[i].key == k && Truthy(entries[i].value);
        assert i < |init| && init[i] == entries[i];
      }
    }
  }

  /** The first entry that offers a descriptor a truthy value wins; later ones are rejected. */
  lemma {:induction false} CollectFirstWins(entries: seq<Entry>, i: nat)
    requires i < |entries| && entries[i].key != [] && Truthy(entries[i].value)
    requires forall j :: 0 <= j < i ==> !(entries[j].key == entries[i].key && Truthy(entries[j].value))
    ensures entries[i].key in Collect(entries) && Collect(entries)[entries[i].key] == entries[i].value
    decreases |entries|
  {
    var k := entries[i].key;
    var init := entries[..|entries| - 1];
    if i < |entries| - 1 {
      CollectFirstWins(init, i);
    } else {
      CollectDomain(init, k);
      forall j | 0 <= j < |init| ensures !(init[j].key == k && Truthy(init[j].value)) {
        assert init[j] == entries[j];
      }
    }
  }

  /** Inserting never binds more descriptors than there are entries. */
  lemma {:induction false} CollectSize(entries: seq<Entry>)
    ensures |Collect(entries)| <= |entries|
    decreases |entries|
  {
    if entries != [] {
      var init := entries[..|entries| - 1];
      CollectSize(init);
    }
  }

  // ---------------------------------------------------------------------------
  // Normalising a raw table (`_normalizeMap`)
  // ---------------------------------------------------------------------------

  /** The raw entries with their descriptors normalised. */
  function NormalizeEntries(raw: RawMap): seq<Entry> {
    seq(|raw|, i requires 0 <= i < |raw| => Entry(NormalizedDescriptor(raw[i].key), raw[i].value))
  }

  /** The normalised table a raw table denotes. */
  function NormalizedMap(raw: RawMap): map<string, Value> {
    Collect(NormalizeEntries(raw))
  }

  /** Collecting one more entry inserts it into what the earlier entries collected. */
  lemma CollectStep(entries: seq<Entry>, i: nat)
    requires i < |entries|
    ensures Collect(entries[..i + 1]) == Insert(Collect(entries[..i]), entries[i])
  {
    assert entries[..i + 1][..i] == entries[..i];
  }

  /**
   * `_normalizeMap`: walks the raw table once, normalising each descriptor; it skips
   * malformed descriptors, falsy values and descriptors already bound (the source
   * tests `finalMap[normalizedKey]` for truthiness), and binds the rest.
   */
  method NormalizeMap(raw: RawMap) returns (finalMap: map<string, Value>)
    ensures finalMap == NormalizedMap(raw)
  {
    finalMap := map[];
    ghost var normalized := NormalizeEntries(raw);
    for i := 0 to |raw|
      invariant finalMap == Collect(normalized[..i])
    {
      var ele := raw[i];
      var normalizedKey := NormalizeKeyDescriptor(ele.key);
      CollectStep(normalized, i);
      if |normalizedKey| == 0 {
        // rejected: malformed descriptor
      } else if !Truthy(ele.value) {
        // rejected: falsy value
      } else if normalizedKey in finalMap && Truthy(finalMap[normalizedKey]) {
        // rejected: defined twice
      } else {
        finalMap := finalMap[normalizedKey := ele.value];
      }
    }
    assert normalized[..|raw|] == normalized;
  }

  /**
   * A descriptor is bound exactly when it is not empty and some raw descriptor with a
   * truthy value normalises to it.
   */
  lemma NormalizedMapDomain(raw: RawMap, k: string)
    ensures k in NormalizedMap(raw) <==>
      k != [] && exists i :: 0 <= i < |raw| && NormalizedDescriptor(raw[i].key) == k && Truthy(raw[i].value)
  {
    var entries := NormalizeEntries(raw);
    CollectDomain(entries, k);
    if Offers(entries, k) {
      var i :| 0 <= i < |entries| && entries[i].key == k && Truthy(entries[i].value);
      assert NormalizedDescriptor(raw[i].key) == k && Truthy(raw[i].value);
    }
    if exists i :: 0 <= i < |raw| && NormalizedDescriptor(raw[i].key) == k && Truthy(raw[i].value) {
      var i :| 0 <= i < |raw| && NormalizedDescriptor(raw[i].key) == k && Truthy(raw[i].value);
      assert entries[i].key == k && Truthy(entries[i].value);
    }
  }

  /**
   * When several raw descriptors normalise to the same descriptor, the first one (in
   * `Object.keys` order) with a truthy value is the one bound.
   */
  lemma NormalizedMapFirstWins(raw: RawMap, i: nat)
    requires i < |raw| && NormalizedDescriptor(raw[i].key) != [] && Truthy(raw[i].value)
    requires forall j :: 0 <= j < i ==>
      !(NormalizedDescriptor(raw[j].key) == NormalizedDescriptor(raw[i].key) && Truthy(raw[j].value))
    ensures var m := NormalizedMap(raw);
      NormalizedDescriptor(raw[i].key) in m && m[NormalizedDescriptor(raw[i].key)] == raw[i].value
  {
    var entries := NormalizeEntries(raw);
    forall j | 0 <= j < i ensures !(entries[j].key == entries[i].key && Truthy(entries[j].value)) {
    }
    CollectFirstWins(entries, i);
  }

  /** Every bound descriptor is canonical: normalising it gives it back. */
  lemma NormalizedMapKeysCanonical(raw: RawMap, k: string)
    requires k in NormalizedMap(raw)
    ensures NormalizedDescriptor(k) == k
  {
    NormalizedMapDomain(raw, k);
    var i :| 0 <= i < |raw| && NormalizedDescriptor(raw[i].key) == k && Truthy(raw[i].value);
    CanonicalFormLemmas.NormalizeIdempotent(raw[i].key);
  }

  /** Every bound value is truthy, and no more descriptors are bound than the raw table has. */
  lemma NormalizedMapBounds(raw: RawMap)
    ensures forall k :: k in NormalizedMap(raw) ==> Truthy(NormalizedMap(raw)[k])
    ensures |NormalizedMap(raw)| <= |raw|
  {
    CollectSize(NormalizeEntries(raw));
  }

  // ---------------------------------------------------------------------------
  // The key map object (`KeyMap`, `create`)
  // ---------------------------------------------------------------------------

  /** A key map: its table of canonical descriptors (the source's `map` property). */
  class KeyMap {
    const bindings: map<string, Value>

    /** `new KeyMap(map)` for a given raw table: normalises it. */
    constructor(raw: RawMap)
      ensures bindings == NormalizedMap(raw)
    {
      var normalized := NormalizeMap(raw);
      bindings := normalized;
    }
  }

  const MissingMapError := "All parameters to the KeyMap constructor must be specified"

  /**
   * `create(map)`, that is `new KeyMap(map)`: throws when the table is undefined
   * (`None`), otherwise returns a new key map holding the normalised table.
   */
  method Create(raw: Option<RawMap>) returns (r: Result<KeyMap, string>)
    ensures raw.None? <==> r.Failure?
    ensures r.Failure? ==> r.error == MissingMapError
    ensures r.Success? ==> fresh(r.value) && r.value.bindings == NormalizedMap(raw.value)
  {
    if raw.None? {
      return Failure(MissingMapError);
    }
    var keyMap := new KeyMap(raw.value);
    return Success(keyMap);
  }

  // ---------------------------------------------------------------------------
  // Keyboard events (`translateKeyboardEvent`)
  // ---------------------------------------------------------------------------

  /** A key code that `String.fromCharCode` turns into one character (no surrogate). */
  type KeyCode = c: int | 0 <= c < 0xD800 || 0xE000 <= c < 0x1_0000

  /** The fields of a DOM keyboard event that the translation reads. */
  datatype KeyboardEvent = KeyboardEvent(metaKey: bool, ctrlKey: bool, altKey: bool, shiftKey: bool, keyCode: KeyCode)

  /** `String.fromCharCode(keyCode)`. */
  function FromCharCode(code: KeyCode): string {
    [code as char]
  }

  /**
   * `translateKeyboardEvent`: Meta or Ctrl give Ctrl, Alt and Shift are kept, and the
   * key is the character of the key code, upper-cased.
   */
  function TranslateKeyboardEvent(event: KeyboardEvent): string {
    Descriptor(event.metaKey || event.ctrlKey, event.altKey, event.shiftKey, FromCharCode(event.keyCode))
  }

  /** A one-character key never names a modifier: every modifier alias is longer. */
  lemma SingleCharNoModifier(c: char)
    ensures ModifierOf([c]) == None
  {
    TrimStartSuffix([c]);
    TrimEndPrefix(TrimStart([c]));
    assert |Lower(Trim([c]))| <= 1;
  }

  /** The event translates to "" exactly when its key's character is whitespace (Tab, Enter, Space, ...). */
  lemma TranslateBlank(event: KeyboardEvent)
    ensures TranslateKeyboardEvent(event) == [] <==> IsWhitespace(event.keyCode as char)
  {
    var key := FromCharCode(event.keyCode);
    TrimBlank(key);
    assert key[0] == event.keyCode as char;
  }

  /** Any other key but "-" translates to a canonical descriptor, which normalising leaves as it is. */
  lemma TranslateCanonical(event: KeyboardEvent)
    requires var c := event.keyCode as char; c != '-' && !IsWhitespace(c)
    ensures TranslateKeyboardEvent(event) != []
    ensures NormalizedDescriptor(TranslateKeyboardEvent(event)) == TranslateKeyboardEvent(event)
  {
    var c := event.keyCode as char;
    TranslateBlank(event);
    SingleCharNoModifier(c);
    CanonicalFormLemmas.DescriptorIsCanonical(event.metaKey || event.ctrlKey, event.altKey, event.shiftKey, [c]);
  }

  /**
   * The key whose character is "-" translates to a descriptor ending in the separator,
   * which normalises to "": no key is left after splitting it.
   */
  lemma TranslateDash(event: KeyboardEvent)
    requires event.keyCode as char == '-'
    ensures TranslateKeyboardEvent(event) != []
    ensures NormalizedDescriptor(TranslateKeyboardEvent(event)) == []
  {
    assert FromCharCode(event.keyCode) == "-";
    DashKeyHasNoKeyToken(event.metaKey || event.ctrlKey, event.altKey, event.shiftKey);
    KeyDescriptorLemmas.NormalizedEmpty(TranslateKeyboardEvent(event));
  }

  /** The descriptor built around the key "-" splits into the modifiers and two blank tokens. */
  lemma DashKeyHasNoKeyToken(hasCtrl: bool, hasAlt: bool, hasShift: bool)
    ensures Descriptor(hasCtrl, hasAlt, hasShift, "-") != []
    ensures KeyTokens(Split(Descriptor(hasCtrl, hasAlt, hasShift, "-"))) == []
  {
    var segs := Segments(hasCtrl, hasAlt, hasShift);
    DashIsItsOwnKey();
    var ts := segs + ["", ""];
    JoinTrailingDash(segs);
    CanonicalFormLemmas.SegmentsDashFree(hasCtrl, hasAlt, hasShift);
    SplitJoin(ts);
    CanonicalFormLemmas.SegmentsNoKey(hasCtrl, hasAlt, hasShift);
    FilterConcat(IsKeyToken, segs, ["", ""]);
    assert !IsKeyToken("");
    assert KeyTokens(["", ""]) == [];
  }

  lemma DashIsItsOwnKey()
    ensures Trim("-") == "-" && Upper("-") == "-"
  {
    assert !IsWhitespace('-') && UpperChar('-') == '-';
  }

  /** Keys whose character is whitespace or "-" are never bound, whatever the raw table. */
  lemma TranslateUnbound(event: KeyboardEvent, raw: RawMap)
    requires var c := event.keyCode as char; c == '-' || IsWhitespace(c)
    ensures TranslateKeyboardEvent(event) !in NormalizedMap(raw)
  {
    var d := TranslateKeyboardEvent(event);
    if d in NormalizedMap(raw) {
      NormalizedMapKeysCanonical(raw, d);
      TranslateBlank(event);
      if event.keyCode as char == '-' {
        TranslateDash(event);
      }
    }
  }

  /**
   * Any other key is bound exactly when some raw descriptor with a truthy value,
   * written in whatever form, normalises to the event's descriptor.
   */
  lemma TranslateMatches(event: KeyboardEvent, raw: RawMap)
    requires var c := event.keyCode as char; c != '-' && !IsWhitespace(c)
    ensures var d := TranslateKeyboardEvent(event);
      d in NormalizedMap(raw) <==>
      exists i :: 0 <= i < |raw| && NormalizedDescriptor(raw[i].key) == d && Truthy(raw[i].value)
  {
    TranslateCanonical(event);
    NormalizedMapDomain(raw, TranslateKeyboardEvent(event));
  }
}

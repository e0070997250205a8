/**
 * The value-level meaning of the user-preference store: the durable medium
 * as a map from preference keys to stored values, the record that
 * `loadPreferences` materialises from it (missing fields merged with their
 * defaults), the effect of each store operation on the medium, and the
 * effect of a whole session of operations.
 */
module PreferenceRecord {

  datatype Option<T> = None | Some(value: T)

  /** The three independently settable preference fields. */
  datatype Key = Language | CropType | VoiceInstructions

  /** What the durable medium holds under a key. */
  datatype Value = Text(text: string) | Flag(enabled: bool)

  /** The durable key/value medium; a key that is absent was never written or was cleared. */
  type Storage = map<Key, Value>

  /** The materialised preference record; `None` is the source's `null`. */
  datatype Prefs = Prefs(language: Option<string>, cropType: Option<string>, voiceInstructions: bool)

  /** Language and crop type have no fallback; voice instructions are on by default. */
  const Defaults: Prefs := Prefs(None, None, true)

  /** The store's invariant on the medium: each key holds a value of its field's type. */
  predicate WellTyped(m: Storage) {
    (Language in m ==> m[Language].Text?) &&
    (CropType in m ==> m[CropType].Text?) &&
    (VoiceInstructions in m ==> m[VoiceInstructions].Flag?)
  }

  /** The operations of the store that change the medium. */
  datatype Op =
    | SetLanguage(code: string)
    | SetCropType(crop: string)
    | SetVoiceInstructions(enabled: bool)
    | ClearPreferences

  /** The key an operation writes, if it writes exactly one. */
  function KeyOf(op: Op): Option<Key> {
    match op
    case SetLanguage(_) => Some(Language)
    case SetCropType(_) => Some(CropType)
    case SetVoiceInstructions(_) => Some(VoiceInstructions)
    case ClearPreferences => None
  }

  /**
   * `loadPreferences`: the stored record merged with defaults. It is total on
   * every well-typed medium; a field reads back absent exactly when nothing is
   * stored under its key, and voice instructions read back `true` unless
   * `false` is stored.
   */
  function Load(m: Storage): (p: Prefs)
    requires WellTyped(m)
    ensures p.language == None <==> Language !in m
    ensures Language in m ==> m[Language] == Text(p.language.value)
    ensures p.cropType == None <==> CropType !in m
    ensures CropType in m ==> m[CropType] == Text(p.cropType.value)
    ensures !p.voiceInstructions <==> VoiceInstructions in m && m[VoiceInstructions] == Flag(false)
  {
    Prefs(
      if Language in m then Some(m[Language].text) else None,
      if CropType in m then Some(m[CropType].text) else None,
      if VoiceInstructions in m then m[VoiceInstructions].enabled else true)
  }

  /**
   * One store operation on the medium: a setter writes its own key and leaves
   * every other key as it was; clearing removes every key at once.
   */
  function Step(m: Storage, op: Op): (r: Storage)
    requires WellTyped(m)
    ensures WellTyped(r)
    ensures op.ClearPreferences? ==> r == map[]
    ensures op.SetLanguage? ==> Language in r && r[Language] == Text(op.code)
    ensures op.SetCropType? ==> CropType in r && r[CropType] == Text(op.crop)
    ensures op.SetVoiceInstructions? ==> VoiceInstructions in r && r[VoiceInstructions] == Flag(op.enabled)
    ensures forall k :: KeyOf(op) != Some(k) && !op.ClearPreferences? ==>
              (k in r <==> k in m) && (k in m ==> r[k] == m[k])
  {
    match op
    case SetLanguage(c) => m[Language := Text(c)]
    case SetCropType(t) => m[CropType := Text(t)]
    case SetVoiceInstructions(b) => m[VoiceInstructions := Flag(b)]
    case ClearPreferences => map[]
  }

  /** The effect of one operation on the loaded record. */
  function Apply(p: Prefs, op: Op): Prefs {
    match op
    case SetLanguage(c) => p.(language := Some(c))
    case SetCropType(t) => p.(cropType := Some(t))
    case SetVoiceInstructions(b) => p.(voiceInstructions := b)
    case ClearPreferences => Defaults
  }

  /**
   * A clear followed by a reload yields exactly the default record. The last
   * two clauses follow from the first; they name the two fields the service's
   * scenarios check after a clear.
   */
  lemma ClearedLoadsDefaults(m: Storage)
    requires WellTyped(m)
    ensures Load(Step(m, ClearPreferences)) == Defaults
    ensures Load(Step(m, ClearPreferences)).voiceInstructions
    ensures Load(Step(m, ClearPreferences)).language == None
  {
  }

  /**
   * Reloading after one operation gives the record before it with exactly
   * that operation's field written: read-after-write, and no sibling field
   * disturbed.
   */
  lemma LoadStep(m: Storage, op: Op)
    requires WellTyped(m)
    ensures Load(Step(m, op)) == Apply(Load(m), op)
  {
  }

  /** The medium after a session of operations, applied in order. */
  function Replay(m: Storage, ops: seq<Op>): (r: Storage)
    requires WellTyped(m)
    ensures WellTyped(r)
    decreases |ops|
  {
    if |ops| == 0 then m else Step(Replay(m, ops[..|ops| - 1]), ops[|ops| - 1])
  }

  /** The language of the most recent `SetLanguage` since the last clear, else `initial`. */
  function LastLanguage(initial: Option<string>, ops: seq<Op>): Option<string>
    decreases |ops|
  {
    if |ops| == 0 then initial
    else match ops[|ops| - 1]
      case SetLanguage(c) => Some(c)
      case ClearPreferences => None
      case _ => LastLanguage(initial, ops[..|ops| - 1])
  }

  /** The crop of the most recent `SetCropType` since the last clear, else `initial`. */
  function LastCropType(initial: Option<string>, ops: seq<Op>): Option<string>
    decreases |ops|
  {
    if |ops| == 0 then initial
    else match ops[|ops| - 1]
      case SetCropType(t) => Some(t)
      case ClearPreferences => None
      case _ => LastCropType(initial, ops[..|ops| - 1])
  }

  /** The flag of the most recent `SetVoiceInstructions` since the last clear (the default `true` after a clear), else `initial`. */
  function LastVoiceInstructions(initial: bool, ops: seq<Op>): bool
    decreases |ops|
  {
    if |ops| == 0 then initial
    else match ops[|ops| - 1]
      case SetVoiceInstructions(b) => b
      case ClearPreferences => true
      case _ => LastVoiceInstructions(initial, ops[..|ops| - 1])
  }

  /** Reference meaning of a session: per field, the last value written, or what was there before. */
  function Expected(initial: Prefs, ops: seq<Op>): Prefs {
    Prefs(
      LastLanguage(initial.language, ops),
      LastCropType(initial.cropType, ops),
      LastVoiceInstructions(initial.voiceInstructions, ops))
  }

  /**
   * For every session of setter and clear calls, reloading reflects exactly
   * the last value written to each field since the last clear, the default
   * for a field cleared and not written again, and the earlier stored value
   * for a field the session never touched.
   */
  lemma {:induction false} ReplayLoadsLastWrites(m: Storage, ops: seq<Op>)
    requires WellTyped(m)
    ensures Load(Replay(m, ops)) == Expected(Load(m), ops)
    decreases |ops|
  {
    if |ops| > 0 {
      var front, last := ops[..|ops| - 1], ops[|ops| - 1];
      ReplayLoadsLastWrites(m, front);
      LoadStep(Replay(m, front), last);
    }
  }

  /** No operation of `ops` writes key `k`. */
  predicate NeverWrites(ops: seq<Op>, k: Key) {
    forall i :: 0 <= i < |ops| ==> KeyOf(ops[i]) != Some(k)
  }

  /** In the reference meaning from the default record, a field no operation writes keeps its default. */
  lemma {:induction false} UnwrittenExpectedDefaults(ops: seq<Op>)
    ensures NeverWrites(ops, Language) ==> Expected(Defaults, ops).language == None
    ensures NeverWrites(ops, CropType) ==> Expected(Defaults, ops).cropType == None
    ensures NeverWrites(ops, VoiceInstructions) ==> Expected(Defaults, ops).voiceInstructions
    decreases |ops|
  {
    if |ops| > 0 {
      var front := ops[..|ops| - 1];
      assert forall k :: NeverWrites(ops, k) ==> NeverWrites(front, k) by {
        forall k | NeverWrites(ops, k) ensures NeverWrites(front, k) {
          assert forall i :: 0 <= i < |front| ==> front[i] == ops[i];
        }
      }
      UnwrittenExpectedDefaults(front);
    }
  }

  /**
   * From a cleared medium, every field that a session never writes reads
   * back its default: `null` for language and crop type, `true` for voice
   * instructions.
   */
  lemma UnwrittenFieldsReadDefaults(ops: seq<Op>)
    ensures NeverWrites(ops, Language) ==> Load(Replay(map[], ops)).language == None
    ensures NeverWrites(ops, CropType) ==> Load(Replay(map[], ops)).cropType == None
    ensures NeverWrites(ops, VoiceInstructions) ==> Load(Replay(map[], ops)).voiceInstructions
  {
    ReplayLoadsLastWrites(map[], ops);
    UnwrittenExpectedDefaults(ops);
  }

  /**
   * A language written once survives any number of later writes to the other
   * fields: setting the crop type (or the voice flag) never overwrites it.
   */
  lemma {:induction false} SiblingWritesKeepLanguage(m: Storage, code: string, ops: seq<Op>)
    requires WellTyped(m)
    requires NeverWrites(ops, Language)
    requires forall i :: 0 <= i < |ops| ==> !ops[i].ClearPreferences?
    ensures Load(Replay(m, [SetLanguage(code)] + ops)).language == Some(code)
    decreases |ops|
  {
    var session := [SetLanguage(code)] + ops;
    if |ops| == 0 {
      assert session[..0] == [];
    } else {
      var front := ops[..|ops| - 1];
      assert session[..|session| - 1] == [SetLanguage(code)] + front;
      assert session[|session| - 1] == ops[|ops| - 1];
      assert KeyOf(ops[|ops| - 1]) != Some(Language);
      SiblingWritesKeepLanguage(m, code, front);
      LoadStep(Replay(m, [SetLanguage(code)] + front), ops[|ops| - 1]);
    }
  }

  /**
   * The other direction of the isolation: a crop type written once survives
   * any number of later writes to the language or the voice flag.
   */
  lemma {:induction false} SiblingWritesKeepCropType(m: Storage, crop: string, ops: seq<Op>)
    requires WellTyped(m)
    requires NeverWrites(ops, CropType)
    requires forall i :: 0 <= i < |ops| ==> !ops[i].ClearPreferences?
    ensures Load(Replay(m, [SetCropType(crop)] + ops)).cropType == Some(crop)
    decreases |ops|
  {
    var session := [SetCropType(crop)] + ops;
    if |ops| == 0 {
      assert session[..0] == [];
    } else {
      var front := ops[..|ops| - 1];
      assert session[..|session| - 1] == [SetCropType(crop)] + front;
      assert session[|session| - 1] == ops[|ops| - 1];
      assert KeyOf(ops[|ops| - 1]) != Some(CropType);
      SiblingWritesKeepCropType(m, crop, front);
      LoadStep(Replay(m, [SetCropType(crop)] + front), ops[|ops| - 1]);
    }
  }
}

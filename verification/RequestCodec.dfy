/** Runtime requests: normalisation, frozen context values, and the stored form they reload from. */
module RequestCodec {
  import opened Prelude
  import opened Text

  datatype Error =
    | WrongType | EmptyText | UnknownChoice | MissingBenchmark | BadRepetitions | BadThreshold | NotSerializable

  datatype Result<+T> = Ok(value: T) | Err(error: Error) {
    predicate IsFailure() { Err? }

    function PropagateFailure<U>(): Result<U>
      requires Err?
    {
      Err(error)
    }

    function Extract(): T
      requires Ok?
    {
      value
    }
  }

  /** A Python value as a caller may pass it. Enum members stand for their values; `TextLike` are
      paths and dates, read as text; `Opaque` is anything else. */
  datatype Value =
    | Nothing
    | Flag(bool)
    | Whole(n: int)
    | Number(real)
    | NotFinite
    | Str(text: string)
    | TextLike(string)
    | Member(value: Value)
    | Sequence(items: seq<Value>)
    | Mapping(entries: map<string, Value>)
    | Collection(members: seq<Value>)
    | Opaque

  /** A frozen value. A frozen set is listed in the order of its elements' `repr`. */
  datatype Frozen =
    | FNothing
    | FFlag(bool)
    | FWhole(int)
    | FNumber(real)
    | FText(string)
    | FTuple(items: seq<Frozen>)
    | FMapping(entries: map<string, Frozen>)
    | FSet(members: seq<Frozen>)

  /** A JSON value. */
  datatype Json =
    | JNull
    | JBool(bool)
    | JInt(int)
    | JNumber(real)
    | JString(string)
    | JArray(items: seq<Json>)
    | JObject(entries: map<string, Json>)

  // ----- freezing -----

  /** Mapping proxies have no hash, so they cannot be elements of a frozen set. */
  predicate Hashable(f: Frozen) {
    match f
    case FTuple(items) => forall i :: 0 <= i < |items| ==> Hashable(items[i])
    case FMapping(_) => false
    case _ => true
  }

  /** The elements in the order of their `repr`, without repetition. */
  type SetOrder = seq<Frozen> -> seq<Frozen>

  /** `_freeze`. */
  function Freeze(order: SetOrder, v: Value): Result<Frozen>
    decreases v, 0
  {
    match v
    case Nothing => Ok(FNothing)
    case Flag(b) => Ok(FFlag(b))
    case Whole(n) => Ok(FWhole(n))
    case Number(x) => Ok(FNumber(x))
    case NotFinite => Err(NotSerializable)
    case Str(s) => Ok(FText(s))
    case TextLike(s) => Ok(FText(s))
    case Member(inner) => Freeze(order, inner)
    case Sequence(items) => var frozen :- FreezeAll(order, items); Ok(FTuple(frozen))
    case Mapping(entries) =>
      if exists k :: k in entries && Freeze(order, entries[k]).Err? then Err(NotSerializable)
      else Ok(FMapping(map k | k in entries :: Freeze(order, entries[k]).value))
    case Collection(members) =>
      var frozen :- FreezeAll(order, members);
      if forall i :: 0 <= i < |frozen| ==> Hashable(frozen[i]) then Ok(FSet(order(frozen))) else Err(NotSerializable)
    case Opaque => Err(NotSerializable)
  }

  function FreezeAll(order: SetOrder, items: seq<Value>): Result<seq<Frozen>>
    decreases items, 0
  {
    if items == [] then Ok([])
    else
      var first :- Freeze(order, items[0]);
      var rest :- FreezeAll(order, items[1..]);
      Ok([first] + rest)
  }

  // ----- serialising -----

  /** `_json_safe`. */
  function JsonSafe(f: Frozen): Json {
    match f
    case FNothing => JNull
    case FFlag(b) => JBool(b)
    case FWhole(n) => JInt(n)
    case FNumber(x) => JNumber(x)
    case FText(s) => JString(s)
    case FTuple(items) => JArray(seq(|items|, i requires 0 <= i < |items| => JsonSafe(items[i])))
    case FMapping(entries) => JObject(map k | k in entries :: JsonSafe(entries[k]))
    case FSet(members) => JArray(seq(|members|, i requires 0 <= i < |members| => JsonSafe(members[i])))
  }

  /** What `json.loads` makes of a JSON value. */
  function Loaded(j: Json): Value {
    match j
    case JNull => Nothing
    case JBool(b) => Flag(b)
    case JInt(n) => Whole(n)
    case JNumber(x) => Number(x)
    case JString(s) => Str(s)
    case JArray(items) => Sequence(seq(|items|, i requires 0 <= i < |items| => Loaded(items[i])))
    case JObject(entries) => Mapping(map k | k in entries :: Loaded(entries[k]))
  }

  /** The value with every set turned into a tuple. */
  function Listed(f: Frozen): Frozen {
    match f
    case FTuple(items) => FTuple(seq(|items|, i requires 0 <= i < |items| => Listed(items[i])))
    case FMapping(entries) => FMapping(map k | k in entries :: Listed(entries[k]))
    case FSet(members) => FTuple(seq(|members|, i requires 0 <= i < |members| => Listed(members[i])))
    case _ => f
  }

  predicate HasSet(f: Frozen) {
    match f
    case FTuple(items) => exists i :: 0 <= i < |items| && HasSet(items[i])
    case FMapping(entries) => exists k :: k in entries && HasSet(entries[k])
    case FSet(_) => true
    case _ => false
  }

  lemma {:induction false} FreezeAllOk(order: SetOrder, items: seq<Value>, frozen: seq<Frozen>)
    requires |items| == |frozen| && forall i :: 0 <= i < |items| ==> Freeze(order, items[i]) == Ok(frozen[i])
    ensures FreezeAll(order, items) == Ok(frozen)
  {
    if items != [] {
      FreezeAllOk(order, items[1..], frozen[1..]);
      assert frozen == [frozen[0]] + frozen[1..];
    }
  }

  lemma FreezeEntries(order: SetOrder, entries: map<string, Value>, frozen: map<string, Frozen>)
    requires entries.Keys == frozen.Keys && forall k :: k in entries ==> Freeze(order, entries[k]) == Ok(frozen[k])
    ensures Freeze(order, Mapping(entries)) == Ok(FMapping(frozen))
  {
    var r := Freeze(order, Mapping(entries));
    assert r.Ok? by {
      assert forall k :: k in entries ==> Freeze(order, entries[k]).Ok?;
    }
    assert r.value.entries == frozen;
  }

  /** The parts of a compound value, each reloading as it should. */
  ghost predicate PartsReload(order: SetOrder, f: Frozen) {
    match f
    case FTuple(items) =>
      forall i :: 0 <= i < |items| ==> Freeze(order, Loaded(JsonSafe(items[i]))) == Ok(Listed(items[i]))
    case FSet(members) =>
      forall i :: 0 <= i < |members| ==> Freeze(order, Loaded(JsonSafe(members[i]))) == Ok(Listed(members[i]))
    case FMapping(entries) =>
      forall k :: k in entries ==> Freeze(order, Loaded(JsonSafe(entries[k]))) == Ok(Listed(entries[k]))
    case _ => true
  }

  lemma WholeReloads(order: SetOrder, f: Frozen)
    requires PartsReload(order, f)
    ensures Freeze(order, Loaded(JsonSafe(f))) == Ok(Listed(f))
  {
    match f {
      case FTuple(_) => FreezeAllOk(order, Loaded(JsonSafe(f)).items, Listed(f).items);
      case FSet(_) => FreezeAllOk(order, Loaded(JsonSafe(f)).items, Listed(f).items);
      case FMapping(_) => FreezeEntries(order, Loaded(JsonSafe(f)).entries, Listed(f).entries);
      case FNothing =>
      case FFlag(_) =>
      case FWhole(_) =>
      case FNumber(_) =>
      case FText(_) =>
    }
  }

  /** Reloading a stored value succeeds and gives it back with its sets as tuples. */
  lemma {:induction false} ReloadLists(order: SetOrder, f: Frozen)
    ensures Freeze(order, Loaded(JsonSafe(f))) == Ok(Listed(f))
    decreases f
  {
    match f {
      case FTuple(items) => forall i | 0 <= i < |items| { ReloadLists(order, items[i]); }
      case FSet(members) => forall i | 0 <= i < |members| { ReloadLists(order, members[i]); }
      case FMapping(entries) => forall k | k in entries { ReloadLists(order, entries[k]); }
      case FNothing =>
      case FFlag(_) =>
      case FWhole(_) =>
      case FNumber(_) =>
      case FText(_) =>
    }
    WholeReloads(order, f);
  }

  /** The value can be stored: it is built from the kinds of values that JSON knows, texts, enum members and
      sets, and no set holds a mapping. */
  predicate Storable(v: Value) {
    match v
    case Nothing => true
    case Flag(_) => true
    case Whole(_) => true
    case Number(_) => true
    case NotFinite => false
    case Str(_) => true
    case TextLike(_) => true
    case Member(inner) => Storable(inner)
    case Sequence(items) => forall i :: 0 <= i < |items| ==> Storable(items[i])
    case Mapping(entries) => forall k :: k in entries ==> Storable(entries[k])
    case Collection(members) => forall i :: 0 <= i < |members| ==> Storable(members[i]) && !HoldsMapping(members[i])
    case Opaque => false
  }

  predicate HoldsMapping(v: Value) {
    match v
    case Mapping(_) => true
    case Member(inner) => HoldsMapping(inner)
    case Sequence(items) => exists i :: 0 <= i < |items| && HoldsMapping(items[i])
    case _ => false
  }

  /** Freezing accepts what can be stored, and makes it hashable unless it holds a mapping. */
  ghost predicate FreezesWell(order: SetOrder, v: Value) {
    && (Freeze(order, v).Ok? <==> Storable(v))
    && (Storable(v) ==> (Hashable(Freeze(order, v).value) <==> !HoldsMapping(v)))
  }

  lemma {:induction false} FreezeAllWell(order: SetOrder, items: seq<Value>)
    requires forall i :: 0 <= i < |items| ==> FreezesWell(order, items[i])
    ensures FreezeAll(order, items).Ok? <==> forall i :: 0 <= i < |items| ==> Storable(items[i])
    ensures FreezeAll(order, items).Ok? ==>
              var frozen := FreezeAll(order, items).value;
              |frozen| == |items| && forall i :: 0 <= i < |items| ==> Freeze(order, items[i]) == Ok(frozen[i])
  {
    if items != [] {
      FreezeAllWell(order, items[1..]);
      assert forall i :: 1 <= i < |items| ==> items[i] == items[1..][i - 1];
    }
  }

  lemma SequenceFreezesWell(order: SetOrder, items: seq<Value>)
    requires forall i :: 0 <= i < |items| ==> FreezesWell(order, items[i])
    ensures FreezesWell(order, Sequence(items)) && FreezesWell(order, Collection(items))
  {
    FreezeAllWell(order, items);
  }

  lemma {:induction false} StorableIff(order: SetOrder, v: Value)
    ensures FreezesWell(order, v)
    decreases v
  {
    match v {
      case Member(inner) => StorableIff(order, inner);
      case Sequence(items) =>
        forall i | 0 <= i < |items| { StorableIff(order, items[i]); }
        SequenceFreezesWell(order, items);
      case Collection(members) =>
        forall i | 0 <= i < |members| { StorableIff(order, members[i]); }
        SequenceFreezesWell(order, members);
      case Mapping(entries) =>
        forall k | k in entries { StorableIff(order, entries[k]); }
      case _ =>
    }
  }

  /** A loaded JSON value freezes, and is stored as it was. */
  ghost predicate StoresBack(order: SetOrder, j: Json) {
    var frozen := Freeze(order, Loaded(j));
    frozen.Ok? && JsonSafe(frozen.value) == j
  }

  lemma {:induction false} AllFreeze(order: SetOrder, items: seq<Json>) returns (frozen: seq<Frozen>)
    requires forall i :: 0 <= i < |items| ==> StoresBack(order, items[i])
    ensures FreezeAll(order, Loaded(JArray(items)).items) == Ok(frozen) && |frozen| == |items|
    ensures forall i :: 0 <= i < |items| ==> JsonSafe(frozen[i]) == items[i]
  {
    frozen := seq(|items|, i requires 0 <= i < |items| => Freeze(order, Loaded(items[i])).value);
    FreezeAllOk(order, Loaded(JArray(items)).items, frozen);
  }

  lemma ObjectStoresBack(order: SetOrder, entries: map<string, Json>)
    requires forall k :: k in entries ==> StoresBack(order, entries[k])
    ensures StoresBack(order, JObject(entries))
  {
    var frozen := map k | k in entries :: Freeze(order, Loaded(entries[k])).value;
    FreezeEntries(order, Loaded(JObject(entries)).entries, frozen);
    assert JsonSafe(FMapping(frozen)).entries == entries;
  }

  /** Every JSON value reloads from storage, and is stored the same again. */
  lemma {:induction false} EveryJsonReloads(order: SetOrder, j: Json)
    ensures StoresBack(order, j)
    decreases j
  {
    match j {
      case JArray(items) =>
        forall i | 0 <= i < |items| { EveryJsonReloads(order, items[i]); }
        var frozen := AllFreeze(order, items);
        assert JsonSafe(FTuple(frozen)).items == items;
      case JObject(entries) =>
        forall k | k in entries { EveryJsonReloads(order, entries[k]); }
        ObjectStoresBack(order, entries);
      case _ =>
    }
  }

  /** What listing the sets does to a value: nothing to its stored form, and nothing to it exactly
      when it holds no set. */
  predicate ListsWell(f: Frozen) { JsonSafe(Listed(f)) == JsonSafe(f) && (Listed(f) == f <==> !HasSet(f)) }

  predicate PartsListWell(f: Frozen) {
    match f
    case FTuple(items) => forall i :: 0 <= i < |items| ==> ListsWell(items[i])
    case FSet(members) => forall i :: 0 <= i < |members| ==> ListsWell(members[i])
    case FMapping(entries) => forall k :: k in entries ==> ListsWell(entries[k])
    case _ => true
  }

  lemma TupleListsWell(f: Frozen)
    requires f.FTuple? && PartsListWell(f)
    ensures ListsWell(f)
  {
    assert forall i :: 0 <= i < |f.items| ==> Listed(f).items[i] == Listed(f.items[i]);
    assert JsonSafe(Listed(f)).items == JsonSafe(f).items;
  }

  lemma MappingListsWell(f: Frozen)
    requires f.FMapping? && PartsListWell(f)
    ensures ListsWell(f)
  {
    assert forall k :: k in f.entries ==> Listed(f).entries[k] == Listed(f.entries[k]);
    assert JsonSafe(Listed(f)).entries == JsonSafe(f).entries;
  }

  lemma SetListsWell(f: Frozen)
    requires f.FSet? && PartsListWell(f)
    ensures ListsWell(f)
  {
    assert JsonSafe(Listed(f)).items == JsonSafe(f).items;
  }

  lemma {:induction false} ListedStoresSame(f: Frozen)
    ensures ListsWell(f)
    decreases f
  {
    match f {
      case FTuple(items) =>
        forall i | 0 <= i < |items| { ListedStoresSame(items[i]); }
        TupleListsWell(f);
      case FSet(members) =>
        forall i | 0 <= i < |members| { ListedStoresSame(members[i]); }
        SetListsWell(f);
      case FMapping(entries) =>
        forall k | k in entries { ListedStoresSame(entries[k]); }
        MappingListsWell(f);
      case FNothing =>
      case FFlag(_) =>
      case FWhole(_) =>
      case FNumber(_) =>
      case FText(_) =>
    }
  }

  // ----- requests -----

  /** The constructor's arguments. */
  datatype Arguments = Arguments(
    scenarioId: Value, namespace: Value, deployment: Value, metric: Value, threshold: Value, mode: Value,
    backend: Value, protocolProfile: Value, repetitions: Value, controller: Value, model: Value,
    incidentSource: Value, benchmarkId: Value, detectionContext: Value)

  /** An accepted request. */
  datatype Request = Request(
    scenarioId: string, namespace: string, deployment: string, metric: string, threshold: real, mode: string,
    backend: string, protocolProfile: string, repetitions: nat, controller: string, model: string,
    incidentSource: string, benchmarkId: string, detectionContext: Frozen)

  /** `_strip_identifier`. */
  function Identifier(v: Value): Result<string> {
    if !v.Str? then Err(WrongType)
    else if Strip(v.text) == "" then Err(EmptyText)
    else Ok(Strip(v.text))
  }

  const MODES := {"mock", "dry-run", "real"}
  const BACKENDS := {"python", "go"}

  /** `_enum_value`: an enum member or its value. */
  function Choice(v: Value, choices: set<string>): Result<string> {
    var raw := if v.Member? then v.value else v;
    if raw.Str? && raw.text in choices then Ok(raw.text) else Err(UnknownChoice)
  }

  function ControllerOf(v: Value): Result<string> {
    var name :- Identifier(v);
    if Lower(name) in {"deterministic", "autogen"} then Ok(Lower(name)) else Err(UnknownChoice)
  }

  function SourceOf(v: Value): Result<string> {
    var name :- Identifier(v);
    var source := Underscored(Lower(name));
    if source in {"chaos_mesh", "aiopslab"} then Ok(source) else Err(UnknownChoice)
  }

  function StrippedText(v: Value): Result<string> { if v.Str? then Ok(Strip(v.text)) else Err(WrongType) }

  function ThresholdOf(v: Value): Result<real> {
    match v
    case Whole(n) => Ok(n as real)
    case Number(x) => Ok(x)
    case _ => Err(BadThreshold)
  }

  function ContextOf(order: SetOrder, v: Value): Result<Frozen> {
    if v.Mapping? then Freeze(order, v) else Err(WrongType)
  }

  /** `ExperimentRuntimeRequest.__post_init__`, checks in its order. */
  function Construct(order: SetOrder, a: Arguments): Result<Request> {
    var scenarioId :- Identifier(a.scenarioId);
    var namespace :- Identifier(a.namespace);
    var deployment :- Identifier(a.deployment);
    var protocolProfile :- Identifier(a.protocolProfile);
    var metric :- Identifier(a.metric);
    var mode :- Choice(a.mode, MODES);
    var backend :- Choice(a.backend, BACKENDS);
    var controller :- ControllerOf(a.controller);
    var model :- StrippedText(a.model);
    var source :- SourceOf(a.incidentSource);
    var benchmarkId :- StrippedText(a.benchmarkId);
    if source == "aiopslab" && benchmarkId == "" then Err(MissingBenchmark)
    else
      var context :- ContextOf(order, a.detectionContext);
      if !a.repetitions.Whole? || a.repetitions.n < 1 then Err(BadRepetitions)
      else
        var threshold :- ThresholdOf(a.threshold);
        Ok(Request(scenarioId, namespace, deployment, Underscored(Lower(metric)), threshold, mode, backend,
                   protocolProfile, a.repetitions.n, controller, model, source, benchmarkId, context))
  }

  /** A text that is not blank. */
  predicate Filled(v: Value) { v.Str? && !Blank(v.text) }

  /** The value is one of the texts, perhaps as an enum member. */
  predicate OneOf(v: Value, choices: set<string>) {
    match v
    case Str(text) => text in choices
    case Member(Str(text)) => text in choices
    case _ => false
  }

  /** The value spells one of the words, but for spacing, case and, if `dashed`, hyphens. */
  ghost predicate SpeltAs(v: Value, words: set<string>, dashed: bool) {
    v.Str? && exists word :: word in words && Spells(v.text, word, dashed)
  }

  predicate Named(a: Arguments) {
    && Filled(a.scenarioId) && Filled(a.namespace) && Filled(a.deployment) && Filled(a.protocolProfile)
    && Filled(a.metric)
  }

  ghost predicate WellChosen(a: Arguments) {
    && OneOf(a.mode, {"mock", "dry-run", "real"}) && OneOf(a.backend, {"python", "go"})
    && SpeltAs(a.controller, {"deterministic", "autogen"}, false)
    && SpeltAs(a.incidentSource, {"chaos_mesh", "aiopslab"}, true)
    && a.model.Str? && a.benchmarkId.Str? && (Spells(a.incidentSource.text, "aiopslab", true) ==> Filled(a.benchmarkId))
  }

  /** What the constructor demands of its arguments. */
  ghost predicate Acceptable(a: Arguments) {
    && Named(a) && WellChosen(a)
    && a.detectionContext.Mapping? && Storable(a.detectionContext)
    && a.repetitions.Whole? && a.repetitions.n >= 1
    && (a.threshold.Whole? || a.threshold.Number?)
  }

  /** What an accepted request holds of its arguments. */
  ghost predicate Holds(r: Request, a: Arguments)
    requires Acceptable(a)
  {
    && Trims(a.scenarioId.text, r.scenarioId) && Trims(a.namespace.text, r.namespace)
    && Trims(a.deployment.text, r.deployment) && Trims(a.protocolProfile.text, r.protocolProfile)
    && Spells(a.metric.text, r.metric, true)
    && a.mode in {Str(r.mode), Member(Str(r.mode))} && a.backend in {Str(r.backend), Member(Str(r.backend))}
    && Spells(a.controller.text, r.controller, false) && Spells(a.incidentSource.text, r.incidentSource, true)
    && Trims(a.model.text, r.model) && Trims(a.benchmarkId.text, r.benchmarkId)
    && r.repetitions == a.repetitions.n
    && r.threshold == match a.threshold { case Whole(n) => n as real case Number(x) => x case _ => 0.0 }
  }

  lemma IdentifierIs(v: Value)
    ensures Identifier(v).Ok? <==> Filled(v)
    ensures Filled(v) ==> Trims(v.text, Identifier(v).value)
  {
    if v.Str? {
      StripStrips(v.text);
      TrimsIff(v.text, Strip(v.text));
    }
  }

  lemma SpelledIsFilled(v: Value, word: string, dashed: bool)
    requires v.Str? && Spells(v.text, word, dashed) && word != ""
    ensures Filled(v)
  {
    SpellsIff(v.text, word);
    StripStrips(v.text);
  }

  lemma ControllerIs(v: Value)
    ensures ControllerOf(v).Ok? <==> SpeltAs(v, {"deterministic", "autogen"}, false)
    ensures ControllerOf(v).Ok? ==> Spells(v.text, ControllerOf(v).value, false)
  {
    if v.Str? {
      IdentifierIs(v);
      forall word ensures Spells(v.text, word, false) <==> Lower(Strip(v.text)) == word { SpellsIff(v.text, word); }
      if word :| word in {"deterministic", "autogen"} && Spells(v.text, word, false) {
        SpelledIsFilled(v, word, false);
      }
    }
  }

  lemma SourceIs(v: Value)
    ensures SourceOf(v).Ok? <==> SpeltAs(v, {"chaos_mesh", "aiopslab"}, true)
    ensures SourceOf(v).Ok? ==> Spells(v.text, SourceOf(v).value, true)
    ensures SourceOf(v).Ok? ==> (SourceOf(v).value == "aiopslab" <==> Spells(v.text, "aiopslab", true))
  {
    if v.Str? {
      IdentifierIs(v);
      forall word ensures Spells(v.text, word, true) <==> Underscored(Lower(Strip(v.text))) == word {
        SpellsIff(v.text, word);
      }
      if word :| word in {"chaos_mesh", "aiopslab"} && Spells(v.text, word, true) { SpelledIsFilled(v, word, true); }
    }
  }

  lemma TextIs(v: Value)
    ensures StrippedText(v).Ok? <==> v.Str?
    ensures v.Str? ==> Trims(v.text, StrippedText(v).value) && (StrippedText(v).value == "" <==> Blank(v.text))
  {
    if v.Str? {
      StripStrips(v.text);
      TrimsIff(v.text, Strip(v.text));
    }
  }

  predicate NamesPass(a: Arguments) {
    && Identifier(a.scenarioId).Ok? && Identifier(a.namespace).Ok? && Identifier(a.deployment).Ok?
    && Identifier(a.protocolProfile).Ok? && Identifier(a.metric).Ok?
  }

  predicate ChoicesPass(a: Arguments) {
    && Choice(a.mode, MODES).Ok? && Choice(a.backend, BACKENDS).Ok?
    && ControllerOf(a.controller).Ok? && SourceOf(a.incidentSource).Ok?
    && StrippedText(a.model).Ok? && StrippedText(a.benchmarkId).Ok?
    && (SourceOf(a.incidentSource).value == "aiopslab" ==> StrippedText(a.benchmarkId).value != "")
  }

  /** Each argument passes its own check, and the two that depend on each other pass theirs. */
  predicate Passes(order: SetOrder, a: Arguments) {
    && NamesPass(a) && ChoicesPass(a)
    && ContextOf(order, a.detectionContext).Ok?
    && a.repetitions.Whole? && a.repetitions.n >= 1 && ThresholdOf(a.threshold).Ok?
  }

  function Normal(order: SetOrder, a: Arguments): Request
    requires Passes(order, a)
  {
    Request(
      Identifier(a.scenarioId).value, Identifier(a.namespace).value, Identifier(a.deployment).value,
      Underscored(Lower(Identifier(a.metric).value)), ThresholdOf(a.threshold).value, Choice(a.mode, MODES).value,
      Choice(a.backend, BACKENDS).value, Identifier(a.protocolProfile).value, a.repetitions.n,
      ControllerOf(a.controller).value, StrippedText(a.model).value, SourceOf(a.incidentSource).value,
      StrippedText(a.benchmarkId).value, ContextOf(order, a.detectionContext).value)
  }

  lemma ConstructPasses(order: SetOrder, a: Arguments)
    ensures Construct(order, a).Ok? <==> Passes(order, a)
    ensures Passes(order, a) ==> Construct(order, a).value == Normal(order, a)
  {
  }

  lemma NamesAre(a: Arguments)
    ensures Identifier(a.scenarioId).Ok? <==> Filled(a.scenarioId)
    ensures Identifier(a.namespace).Ok? <==> Filled(a.namespace)
    ensures Identifier(a.deployment).Ok? <==> Filled(a.deployment)
    ensures Identifier(a.protocolProfile).Ok? <==> Filled(a.protocolProfile)
    ensures Filled(a.scenarioId) ==> Trims(a.scenarioId.text, Identifier(a.scenarioId).value)
    ensures Filled(a.namespace) ==> Trims(a.namespace.text, Identifier(a.namespace).value)
    ensures Filled(a.deployment) ==> Trims(a.deployment.text, Identifier(a.deployment).value)
    ensures Filled(a.protocolProfile) ==> Trims(a.protocolProfile.text, Identifier(a.protocolProfile).value)
  {
    IdentifierIs(a.scenarioId);
    IdentifierIs(a.namespace);
    IdentifierIs(a.deployment);
    IdentifierIs(a.protocolProfile);
  }

  lemma MetricIs(v: Value)
    ensures Identifier(v).Ok? <==> Filled(v)
    ensures Filled(v) ==> Spells(v.text, Underscored(Lower(Identifier(v).value)), true)
  {
    IdentifierIs(v);
    if v.Str? { SpellsIff(v.text, Underscored(Lower(Strip(v.text)))); }
  }

  lemma BenchmarkIs(source: Value, benchmark: Value)
    requires SourceOf(source).Ok? && benchmark.Str?
    ensures (SourceOf(source).value == "aiopslab" ==> StrippedText(benchmark).value != "")
            <==> (Spells(source.text, "aiopslab", true) ==> Filled(benchmark))
  {
    SourceIs(source);
    TextIs(benchmark);
  }

  lemma NamesPassIff(a: Arguments)
    ensures NamesPass(a) <==> Named(a)
  {
    NamesAre(a);
    IdentifierIs(a.metric);
  }

  lemma ChoicesPassIff(a: Arguments)
    ensures ChoicesPass(a) <==> WellChosen(a)
  {
    ControllerIs(a.controller);
    SourceIs(a.incidentSource);
    if SourceOf(a.incidentSource).Ok? && a.benchmarkId.Str? { BenchmarkIs(a.incidentSource, a.benchmarkId); }
  }

  lemma PassesIff(order: SetOrder, a: Arguments)
    ensures Passes(order, a) <==> Acceptable(a)
  {
    NamesPassIff(a);
    ChoicesPassIff(a);
    StorableIff(order, a.detectionContext);
  }

  lemma NormalHolds(order: SetOrder, a: Arguments)
    requires Passes(order, a) && Acceptable(a)
    ensures Holds(Normal(order, a), a)
  {
    NamesAre(a);
    MetricIs(a.metric);
    ControllerIs(a.controller);
    SourceIs(a.incidentSource);
    TextIs(a.model);
    TextIs(a.benchmarkId);
  }

  /** A request is accepted exactly if its arguments are acceptable, and holds them in normal form. */
  lemma AcceptedIff(order: SetOrder, a: Arguments)
    ensures Construct(order, a).Ok? <==> Acceptable(a)
    ensures Acceptable(a) ==> Holds(Construct(order, a).value, a)
  {
    ConstructPasses(order, a);
    PassesIff(order, a);
    if Acceptable(a) { NormalHolds(order, a); }
  }

  /** The stored form: a JSON value under each key. The last five keys may be absent from a row
      that was stored before they existed. */
  datatype StoredRequest = StoredRequest(
    scenarioId: Json, namespace: Json, deployment: Json, metric: Json, threshold: Json, mode: Json,
    backend: Json, protocolProfile: Json, repetitions: Json, controller: Option<Json>, model: Option<Json>,
    incidentSource: Option<Json>, benchmarkId: Option<Json>, detectionContext: Option<Json>)

  /** `to_dict`. */
  function ToDict(r: Request): StoredRequest {
    StoredRequest(
      JString(r.scenarioId), JString(r.namespace), JString(r.deployment), JString(r.metric), JNumber(r.threshold),
      JString(r.mode), JString(r.backend), JString(r.protocolProfile), JInt(r.repetitions),
      Some(JString(r.controller)), Some(JString(r.model)), Some(JString(r.incidentSource)),
      Some(JString(r.benchmarkId)), Some(JsonSafe(r.detectionContext)))
  }

  function LoadedOr(j: Option<Json>, absent: Value): Value { if j.Some? then Loaded(j.value) else absent }

  /** `_request_from_dict`. */
  function FromDict(order: SetOrder, d: StoredRequest): Result<Request> {
    Construct(order, Arguments(
      Loaded(d.scenarioId), Loaded(d.namespace), Loaded(d.deployment), Loaded(d.metric), Loaded(d.threshold),
      Loaded(d.mode), Loaded(d.backend), Loaded(d.protocolProfile), Loaded(d.repetitions),
      LoadedOr(d.controller, Str("deterministic")), LoadedOr(d.model, Str("")),
      LoadedOr(d.incidentSource, Str("chaos_mesh")), LoadedOr(d.benchmarkId, Str("")),
      LoadedOr(d.detectionContext, Mapping(map[]))))
  }

  predicate IsIdentifier(s: string) { s != "" && Stripped(s) }

  /** What every accepted request is: its normalised fields are fixed by normalising again. */
  predicate Normalised(r: Request) {
    && IsIdentifier(r.scenarioId) && IsIdentifier(r.namespace) && IsIdentifier(r.deployment)
    && IsIdentifier(r.protocolProfile) && IsIdentifier(r.metric)
    && Underscored(Lower(r.metric)) == r.metric
    && r.mode in MODES && r.backend in BACKENDS
    && r.controller in {"deterministic", "autogen"} && r.incidentSource in {"chaos_mesh", "aiopslab"}
    && Stripped(r.model) && Stripped(r.benchmarkId) && (r.incidentSource == "aiopslab" ==> r.benchmarkId != "")
    && r.detectionContext.FMapping? && r.repetitions >= 1
  }

  lemma LoweredStaysStripped(s: string)
    requires Stripped(s)
    ensures Stripped(Underscored(Lower(s)))
    ensures Underscored(Lower(Underscored(Lower(s)))) == Underscored(Lower(s))
  {
    if s != "" {
      LowerKeepsSpace(s[0]);
      LowerKeepsSpace(s[|s| - 1]);
      LowerKeepsSpace(LowerChar(s[0]));
      LowerKeepsSpace(LowerChar(s[|s| - 1]));
    }
    forall i | 0 <= i < |s| ensures Underscored(Lower(Underscored(Lower(s))))[i] == Underscored(Lower(s))[i] {
      LowerKeepsSpace(s[i]);
    }
  }

  lemma IdentifierStrips(v: Value)
    ensures Identifier(v).Ok? ==> IsIdentifier(Identifier(v).value)
    ensures v.Str? && IsIdentifier(v.text) ==> Identifier(v) == Ok(v.text)
  {
    if v.Str? { StripStrips(v.text); }
  }

  lemma TextStrips(v: Value)
    ensures StrippedText(v).Ok? ==> Stripped(StrippedText(v).value)
    ensures v.Str? && Stripped(v.text) ==> StrippedText(v) == Ok(v.text)
  {
    if v.Str? { StripStrips(v.text); }
  }

  lemma ConstructNormalises(order: SetOrder, a: Arguments)
    requires Construct(order, a).Ok?
    ensures Normalised(Construct(order, a).value)
  {
    var r := Construct(order, a).value;
    IdentifierStrips(a.scenarioId);
    IdentifierStrips(a.namespace);
    IdentifierStrips(a.deployment);
    IdentifierStrips(a.protocolProfile);
    IdentifierStrips(a.metric);
    LoweredStaysStripped(Identifier(a.metric).value);
    TextStrips(a.model);
    TextStrips(a.benchmarkId);
  }

  /** The arguments that a stored request is reloaded with. */
  function StoredArguments(r: Request): Arguments {
    Arguments(
      Str(r.scenarioId), Str(r.namespace), Str(r.deployment), Str(r.metric), Number(r.threshold), Str(r.mode),
      Str(r.backend), Str(r.protocolProfile), Whole(r.repetitions), Str(r.controller), Str(r.model),
      Str(r.incidentSource), Str(r.benchmarkId), Loaded(JsonSafe(r.detectionContext)))
  }

  lemma ReconstructNormalised(order: SetOrder, r: Request)
    requires Normalised(r)
    ensures Construct(order, StoredArguments(r)) == Ok(r.(detectionContext := Listed(r.detectionContext)))
  {
    IdentifiersFixed(r);
    TextsFixed(r);
    ReloadLists(order, r.detectionContext);
  }

  lemma IdentifiersFixed(r: Request)
    requires Normalised(r)
    ensures Identifier(Str(r.scenarioId)) == Ok(r.scenarioId) && Identifier(Str(r.namespace)) == Ok(r.namespace)
    ensures Identifier(Str(r.deployment)) == Ok(r.deployment) && Identifier(Str(r.metric)) == Ok(r.metric)
    ensures Identifier(Str(r.protocolProfile)) == Ok(r.protocolProfile)
  {
    IdentifierStrips(Str(r.scenarioId));
    IdentifierStrips(Str(r.namespace));
    IdentifierStrips(Str(r.deployment));
    IdentifierStrips(Str(r.protocolProfile));
    IdentifierStrips(Str(r.metric));
  }

  lemma TextsFixed(r: Request)
    requires Normalised(r)
    ensures StrippedText(Str(r.model)) == Ok(r.model) && StrippedText(Str(r.benchmarkId)) == Ok(r.benchmarkId)
    ensures ControllerOf(Str(r.controller)) == Ok(r.controller)
    ensures SourceOf(Str(r.incidentSource)) == Ok(r.incidentSource)
  {
    TextStrips(Str(r.model));
    TextStrips(Str(r.benchmarkId));
    ControllerFixed(r.controller);
    SourceFixed(r.incidentSource);
  }

  lemma ControllerFixed(controller: string)
    requires controller in {"deterministic", "autogen"}
    ensures ControllerOf(Str(controller)) == Ok(controller)
  {
    IdentifierStrips(Str(controller));
    assert Lower("deterministic") == "deterministic" && Lower("autogen") == "autogen";
  }

  lemma SourceFixed(source: string)
    requires source in {"chaos_mesh", "aiopslab"}
    ensures SourceOf(Str(source)) == Ok(source)
  {
    IdentifierStrips(Str(source));
    assert Underscored(Lower("chaos_mesh")) == "chaos_mesh" && Underscored(Lower("aiopslab")) == "aiopslab";
  }

  /** Every accepted request reloads from its stored form, into a request that is stored the
      same; it is the original exactly when its detection context holds no set. */
  lemma RoundTrip(order: SetOrder, a: Arguments)
    requires Construct(order, a).Ok?
    ensures var r := Construct(order, a).value;
            var reloaded := FromDict(order, ToDict(r));
            && reloaded.Ok? && ToDict(reloaded.value) == ToDict(r)
            && (reloaded.value == r <==> !HasSet(r.detectionContext))
  {
    var r := Construct(order, a).value;
    ConstructNormalises(order, a);
    ReconstructNormalised(order, r);
    ListedStoresSame(r.detectionContext);
  }

  /** A row stored before the last five keys existed reloads as a deterministic run of a Chaos Mesh scenario
      without model, benchmark or context. */
  lemma OldRowsReload(order: SetOrder, a: Arguments)
    requires Construct(order, a).Ok?
    ensures var r := Construct(order, a).value;
            FromDict(order, ToDict(r).(controller := None, model := None, incidentSource := None, benchmarkId := None,
                                       detectionContext := None))
            == Ok(r.(controller := "deterministic", model := "", incidentSource := "chaos_mesh", benchmarkId := "",
                     detectionContext := FMapping(map[])))
  {
    var r := Construct(order, a).value.(
      controller := "deterministic", model := "", incidentSource := "chaos_mesh", benchmarkId := "",
      detectionContext := FMapping(map[]));
    ConstructNormalises(order, a);
    ReconstructNormalised(order, r);
    NoContext();
  }

  lemma NoContext()
    ensures Loaded(JsonSafe(FMapping(map[]))) == Mapping(map[])
    ensures Listed(FMapping(map[])) == FMapping(map[])
  {
    assert JsonSafe(FMapping(map[])).entries == map[];
  }
}

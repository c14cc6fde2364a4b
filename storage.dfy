/**
 * The two-tier save store: an in-memory map that every save writes, in
 * front of a durable store that may refuse any call, plus the manual save
 * code. The state type is left open (`S`).
 */
module Storage {
  import opened Wrappers

  const StorageKey := "st_treasure_hunt_save_v1"

  /**
   * The serialisation pipelines, left abstract: `stringify` and `parse` are
   * the JSON pair and `encodeText` / `decodeText` the Base64-over-UTF-8 text
   * pair of the save code. `None` stands for a call that throws.
   */
  datatype Codec<!S(!new)> = Codec(
    stringify: S -> Option<string>,
    parse: string -> Option<S>,
    encodeText: string -> string,
    decodeText: string -> Option<string>)

  /**
   * What the model assumes of the pipelines: parsing undoes stringifying,
   * which never yields the empty string; decoding undoes encoding; the empty
   * string does not parse, and decodes to itself.
   */
  ghost predicate WellBehaved<S(!new)>(c: Codec<S>) {
    && (forall s, j :: c.stringify(s) == Some(j) ==> j != "" && c.parse(j) == Some(s))
    && (forall j :: c.decodeText(c.encodeText(j)) == Some(j))
    && c.parse("") == None
    && c.decodeText("") == Some("")
  }

  /** What a durable `getItem` call gives back: it throws, or returns the entry if there is one. */
  datatype Read = Threw | Got(item: Option<string>)

  /** The browser's durable key-value store; each call is told by its caller whether the browser refuses it. */
  class DurableStore {
    var items: map<string, string>

    constructor(initial: map<string, string>)
      ensures items == initial
    {
      items := initial;
    }

    method SetItem(key: string, value: string, fails: bool) returns (ok: bool)
      modifies this
      ensures ok == !fails
      ensures items == if fails then old(items) else old(items)[key := value]
    {
      ok := !fails;
      if !fails {
        items := items[key := value];
      }
    }

    method GetItem(key: string, fails: bool) returns (r: Read)
      ensures r == if fails then Threw else Got(if key in items then Some(items[key]) else None)
    {
      if fails {
        r := Threw;
      } else if key in items {
        r := Got(Some(items[key]));
      } else {
        r := Got(None);
      }
    }

    method RemoveItem(key: string, fails: bool) returns (ok: bool)
      modifies this
      ensures ok == !fails
      ensures items == if fails then old(items) else old(items) - {key}
    {
      ok := !fails;
      if !fails {
        items := items - {key};
      }
    }
  }

  /** The memory tier's entry for the save key. */
  function Entry(m: map<string, string>): Option<string> {
    if StorageKey in m then Some(m[StorageKey]) else None
  }

  /** The durable read counts only when it returns a non-empty string that parses. */
  predicate DurableUsable<S(!new)>(c: Codec<S>, read: Read) {
    read.Got? && read.item.Some? && read.item.value != "" && c.parse(read.item.value).Some?
  }

  /**
   * `loadGameState`'s decision: the parsed durable value when there is one;
   * otherwise a non-empty memory entry, parsed (a parse failure there is
   * `null`); otherwise `null`.
   */
  function LoadFrom<S(!new)>(c: Codec<S>, read: Read, mem: Option<string>): (r: Option<S>)
    ensures DurableUsable(c, read) ==> r == c.parse(read.item.value)
    ensures !DurableUsable(c, read) && mem.Some? && mem.value != "" ==> r == c.parse(mem.value)
    ensures !DurableUsable(c, read) && (mem.None? || mem.value == "") ==> r.None?
  {
    if read.Got? && read.item.Some? && read.item.value != "" && c.parse(read.item.value).Some? then
      c.parse(read.item.value)
    else if mem.Some? && mem.value != "" then
      c.parse(mem.value)
    else
      None
  }

  /** A save that reached the memory tier is what a load finds when the durable store refuses every call. */
  lemma SaveThenLoadWithDurableDenied<S(!new)>(c: Codec<S>, s: S, m: map<string, string>)
    requires WellBehaved(c) && c.stringify(s).Some?
    ensures LoadFrom(c, Threw, Entry(m[StorageKey := c.stringify(s).value])) == Some(s)
  {
  }

  /** With a working durable store, a save that reached it is what a load returns. */
  lemma SaveThenLoadWithDurable<S(!new)>(c: Codec<S>, s: S, mem: Option<string>)
    requires WellBehaved(c) && c.stringify(s).Some?
    ensures LoadFrom(c, Got(Some(c.stringify(s).value)), mem) == Some(s)
  {
  }

  /**
   * A durable write that failed while durable reads still succeed (a full
   * store) leaves the older durable entry in front of the fresh memory one:
   * the load returns the older state.
   */
  lemma StaleDurableEntryWins<S(!new)>(c: Codec<S>, older: S, newer: S)
    requires WellBehaved(c) && c.stringify(older).Some? && c.stringify(newer).Some?
    ensures LoadFrom(c, Got(Some(c.stringify(older).value)), Some(c.stringify(newer).value)) == Some(older)
  {
  }

  /** After a clear the memory tier is empty, so with the durable store refused a load is `null`. */
  lemma ClearThenLoadWithDurableDenied<S(!new)>(c: Codec<S>, m: map<string, string>)
    ensures LoadFrom(c, Threw, Entry(m - {StorageKey})) == None
  {
  }

  /** The inputs `requestStorageAccess` depends on; `None` for `hasAccess` is a rejected promise. */
  datatype AccessEnv = AccessEnv(hasDocument: bool, apiPresent: bool, hasAccess: Option<bool>, requestResolves: bool)

  /** `requestStorageAccess`: whether durable storage may be used. */
  function RequestStorageAccess(env: AccessEnv): (granted: bool)
    ensures !env.hasDocument ==> !granted
    ensures env.hasDocument && !env.apiPresent ==> granted
    ensures env.hasDocument && env.apiPresent ==>
      (granted <==> env.hasAccess == Some(true) || (env.hasAccess == Some(false) && env.requestResolves))
  {
    if !env.hasDocument then false
    else if !env.apiPresent then true
    else match env.hasAccess
      case None => false
      case Some(true) => true
      case Some(false) => env.requestResolves
  }

  /** `generateSaveCode`: the encoded JSON, or `""` when stringifying throws. */
  function GenerateSaveCode<S(!new)>(c: Codec<S>, s: S): (code: string)
    ensures c.stringify(s).None? ==> code == ""
    ensures c.stringify(s).Some? ==> code == c.encodeText(c.stringify(s).value)
  {
    match c.stringify(s)
    case None => ""
    case Some(json) => c.encodeText(json)
  }

  /** `parseSaveCode`: the decoded state, or `null` when any step throws. */
  function ParseSaveCode<S(!new)>(c: Codec<S>, code: string): (r: Option<S>)
    ensures c.decodeText(code).None? ==> r.None?
    ensures c.decodeText(code).Some? ==> r == c.parse(c.decodeText(code).value)
  {
    match c.decodeText(code)
    case None => None
    case Some(json) => c.parse(json)
  }

  /** Parsing a generated code gives the state back; a failed generation gives `""`, which parses to `null`. */
  lemma SaveCodeRoundTrip<S(!new)>(c: Codec<S>, s: S)
    requires WellBehaved(c)
    ensures ParseSaveCode(c, GenerateSaveCode(c, s)) == if c.stringify(s).Some? then Some(s) else None
  {
  }

  /** The adapter: the module-level memory map and the durable store behind it. */
  class GameStorage<S(!new)> {
    const codec: Codec<S>
    const durable: DurableStore
    var memory: map<string, string>

    constructor(codec: Codec<S>, durable: DurableStore)
      ensures this.codec == codec && this.durable == durable && memory == map[]
    {
      this.codec := codec;
      this.durable := durable;
      memory := map[];
    }

    /**
     * `saveGameState`: the memory tier is always written, the durable write
     * may fail silently. Only a throwing stringify escapes (`thrown`), before
     * anything is written.
     */
    method Save(state: S, setFails: bool) returns (thrown: bool)
      modifies this, durable
      ensures thrown <==> codec.stringify(state).None?
      ensures thrown ==> memory == old(memory) && durable.items == old(durable.items)
      ensures !thrown ==> memory == old(memory)[StorageKey := codec.stringify(state).value]
      ensures !thrown ==>
        durable.items == if setFails then old(durable.items) else old(durable.items)[StorageKey := codec.stringify(state).value]
    {
      var json := codec.stringify(state);
      if json.None? {
        return true;
      }
      memory := memory[StorageKey := json.value];
      var _ := durable.SetItem(StorageKey, json.value, setFails);
      thrown := false;
    }

    /** `loadGameState`, with `getFails` the durable store's verdict on the read. */
    method Load(getFails: bool) returns (r: Option<S>)
      ensures r == LoadFrom(codec, if getFails then Threw else Got(Entry(durable.items)), Entry(memory))
    {
      var read := durable.GetItem(StorageKey, getFails);
      if read.Got? && read.item.Some? && read.item.value != "" {
        var parsed := codec.parse(read.item.value);
        if parsed.Some? {
          return parsed;
        }
      }
      var memData := Entry(memory);
      if memData.Some? && memData.value != "" {
        return codec.parse(memData.value);
      }
      return None;
    }

    /** `clearGameState`: the memory entry always goes first; a durable failure is swallowed. */
    method Clear(removeFails: bool)
      modifies this, durable
      ensures memory == old(memory) - {StorageKey}
      ensures durable.items == if removeFails then old(durable.items) else old(durable.items) - {StorageKey}
    {
      memory := memory - {StorageKey};
      var _ := durable.RemoveItem(StorageKey, removeFails);
    }
  }

  /** Save, then load, with the durable store refusing every call: the memory tier returns the state. */
  method SaveLoadDenied<S(!new)>(store: GameStorage<S>, s: S) returns (r: Option<S>)
    requires WellBehaved(store.codec) && store.codec.stringify(s).Some?
    modifies store, store.durable
    ensures r == Some(s)
  {
    var _ := store.Save(s, true);
    r := store.Load(true);
    SaveThenLoadWithDurableDenied(store.codec, s, old(store.memory));
  }

  /** Clear, then load, with the durable store refusing every call: nothing is found. */
  method ClearLoadDenied<S(!new)>(store: GameStorage<S>) returns (r: Option<S>)
    modifies store, store.durable
    ensures r.None?
  {
    store.Clear(true);
    r := store.Load(true);
  }
}

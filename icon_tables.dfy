/**
 * The lookup tables built from the serialized database, the ordered
 * first-match algorithm and the process-wide memo cache
 * (src/classes/icon-tables.ts).
 */
module Tables {
  import opened Wrappers
  import opened Icons

  /** The pattern field of an icon that a lookup tests. */
  datatype PatternField = MatchPattern | InterpreterPattern | ScopePattern | LangPattern | SignaturePattern

  /** The pattern `icon` carries in `field`; only `match` is always present. */
  function PatternOf(icon: Icon, field: PatternField): Option<Pattern> {
    match field
    case MatchPattern => Some(icon.pattern)
    case InterpreterPattern => icon.interpreter
    case ScopePattern => icon.scope
    case LangPattern => icon.lang
    case SignaturePattern => icon.signature
  }

  /** `icon.<field>?.test(key)`: a null pattern accepts nothing. */
  predicate Matches(icon: Icon, field: PatternField, key: string) {
    PatternOf(icon, field).Some? && Accepts(PatternOf(icon, field).value, key)
  }

  /** The position of the first icon of `icons` whose `field` pattern accepts `key`, or |icons| if none does. */
  function FirstMatchIndex(icons: seq<Icon>, field: PatternField, key: string): (k: nat)
    ensures k <= |icons|
    ensures k < |icons| ==> Matches(icons[k], field, key)
    ensures forall j :: 0 <= j < k ==> !Matches(icons[j], field, key)
    decreases |icons|
  {
    if |icons| == 0 then 0
    else if Matches(icons[0], field, key) then 0
    else 1 + FirstMatchIndex(icons[1..], field, key)
  }

  /** The first icon of `icons`, in order, whose `field` pattern accepts `key`. */
  function FirstMatch(icons: seq<Icon>, field: PatternField, key: string): (r: Option<Icon>)
    ensures r.None? <==> forall i :: 0 <= i < |icons| ==> !Matches(icons[i], field, key)
    ensures r.Some? ==> r.value in icons && Matches(r.value, field, key)
  {
    var k := FirstMatchIndex(icons, field, key);
    if k < |icons| then Some(icons[k]) else None
  }

  /**
   * First-match precedence: when the icon at position i accepts the key, the
   * winner is an accepting icon at position i or earlier, and every icon
   * before the winner rejects the key. Priority plays no part.
   */
  lemma FirstMatchPrecedence(icons: seq<Icon>, field: PatternField, key: string, i: nat)
    requires i < |icons| && Matches(icons[i], field, key)
    ensures exists w :: 0 <= w <= i && FirstMatch(icons, field, key) == Some(icons[w])
                        && forall j :: 0 <= j < w ==> !Matches(icons[j], field, key)
  {
    var w := FirstMatchIndex(icons, field, key);
    assert w <= i;
  }

  /** The linear scan of a lookup: index order, early exit on the first accepting icon. */
  method Scan(icons: seq<Icon>, field: PatternField, key: string) returns (r: Option<Icon>)
    ensures r == FirstMatch(icons, field, key)
  {
    for i := 0 to |icons|
      invariant forall j :: 0 <= j < i ==> !Matches(icons[j], field, key)
    {
      if Matches(icons[i], field, key) {
        assert FirstMatchIndex(icons, field, key) == i;
        return Some(icons[i]);
      }
    }
    return None;
  }

  /** One record of the serialized database: the raw tuples and the five offset lists. */
  datatype RawTable = RawTable(icons: seq<RawIcon>, indexes: seq<seq<nat>>)

  /** The database: directory rules first, file rules second. */
  datatype IconDb = IconDb(directories: RawTable, files: RawTable)

  /**
   * The offset lists the table reads are present and in range. The source
   * does no range check (an offset out of range yields `undefined`), so a
   * database that breaks this is outside the model.
   */
  predicate WellFormedTable(t: RawTable) {
    |t.indexes| >= 5 &&
    forall k, j :: 0 <= k < 5 && 0 <= j < |t.indexes[k]| ==> t.indexes[k][j] < |t.icons|
  }

  predicate WellFormedDb(db: IconDb) {
    WellFormedTable(db.directories) && WellFormedTable(db.files)
  }

  /** The icons of one record, by name order and by each secondary dimension. */
  datatype IconTable = IconTable(
    byName: seq<Icon>,
    byInterpreter: seq<Icon>,
    byLanguage: seq<Icon>,
    byPath: seq<Icon>,
    byScope: seq<Icon>,
    bySignature: seq<Icon>)

  /**
   * `column` orders references into `pool`: it has one element per offset,
   * element j is `pool[offsets[j]]`, and that icon's index is the offset.
   */
  ghost predicate DereferencedFrom(column: seq<Icon>, pool: seq<Icon>, offsets: seq<nat>) {
    && |column| == |offsets|
    && forall j :: 0 <= j < |offsets| ==> offsets[j] < |pool| && column[j] == pool[offsets[j]] && column[j].index == offsets[j]
  }

  /** `icons[offset]` for every offset of the list. */
  function Dereference(icons: seq<Icon>, offsets: seq<nat>): (r: seq<Icon>)
    requires forall j :: 0 <= j < |offsets| ==> offsets[j] < |icons|
    ensures |r| == |offsets| && forall j :: 0 <= j < |offsets| ==> r[j] == icons[offsets[j]]
  {
    seq(|offsets|, j requires 0 <= j < |offsets| => icons[offsets[j]])
  }

  /**
   * `read`: each raw tuple becomes an Icon carrying its position, and each
   * dimension sequence orders references into that same list, following
   * offset lists 0 to 4 (interpreter, language, path, scope, signature).
   */
  function Read(t: RawTable): (r: IconTable)
    requires WellFormedTable(t)
    ensures |r.byName| == |t.icons|
    ensures forall i :: 0 <= i < |t.icons| ==> r.byName[i] == FromRaw(i, t.icons[i])
    ensures DereferencedFrom(r.byInterpreter, r.byName, t.indexes[0])
    ensures DereferencedFrom(r.byLanguage, r.byName, t.indexes[1])
    ensures DereferencedFrom(r.byPath, r.byName, t.indexes[2])
    ensures DereferencedFrom(r.byScope, r.byName, t.indexes[3])
    ensures DereferencedFrom(r.bySignature, r.byName, t.indexes[4])
  {
    var icons := seq(|t.icons|, i requires 0 <= i < |t.icons| => FromRaw(i, t.icons[i]));
    IconTable(icons,
              Column(icons, t, 0),
              Column(icons, t, 1),
              Column(icons, t, 2),
              Column(icons, t, 3),
              Column(icons, t, 4))
  }

  /** Offset list k of `t`, dereferenced into `icons`, the icons built from `t` in order. */
  function Column(icons: seq<Icon>, t: RawTable, k: nat): (r: seq<Icon>)
    requires WellFormedTable(t) && k < 5
    requires |icons| == |t.icons| && forall i :: 0 <= i < |icons| ==> icons[i].index == i
    ensures DereferencedFrom(r, icons, t.indexes[k])
  {
    Dereference(icons, t.indexes[k])
  }

  /** The eight sub-maps of the cache. */
  datatype Slot = DirectoryName | DirectoryPath | FileName | FilePath | Interpreter | Scope | Language | Signature

  /** The pattern field whose acceptance a slot's entries record; name and path slots both record `match`. */
  function SlotField(slot: Slot): PatternField {
    match slot
    case DirectoryName | DirectoryPath | FileName | FilePath => MatchPattern
    case Interpreter => InterpreterPattern
    case Scope => ScopePattern
    case Language => LangPattern
    case Signature => SignaturePattern
  }

  /** Every entry of `entries` maps its key to an icon whose `field` pattern accepts that key. */
  ghost predicate SlotSound(entries: map<string, Icon>, field: PatternField) {
    forall key :: key in entries ==> Matches(entries[key], field, key)
  }

  /**
   * The memo is transparent for `icons`: every entry is the first icon of
   * `icons` whose `field` pattern accepts its key, so answering from it is
   * the same as scanning.
   */
  ghost predicate SlotTransparent(entries: map<string, Icon>, icons: seq<Icon>, field: PatternField) {
    forall key :: key in entries ==> FirstMatch(icons, field, key) == Some(entries[key])
  }

  /**
   * The process-wide memo cache. Entries are added on a successful scan and
   * never removed; a miss is never recorded.
   */
  class Cache {
    var directoryName: map<string, Icon>
    var directoryPath: map<string, Icon>
    var fileName: map<string, Icon>
    var filePath: map<string, Icon>
    var interpreter: map<string, Icon>
    var scope: map<string, Icon>
    var language: map<string, Icon>
    var signature: map<string, Icon>

    /** The cache as the module creates it: every slot empty. */
    constructor ()
      ensures forall s :: Get(s) == map[]
      ensures Sound()
    {
      directoryName, directoryPath, fileName, filePath := map[], map[], map[], map[];
      interpreter, scope, language, signature := map[], map[], map[], map[];
    }

    function Get(slot: Slot): map<string, Icon>
      reads this
    {
      match slot
      case DirectoryName => directoryName
      case DirectoryPath => directoryPath
      case FileName => fileName
      case FilePath => filePath
      case Interpreter => interpreter
      case Scope => scope
      case Language => language
      case Signature => signature
    }

    /** The cache invariant: each entry records a key its icon's pattern for that slot accepts. */
    ghost predicate Sound()
      reads this
    {
      forall slot :: SlotSound(Get(slot), SlotField(slot))
    }

    /**
     * What a lookup through `slot` over `icons` answers for `key` in the
     * current state: the cached icon if there is one, else the first match.
     */
    ghost function Resolve(slot: Slot, icons: seq<Icon>, key: string): Option<Icon>
      reads this
    {
      if key in Get(slot) then Some(Get(slot)[key]) else FirstMatch(icons, SlotField(slot), key)
    }

    /**
     * Since the previous state, only `slot` may have changed, and only by
     * gaining `key`: no entry is removed or replaced.
     */
    twostate predicate GrowsAtMost(slot: Slot, key: string)
      reads this
    {
      && (forall s :: s != slot ==> Get(s) == old(Get(s)))
      && old(Get(slot)).Items <= Get(slot).Items
      && Get(slot).Keys <= old(Get(slot)).Keys + {key}
    }

    /** `cachedIcons[key] = icon` on the chosen slot. */
    method Put(slot: Slot, key: string, icon: Icon)
      requires Sound() && Matches(icon, SlotField(slot), key)
      modifies this
      ensures Sound()
      ensures Get(slot) == old(Get(slot))[key := icon]
      ensures forall s :: s != slot ==> Get(s) == old(Get(s))
    {
      match slot
      case DirectoryName => directoryName := directoryName[key := icon];
      case DirectoryPath => directoryPath := directoryPath[key := icon];
      case FileName => fileName := fileName[key := icon];
      case FilePath => filePath := filePath[key := icon];
      case Interpreter => interpreter := interpreter[key := icon];
      case Scope => scope := scope[key := icon];
      case Language => language := language[key := icon];
      case Signature => signature := signature[key := icon];
    }
  }

  /** The two tables built from the database, with the cache they share with every other instance. */
  class IconTables {
    const directoryIcons: IconTable
    const fileIcons: IconTable
    const cache: Cache
    var binaryIcon: Option<Icon>
    var executableIcon: Option<Icon>

    ghost predicate Valid()
      reads this, cache
    {
      cache.Sound()
    }

    /**
     * Builds both tables, then resolves the binary icon through the scope
     * "source.asm" and the executable icon through the interpreter "bash",
     * which may add those two keys to the cache.
     */
    constructor (data: IconDb, shared: Cache)
      requires WellFormedDb(data) && shared.Sound()
      modifies shared
      ensures cache == shared && Valid()
      ensures directoryIcons == Read(data.directories) && fileIcons == Read(data.files)
      ensures binaryIcon == old(shared.Resolve(Scope, Read(data.files).byScope, "source.asm"))
      ensures executableIcon == old(shared.Resolve(Interpreter, Read(data.files).byInterpreter, "bash"))
      ensures forall s :: s != Scope && s != Interpreter ==> shared.Get(s) == old(shared.Get(s))
      ensures shared.Get(Scope) == if "source.asm" !in old(shared.Get(Scope)) && binaryIcon.Some?
                                   then old(shared.Get(Scope))["source.asm" := binaryIcon.value]
                                   else old(shared.Get(Scope))
      ensures shared.Get(Interpreter) == if "bash" !in old(shared.Get(Interpreter)) && executableIcon.Some?
                                         then old(shared.Get(Interpreter))["bash" := executableIcon.value]
                                         else old(shared.Get(Interpreter))
    {
      directoryIcons := Read(data.directories);
      fileIcons := Read(data.files);
      cache := shared;
      new;
      binaryIcon := MatchScope("source.asm");
      executableIcon := MatchInterpreter("bash");
    }

    /**
     * The algorithm every lookup shares: answer from `slot` when it holds
     * `key`; otherwise scan `icons` and record the winner, if any, in `slot`.
     */
    method Lookup(slot: Slot, icons: seq<Icon>, key: string) returns (r: Option<Icon>)
      requires Valid()
      modifies cache
      ensures Valid()
      ensures r == old(cache.Resolve(slot, icons, key))
      ensures cache.Resolve(slot, icons, key) == r
      ensures cache.GrowsAtMost(slot, key)
      ensures old(SlotTransparent(cache.Get(slot), icons, SlotField(slot))) ==>
                r == FirstMatch(icons, SlotField(slot), key) && SlotTransparent(cache.Get(slot), icons, SlotField(slot))
      ensures key in old(cache.Get(slot)) || r.None? ==> forall s :: cache.Get(s) == old(cache.Get(s))
      ensures key !in old(cache.Get(slot)) && r.Some? ==>
                cache.Get(slot) == old(cache.Get(slot))[key := r.value]
                && forall s :: s != slot ==> cache.Get(s) == old(cache.Get(s))
    {
      var cached := cache.Get(slot);
      if key in cached {
        return Some(cached[key]);
      }
      r := Scan(icons, SlotField(slot), key);
      if r.Some? {
        cache.Put(slot, key, r.value);
      }
    }

    /** The name table, and the name slot, that `directory` selects. */
    function NameTable(directory: bool): IconTable
      reads this
    {
      if directory then directoryIcons else fileIcons
    }

    function NameSlot(directory: bool): Slot {
      if directory then DirectoryName else FileName
    }

    /** What `matchName(name, directory)` answers in the current state. */
    ghost function NameLookup(name: string, directory: bool): Option<Icon>
      reads this, cache
    {
      cache.Resolve(NameSlot(directory), NameTable(directory).byName, name)
    }

    /** The name slot selected by `directory` holds only what a scan of `byName` would find. */
    ghost predicate NameTransparent(directory: bool)
      reads this, cache
    {
      SlotTransparent(cache.Get(NameSlot(directory)), NameTable(directory).byName, MatchPattern)
    }

    /** Matches a basename against `byName` of the directory or file table. */
    method MatchName(name: string, directory: bool) returns (r: Option<Icon>)
      requires Valid()
      modifies cache
      ensures Valid()
      ensures name in old(cache.Get(NameSlot(directory))) ==> r == Some(old(cache.Get(NameSlot(directory)))[name])
      ensures name !in old(cache.Get(NameSlot(directory))) ==> r == FirstMatch(NameTable(directory).byName, MatchPattern, name)
      ensures r == old(NameLookup(name, directory)) && NameLookup(name, directory) == r
      ensures old(NameTransparent(directory)) ==>
                r == FirstMatch(NameTable(directory).byName, MatchPattern, name) && NameTransparent(directory)
      ensures r.Some? ==> name in cache.Get(NameSlot(directory)) && cache.Get(NameSlot(directory))[name] == r.value
      ensures name in old(cache.Get(NameSlot(directory))) || r.None? ==> forall s :: cache.Get(s) == old(cache.Get(s))
      ensures name !in old(cache.Get(NameSlot(directory))) && r.Some? ==>
                cache.Get(NameSlot(directory)) == old(cache.Get(NameSlot(directory)))[name := r.value]
                && forall s :: s != NameSlot(directory) ==> cache.Get(s) == old(cache.Get(s))
    {
      r := Lookup(NameSlot(directory), NameTable(directory).byName, name);
    }

    /**
     * Matches a full path against `byPath`. As written, it reads and writes
     * the NAME slot of the cache, so a path already resolved as a name is
     * answered from that entry, and the path slots are never touched.
     */
    method MatchPath(path: string, directory: bool) returns (r: Option<Icon>)
      requires Valid()
      modifies cache
      ensures Valid()
      ensures path in old(cache.Get(NameSlot(directory))) ==> r == Some(old(cache.Get(NameSlot(directory)))[path])
      ensures path !in old(cache.Get(NameSlot(directory))) ==> r == FirstMatch(NameTable(directory).byPath, MatchPattern, path)
      ensures cache.Get(DirectoryPath) == old(cache.Get(DirectoryPath)) && cache.Get(FilePath) == old(cache.Get(FilePath))
      ensures path in old(cache.Get(NameSlot(directory))) || r.None? ==> forall s :: cache.Get(s) == old(cache.Get(s))
      ensures path !in old(cache.Get(NameSlot(directory))) && r.Some? ==>
                cache.Get(NameSlot(directory)) == old(cache.Get(NameSlot(directory)))[path := r.value]
                && forall s :: s != NameSlot(directory) ==> cache.Get(s) == old(cache.Get(s))
    {
      r := Lookup(NameSlot(directory), NameTable(directory).byPath, path);
    }

    function PathSlot(directory: bool): Slot {
      if directory then DirectoryPath else FilePath
    }

    /**
     * `matchPath` as its cache declaration evidently intends: the same scan
     * of `byPath`, memoised in the PATH slot, so that a path query never
     * changes what a later name query answers.
     */
    method MatchPathOwnSlot(path: string, directory: bool) returns (r: Option<Icon>)
      requires Valid()
      modifies cache
      ensures Valid()
      ensures r == old(cache.Resolve(PathSlot(directory), NameTable(directory).byPath, path))
      ensures path !in old(cache.Get(PathSlot(directory))) ==> r == FirstMatch(NameTable(directory).byPath, MatchPattern, path)
      ensures cache.Resolve(PathSlot(directory), NameTable(directory).byPath, path) == r
      ensures forall n, d :: NameLookup(n, d) == old(NameLookup(n, d))
      ensures forall d :: old(NameTransparent(d)) ==> NameTransparent(d)
      ensures cache.GrowsAtMost(PathSlot(directory), path)
      ensures r.Some? ==> path in cache.Get(PathSlot(directory)) && cache.Get(PathSlot(directory))[path] == r.value
    {
      r := Lookup(PathSlot(directory), NameTable(directory).byPath, path);
    }

    /** Repeated name lookups with the same arguments give the same answer. */
    method MatchNameTwice(name: string, directory: bool) returns (first: Option<Icon>, second: Option<Icon>)
      requires Valid()
      modifies cache
      ensures Valid()
      ensures first == second == old(NameLookup(name, directory))
    {
      first := MatchName(name, directory);
      second := MatchName(name, directory);
    }

    /** Matches a language name or alias against the `lang` patterns of `fileIcons.byLanguage`. */
    method MatchLanguage(name: string) returns (r: Option<Icon>)
      requires Valid()
      modifies cache
      ensures Valid()
      ensures r == old(cache.Resolve(Language, fileIcons.byLanguage, name))
      ensures name !in old(cache.Get(Language)) ==> r == FirstMatch(fileIcons.byLanguage, LangPattern, name)
      ensures r.Some? ==> r.value.lang.Some? && Accepts(r.value.lang.value, name)
      ensures forall s :: s != Language ==> cache.Get(s) == old(cache.Get(s))
      ensures cache.Get(Language) == if name !in old(cache.Get(Language)) && r.Some?
                                     then old(cache.Get(Language))[name := r.value] else old(cache.Get(Language))
    {
      r := Lookup(Language, fileIcons.byLanguage, name);
    }

    /** Matches a grammar scope against the `scope` patterns of `fileIcons.byScope`. */
    method MatchScope(name: string) returns (r: Option<Icon>)
      requires Valid()
      modifies cache
      ensures Valid()
      ensures r == old(cache.Resolve(Scope, fileIcons.byScope, name))
      ensures name !in old(cache.Get(Scope)) ==> r == FirstMatch(fileIcons.byScope, ScopePattern, name)
      ensures r.Some? ==> r.value.scope.Some? && Accepts(r.value.scope.value, name)
      ensures forall s :: s != Scope ==> cache.Get(s) == old(cache.Get(s))
      ensures cache.Get(Scope) == if name !in old(cache.Get(Scope)) && r.Some?
                                  then old(cache.Get(Scope))[name := r.value] else old(cache.Get(Scope))
    {
      r := Lookup(Scope, fileIcons.byScope, name);
    }

    /** Matches an interpreter name against the `interpreter` patterns of `fileIcons.byInterpreter`. */
    method MatchInterpreter(name: string) returns (r: Option<Icon>)
      requires Valid()
      modifies cache
      ensures Valid()
      ensures r == old(cache.Resolve(Interpreter, fileIcons.byInterpreter, name))
      ensures name !in old(cache.Get(Interpreter)) ==> r == FirstMatch(fileIcons.byInterpreter, InterpreterPattern, name)
      ensures r.Some? ==> r.value.interpreter.Some? && Accepts(r.value.interpreter.value, name)
      ensures forall s :: s != Interpreter ==> cache.Get(s) == old(cache.Get(s))
      ensures cache.Get(Interpreter) == if name !in old(cache.Get(Interpreter)) && r.Some?
                                        then old(cache.Get(Interpreter))[name := r.value] else old(cache.Get(Interpreter))
    {
      r := Lookup(Interpreter, fileIcons.byInterpreter, name);
    }
  }
}

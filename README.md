# Icon-matching engine of atom-file-icons, in Dafny

This project models the part of atom-file-icons that picks a display-icon CSS class for a file or
directory name. It proves properties of that model.

- **Icons** (`icon.dfy`, src/classes/icon.ts): an icon rule is built from a raw database tuple.
  Missing optional slots get defaults. The rule formats its classes for a colour-mode index, either
  as one string (`getClass`) or as a list (`getClassList`).
- **Tables** (`icon_tables.dfy`, src/classes/icon-tables.ts): `read` turns a database record into an
  `IconTable`. The icons stay in serialized order (`byName`), and five dimension sequences hold
  references into that same list.
  - `Cache` is the process-wide memo: eight slots of `map<string, Icon>`. Every `IconTables`
    instance shares it.
  - The five lookups share one algorithm. They answer from the cache slot when it holds the key.
    Otherwise they scan in order, the first accepting rule wins, and only a hit is recorded.
  - The cache invariant `Cache.Sound` says that every entry maps its key to an icon whose pattern
    for that slot accepts the key. Every lookup preserves it.
- **FileIcons** (`file_icons.dfy`, src/file-icons.ts): colour-mode names map to slot indexes.
  `getIconClass` and `getIconClassList` call `matchName` and apply their option defaults. The facade
  always applies the fallback/`skipFallback` policy.
- **Scenarios** (`scenarios.dfy`): a one-rule JavaScript table, and the input behind the finding
  below, worked through the model's contracts.

A compiled regular expression is modelled by what it decides. `Pattern.test` is an arbitrary total
predicate on strings. Every lemma therefore holds whatever patterns the database carries.

## Model

| member | source | states |
|---|---|---|
| `Icons.FromRaw` | src/classes/icon.ts:39-48 | the index and the icon, color and match slots are stored as given; a missing or zero priority becomes 1, otherwise it is kept; matchPath is true only when the slot is true; the four optional patterns are the tuple's or null |
| `Icons.GetClass` | src/classes/icon.ts:56-67 | with no mode, or a mode whose colour slot is missing or empty, the result is the icon class alone; otherwise it is the icon class, one space, and that colour class |
| `Icons.GetClassList` | src/classes/icon.ts:75-87 | one or two tokens; the first is always the icon class; there is a second exactly when the mode's colour slot is non-empty, and it is that colour class |
| `Icons.ClassListJoinsToClass` | src/classes/icon.ts:56-87 | for every icon and mode, the class list joined with one space equals the class string |
| `Tables.FirstMatchIndex` | src/classes/icon-tables.ts:99-105 | the position of the first icon whose pattern accepts the key: every earlier icon rejects it, the icon there accepts it, and it is the length when none accepts |
| `Tables.FirstMatch` | src/classes/icon-tables.ts:99-107 | null exactly when no icon in the sequence accepts the key; otherwise an icon of the sequence whose pattern accepts the key |
| `Tables.FirstMatchPrecedence` | src/classes/icon-tables.ts:99-105 | if the icon at position i accepts, the winner is at position i or earlier and every icon before it rejects the key (order decides, priority plays no part) |
| `Tables.Scan` | src/classes/icon-tables.ts:99-107 | the index-ordered loop with early return yields exactly `FirstMatch` |
| `Tables.Read` | src/classes/icon-tables.ts:55-73 | `byName[i]` is the icon built from raw tuple i with index i; dimension list k has the length of offset list k, and its element j is `byName[offset]` and carries that offset as its index |
| `Tables.Cache.constructor` | src/classes/icon-tables.ts:15-24 | the module cache starts with all eight slots empty, which satisfies the cache invariant |
| `Tables.Cache.Put` | src/classes/icon-tables.ts:102 | a write adds key → icon to the chosen slot, leaves every other slot as it was, and keeps the invariant when the icon accepts the key |
| `Tables.IconTables.constructor` | src/classes/icon-tables.ts:75-78 | the directory and file tables are `Read` of the two records; `binaryIcon` is what the scope lookup of "source.asm" answered and `executableIcon` is what the interpreter lookup of "bash" answered; the scope slot gains "source.asm" → `binaryIcon` and the interpreter slot gains "bash" → `executableIcon` only when the key was absent and a rule matched, and every other slot is unchanged |
| `Tables.IconTables.Lookup` | src/classes/icon-tables.ts:95-107 | a cached key returns the stored icon and changes nothing; otherwise the result is the first match; only a hit is added to the slot, as key → result; a miss changes nothing; the slot only grows; a repeat lookup answers the same; a slot holding only first matches over the scanned sequence keeps that property and then the answer is the first match |
| `Tables.IconTables.MatchName` | src/classes/icon-tables.ts:87-108 | on a cache miss, the first icon of the directory or file `byName` (chosen by the flag) whose `match` accepts the name, or null; on a hit, the stored icon; a hit from the scan becomes exactly one new entry in the chosen name slot; a miss changes no slot; a repeat call answers the same; while the name slot holds only first matches over `byName`, the answer is the first match and the slot keeps that property |
| `Tables.IconTables.MatchNameTwice` | src/classes/icon-tables.ts:95-102 | two `matchName` calls with the same arguments return the same icon, namely what the first call's state resolved it to |
| `Tables.IconTables.MatchPath` | src/classes/icon-tables.ts:116-135 | scans `byPath` but reads and writes the directoryName/fileName slot: a key already resolved by `matchName` is answered from that entry, and the directoryPath/filePath slots never change |
| `Tables.IconTables.MatchPathOwnSlot` | src/classes/icon-tables.ts:116-135 | the same scan memoised in the path slot: a result is recorded there under the path; the cache only grows, in that path slot, by that path; no name lookup's answer changes, and a name slot holding only first matches over `byName` keeps that property |
| `Tables.IconTables.MatchLanguage` | src/classes/icon-tables.ts:145-159 | the cached or first `fileIcons.byLanguage` icon whose `lang` is non-null and accepts the name; a hit is the only change, to the language slot |
| `Tables.IconTables.MatchScope` | src/classes/icon-tables.ts:167-181 | the cached or first `fileIcons.byScope` icon whose `scope` is non-null and accepts the name; a hit is the only change, to the scope slot |
| `Tables.IconTables.MatchInterpreter` | src/classes/icon-tables.ts:190-204 | the cached or first `fileIcons.byInterpreter` icon whose `interpreter` is non-null and accepts the name; a hit is the only change, to the interpreter slot |
| `FileIcons.ColorModeIndex` | src/file-icons.ts:30-42 | "dark" gives 1, "mono" gives null, and "light", an omitted mode or any other value gives 0, each as an if-and-only-if |
| `FileIcons.ClassSettings` | src/file-icons.ts:56-62 | omitted options act as light, not a directory, fallback on; the directory and skip flags are set only when given as true; only "mono" removes the colour slot, only "dark" selects slot 1, and an omitted `colorMode` field, "light" or any other value selects slot 0 |
| `FileIcons.SettingsAgree` | src/file-icons.ts:89-92 | the list variant, which has no field defaults, reads every options value as the string variant does, and its omitted options equal the string variant's default object |
| `FileIcons.ClassFor` | src/file-icons.ts:64-80 | null exactly when nothing matched and skipFallback is set; an unmatched directory gives "icon-file-directory" and an unmatched file gives "icon-file-text"; a match gives the icon's class string for the mode |
| `FileIcons.ClassListFor` | src/file-icons.ts:93-108 | the same branches as lists: null, ["icon-file-directory"], ["icon-file-text"], or the icon's class list |
| `FileIcons.ListJoinsToClass` | src/file-icons.ts:64-108 | for the same match and settings, the list is null exactly when the string is, and otherwise joined with one space it equals the string |
| `FileIcons.MonoHasNoColor` | src/file-icons.ts:35-36 | with colour mode "mono" a matched icon yields its icon class alone, as a string and as a list |
| `FileIcons.GetIconClass` | src/file-icons.ts:56-81 | the result is `ClassFor` of what `matchName` resolves the name to under the defaulted options; the name's resolution is unchanged afterwards; a matched name is recorded in its name slot; the cache only grows, in that name slot, by that name |
| `FileIcons.GetIconClassList` | src/file-icons.ts:89-109 | the result is `ClassListFor` of what `matchName` resolves the name to under the list variant's options; same cache behaviour |
| `FileIcons.ClassAndListAgree` | src/file-icons.ts:56-109 | calling both variants in turn with the same name and options on the shared cache gives results where one is null exactly when the other is, and the list joined with one space equals the string |
| `Scenarios.JsColorScenario` | src/file-icons.ts:56-81 | with one file rule `js-icon` matching `.js`, "app.js" gives "js-icon js-light" by default and "js-icon js-dark" in dark mode |
| `Scenarios.JsFallbackScenario` | src/file-icons.ts:64-76 | on the same table, "app.txt" gives "icon-file-text", the directory "src" gives "icon-file-directory", and with skipFallback "app.txt" gives null |
| `Scenarios.PathQueryShadowsName` | src/classes/icon-tables.ts:117-129 | as written, `matchPath("a")` followed by `matchName("a")` returns the path-table rule, which differs from the first name rule that accepts "a" |
| `Scenarios.PathQueryKeepsName` | src/classes/icon-tables.ts:116-135 | with the path slot in use, the same two queries return the path rule and the first name rule respectively |

## Left out

- Regular expressions: a pattern is a pure total predicate. Compilation failures and the `lastIndex` state of `g`/`y` patterns are not modelled.
- Cache keys: the source's slots are plain objects, so keys such as "constructor" or "__proto__" hit `Object.prototype`. The model uses `map<string, Icon>` and does not reproduce this.
- Offset range: `icons[offset]` out of range yields `undefined` in the source, and a lookup whose scan reaches it throws. The model requires in-range offsets and at least five offset lists (`WellFormedDb`). `Read` builds tables from the first five lists only, as those are the only ones that reach a table.
- Object identity: `Icon` is an immutable value. "The same instance" in the source becomes value equality; `index` tells rules apart.
- Formatter side effects: `getClass`/`getClassList` are functions on an immutable value, so "the icon is unchanged" holds by construction and has no separate statement.
- Priority: kept as data and never consulted, as in the source. It is modelled as an integer, so a fractional or `NaN` priority (the source's type is a JavaScript number) is not representable; matching never reads it, so no lookup behaviour is lost.
- JavaScript typing looseness: `directory` is a boolean, a colour-mode index is a natural number, and colour slots are strings or absent.
- The `db` singleton of src/file-icons.ts becomes an `IconTables` parameter. The module-level cache becomes a `Cache` object that all tables share.
- `bySignature` and the signature slot are built and kept as data; no lookup reads them. The directoryPath/filePath slots are only used by the corrected `MatchPathOwnSlot`.
- The database contents (src/db/icondb) and type declarations are not part of this model. The database is a constructor argument.
- scripts/update-assets.js is not part of this model: it downloads and compiles assets at build time.
- CSS, fonts and rendering of the class strings are out of scope.
- Out-of-range offsets are not a fatal construction error here, because the code performs no range check; the model follows the code and states the range as a precondition.

## Findings

| source | as written | input that shows it | evidently intended | confidence | as-written member | corrected member |
|---|---|---|---|---|---|---|
| src/classes/icon-tables.ts:117 | `matchPath` reads and writes `cache.directoryName`/`cache.fileName`, the slots of `matchName` | file rules [rule accepting only "a", rule accepting anything], with only the second in the path dimension: `matchPath("a")` then `matchName("a")` returns the second rule, although the first name rule accepting "a" is the first | memoise path lookups in `cache.directoryPath`/`cache.filePath`, declared for it at lines 6 and 8 and otherwise never used | medium; not executed | `Tables.IconTables.MatchPath` (exhibited by `Scenarios.PathQueryShadowsName`) | `Tables.IconTables.MatchPathOwnSlot` (exhibited by `Scenarios.PathQueryKeepsName`) |

The facade only calls `matchName`, so no other part of the model depends on which `matchPath` is used.

/**
 * A single matching rule and its display attributes (src/classes/icon.ts).
 *
 * A compiled regular expression is modelled by the decision procedure it
 * implements: `Pattern.test` is an arbitrary total predicate on strings, so
 * every property proved here holds whatever the patterns in the database are.
 */
module Icons {
  import opened Wrappers

  /** A compiled pattern: its source text (provenance only) and its `test` predicate. */
  datatype Pattern = Pattern(source: string, test: string -> bool)

  /** The pattern `p` accepts `s` (`RegExp.test`, taken to be pure). */
  predicate Accepts(p: Pattern, s: string) {
    p.test(s)
  }

  /**
   * One raw tuple of the serialized database:
   * [icon, color, match, priority?, matchPath?, interpreter?, scope?, lang?, signature?].
   * An optional slot that is missing is None. A colour slot is None when it is absent.
   */
  datatype RawIcon = RawIcon(
    icon: string,
    color: seq<Option<string>>,
    pattern: Pattern,  // the `match` field: tested against a basename or a path
    priority: Option<int>,
    matchPath: Option<bool>,
    interpreter: Option<Pattern>,
    scope: Option<Pattern>,
    lang: Option<Pattern>,
    signature: Option<Pattern>)

  /** An icon rule, immutable once built. */
  datatype Icon = Icon(
    index: nat,
    icon: string,
    color: seq<Option<string>>,
    pattern: Pattern,  // the `match` field: tested against a basename or a path
    priority: int,
    matchPath: bool,
    interpreter: Option<Pattern>,
    scope: Option<Pattern>,
    lang: Option<Pattern>,
    signature: Option<Pattern>)

  /**
   * The `Icon` constructor: the index and the first three tuple slots are
   * stored as given; a missing or zero priority becomes 1 (`data[3] || 1`),
   * a missing matchPath flag becomes false, a missing pattern becomes null.
   */
  function FromRaw(index: nat, raw: RawIcon): (i: Icon)
    ensures i.index == index && i.icon == raw.icon && i.color == raw.color && i.pattern == raw.pattern
    ensures raw.priority.None? || raw.priority.value == 0 ==> i.priority == 1
    ensures raw.priority.Some? && raw.priority.value != 0 ==> i.priority == raw.priority.value
    ensures i.priority != 0
    ensures i.matchPath <==> raw.matchPath == Some(true)
    ensures i.interpreter == raw.interpreter && i.scope == raw.scope
    ensures i.lang == raw.lang && i.signature == raw.signature
  {
    var priority := match raw.priority
      case Some(p) => if p != 0 then p else 1
      case None => 1;
    Icon(index, raw.icon, raw.color, raw.pattern, priority, raw.matchPath.GetOr(false),
         raw.interpreter, raw.scope, raw.lang, raw.signature)
  }

  /**
   * The colour class an icon shows in colour mode `mode`, if any: `color[mode]`
   * when the mode is given and that slot holds a non-empty string (JavaScript
   * treats a missing slot and "" alike as falsy).
   */
  function ColorClass(icon: Icon, mode: Option<nat>): Option<string> {
    if mode.Some? && mode.value < |icon.color| && icon.color[mode.value].Some?
       && icon.color[mode.value].value != ""
    then icon.color[mode.value]
    else None
  }

  /** The CSS classes of `icon` in colour mode `mode`, as one space-separated string. */
  function GetClass(icon: Icon, mode: Option<nat>): (r: string)
    ensures mode.None? ==> r == icon.icon
    ensures mode.Some? && (mode.value >= |icon.color| || icon.color[mode.value] in {None, Some("")})
      ==> r == icon.icon
    ensures mode.Some? && mode.value < |icon.color| && icon.color[mode.value].Some?
            && icon.color[mode.value].value != ""
      ==> r == icon.icon + " " + icon.color[mode.value].value
  {
    match ColorClass(icon, mode)
    case None => icon.icon
    case Some(c) => icon.icon + " " + c
  }

  /** The CSS classes of `icon` in colour mode `mode`, as a list of one or two tokens. */
  function GetClassList(icon: Icon, mode: Option<nat>): (r: seq<string>)
    ensures 1 <= |r| <= 2 && r[0] == icon.icon
    ensures |r| == 2 <==> mode.Some? && mode.value < |icon.color| && icon.color[mode.value].Some?
                          && icon.color[mode.value].value != ""
    ensures |r| == 2 ==> r[1] == icon.color[mode.value].value
  {
    match ColorClass(icon, mode)
    case None => [icon.icon]
    case Some(c) => [icon.icon, c]
  }

  /** `Array.prototype.join(sep)` on a list of strings. */
  function Join(xs: seq<string>, sep: string): string
    decreases |xs|
  {
    if |xs| == 0 then ""
    else if |xs| == 1 then xs[0]
    else xs[0] + sep + Join(xs[1..], sep)
  }

  /** Joining the class list with one space gives the class string, for every mode. */
  lemma ClassListJoinsToClass(icon: Icon, mode: Option<nat>)
    ensures Join(GetClassList(icon, mode), " ") == GetClass(icon, mode)
  {
    var list := GetClassList(icon, mode);
    if |list| == 2 {
      assert list[1..] == [list[1]];
    }
  }
}

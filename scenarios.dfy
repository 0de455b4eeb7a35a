/**
 * Concrete databases worked through the model's contracts: a one-rule
 * JavaScript table (`js-icon`, coloured `js-light`/`js-dark`, matching
 * `.js`), and the input on which `matchPath`'s sharing of the name slots shows.
 */
module Scenarios {
  import opened Wrappers
  import opened Icons
  import opened Tables
  import opened FileIcons

  /** Five empty offset lists. */
  const NoIndexes: seq<seq<nat>> := [[], [], [], [], []]

  /** `js-icon`, coloured `js-light`/`js-dark`, matching `/\.js$/`. */
  function JsRule(): RawIcon {
    RawIcon("js-icon", [Some("js-light"), Some("js-dark")],
            Pattern("\\.js$", s => |s| >= 3 && s[|s| - 3..] == ".js"),
            None, None, None, None, None, None)
  }

  /** One file rule, no directory rules. */
  function JsDb(): (db: IconDb)
    ensures WellFormedDb(db)
  {
    IconDb(RawTable([], NoIndexes), RawTable([JsRule()], NoIndexes))
  }

  lemma JsTables()
    ensures Read(JsDb().directories).byName == []
    ensures Read(JsDb().files).byName == [FromRaw(0, JsRule())]
  {
  }

  /** What the one rule decides and shows. */
  lemma JsRuleFacts()
    ensures Matches(FromRaw(0, JsRule()), MatchPattern, "app.js")
    ensures !Matches(FromRaw(0, JsRule()), MatchPattern, "app.txt")
    ensures GetClass(FromRaw(0, JsRule()), Some(0)) == "js-icon js-light"
    ensures GetClass(FromRaw(0, JsRule()), Some(1)) == "js-icon js-dark"
  {
    assert "app.js"[3..] == ".js";
    assert "app.txt"[4..] != ".js";
  }

  /** The one-rule JavaScript table: the matching rule in the light and the dark colour mode. */
  method JsColorScenario() returns (light: Option<string>, dark: Option<string>)
    ensures light == Some("js-icon js-light") && dark == Some("js-icon js-dark")
  {
    JsTables();
    JsRuleFacts();
    var js := FromRaw(0, JsRule());
    var cache := new Cache();
    var db := new IconTables(JsDb(), cache);
    assert db.NameLookup("app.js", false) == Some(js);
    light := GetIconClass(db, "app.js", None);
    dark := GetIconClass(db, "app.js", Some(GetClassOptions(Some("dark"), None, None)));
  }

  /** The same table on names no rule matches: the file and directory fallbacks, and no value when skipped. */
  method JsFallbackScenario() returns (text: Option<string>, dir: Option<string>, skipped: Option<string>)
    ensures text == Some("icon-file-text") && dir == Some("icon-file-directory") && skipped == None
  {
    JsTables();
    JsRuleFacts();
    var cache := new Cache();
    var db := new IconTables(JsDb(), cache);
    assert db.NameLookup("app.txt", false) == None;
    text := GetIconClass(db, "app.txt", None);
    assert db.NameLookup("src", true) == None;
    dir := GetIconClass(db, "src", Some(GetClassOptions(None, Some(true), None)));
    assert db.NameLookup("app.txt", false) == None;
    skipped := GetIconClass(db, "app.txt", Some(GetClassOptions(None, None, Some(true))));
  }

  /** Matches exactly "a". */
  function ExactRule(): RawIcon {
    RawIcon("a-icon", [], Pattern("^a$", s => s == "a"), None, None, None, None, None, None)
  }

  /** Matches anything. */
  function AnyRule(): RawIcon {
    RawIcon("any-icon", [], Pattern("", s => true), None, None, None, None, None, None)
  }

  /** File rules [ExactRule, AnyRule]; only AnyRule is in the path dimension. */
  function ShadowDb(): (db: IconDb)
    ensures WellFormedDb(db)
  {
    IconDb(RawTable([], NoIndexes), RawTable([ExactRule(), AnyRule()], [[], [], [1], [], []]))
  }

  lemma ShadowTables()
    ensures Read(ShadowDb().files).byName == [FromRaw(0, ExactRule()), FromRaw(1, AnyRule())]
    ensures Read(ShadowDb().files).byPath == [FromRaw(1, AnyRule())]
  {
    var t := Read(ShadowDb().files);
    assert |t.byPath| == 1 && t.byPath[0] == t.byName[1];
  }

  /**
   * As written, `matchPath("a")` records its path-table winner under the
   * file NAME key "a", so a later `matchName("a")` returns that rule instead
   * of the first name rule that accepts "a".
   */
  method PathQueryShadowsName() returns (viaPath: Option<Icon>, viaName: Option<Icon>, firstByName: Option<Icon>)
    ensures firstByName.Some? && firstByName.value.icon == "a-icon"
    ensures viaPath == viaName && viaName.Some? && viaName.value.icon == "any-icon"
    ensures viaName != firstByName
  {
    ShadowTables();
    var exact, any := FromRaw(0, ExactRule()), FromRaw(1, AnyRule());
    assert Matches(exact, MatchPattern, "a") && Matches(any, MatchPattern, "a");
    var cache := new Cache();
    var db := new IconTables(ShadowDb(), cache);
    viaPath := db.MatchPath("a", false);
    viaName := db.MatchName("a", false);
    firstByName := FirstMatch(db.fileIcons.byName, MatchPattern, "a");
  }

  /** With the path slot in use, the same two queries keep their own answers. */
  method PathQueryKeepsName() returns (viaPath: Option<Icon>, viaName: Option<Icon>)
    ensures viaPath.Some? && viaPath.value.icon == "any-icon"
    ensures viaName.Some? && viaName.value.icon == "a-icon"
  {
    ShadowTables();
    var exact, any := FromRaw(0, ExactRule()), FromRaw(1, AnyRule());
    assert Matches(exact, MatchPattern, "a") && Matches(any, MatchPattern, "a");
    var cache := new Cache();
    var db := new IconTables(ShadowDb(), cache);
    viaPath := db.MatchPathOwnSlot("a", false);
    viaName := db.MatchName("a", false);
  }
}

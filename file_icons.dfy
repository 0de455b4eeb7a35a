/**
 * The classification facade (src/file-icons.ts): colour-mode resolution,
 * the name lookup and the fallback policy, in a string and a list variant.
 * The module-level `db` singleton is passed in as an `IconTables` object.
 */
module FileIcons {
  import opened Wrappers
  import opened Icons
  import opened Tables

  const DirectoryFallback := "icon-file-directory"
  const FileFallback := "icon-file-text"

  /**
   * `getColorModeIndex`: "dark" is slot 1, "mono" is no colour, and "light",
   * an omitted mode or any other value is slot 0.
   */
  function ColorModeIndex(colorMode: Option<string>): (r: Option<nat>)
    ensures r == Some(1) <==> colorMode == Some("dark")
    ensures r.None? <==> colorMode == Some("mono")
    ensures r == Some(0) <==> colorMode != Some("dark") && colorMode != Some("mono")
  {
    match colorMode
    case Some("dark") => Some(1)
    case Some("mono") => None
    case _ => Some(0)
  }

  /** The caller's options; a field left out is None. */
  datatype GetClassOptions = GetClassOptions(colorMode: Option<string>, isDir: Option<bool>, skipFallback: Option<bool>)

  /** The default options object of `getIconClass`. */
  const DefaultGetClassOptions := GetClassOptions(Some("light"), Some(false), Some(false))

  /** The options as a call acts on them: the colour slot, the table, and whether to fall back. */
  datatype Settings = Settings(modeIndex: Option<nat>, isDir: bool, skipFallback: bool)

  /**
   * `getIconClass`'s destructuring defaults: an omitted options object is the
   * default object, and each omitted field takes "light", false or false.
   */
  function ClassSettings(options: Option<GetClassOptions>): (s: Settings)
    ensures options.None? ==> s == Settings(Some(0), false, false)
    ensures s.isDir <==> options.Some? && options.value.isDir == Some(true)
    ensures s.skipFallback <==> options.Some? && options.value.skipFallback == Some(true)
    ensures s.modeIndex.None? <==> options.Some? && options.value.colorMode == Some("mono")
    ensures s.modeIndex == Some(1) <==> options.Some? && options.value.colorMode == Some("dark")
    ensures options.Some? && options.value.colorMode.None? ==> s.modeIndex == Some(0)
    ensures s.modeIndex == Some(0) <==> options.None? || options.value.colorMode !in {Some("dark"), Some("mono")}
  {
    var o := options.GetOr(DefaultGetClassOptions);
    Settings(ColorModeIndex(Some(o.colorMode.GetOr("light"))), o.isDir.GetOr(false), o.skipFallback.GetOr(false))
  }

  /**
   * `getIconClassList` destructures with no field defaults: an omitted
   * colour mode reaches `getColorModeIndex` undefined, an omitted `isDir`
   * reaches `matchName`, whose own default is false, and an omitted
   * `skipFallback` is falsy.
   */
  function ClassListSettings(options: Option<GetClassOptions>): Settings {
    var o := options.GetOr(GetClassOptions(None, None, None));
    Settings(ColorModeIndex(o.colorMode), o.isDir.GetOr(false), o.skipFallback == Some(true))
  }

  /** Both variants read the same options the same way, omitted options included. */
  lemma SettingsAgree(options: Option<GetClassOptions>)
    ensures ClassListSettings(options) == ClassSettings(options)
    ensures ClassListSettings(None) == ClassSettings(Some(DefaultGetClassOptions)) == Settings(Some(0), false, false)
  {
  }

  /** The string result for the icon `matchName` found (or None), under settings `s`. */
  function ClassFor(found: Option<Icon>, s: Settings): (r: Option<string>)
    ensures r.None? <==> found.None? && s.skipFallback
    ensures found.None? && !s.skipFallback ==> r == Some(if s.isDir then DirectoryFallback else FileFallback)
    ensures found.Some? ==> r == Some(GetClass(found.value, s.modeIndex))
  {
    match found
    case None => if s.skipFallback then None else if s.isDir then Some(DirectoryFallback) else Some(FileFallback)
    case Some(icon) => Some(GetClass(icon, s.modeIndex))
  }

  /** The list result for the icon `matchName` found (or None), under settings `s`. */
  function ClassListFor(found: Option<Icon>, s: Settings): (r: Option<seq<string>>)
    ensures r.None? <==> found.None? && s.skipFallback
    ensures found.None? && !s.skipFallback ==> r == Some([if s.isDir then DirectoryFallback else FileFallback])
    ensures found.Some? ==> r == Some(GetClassList(found.value, s.modeIndex))
  {
    match found
    case None => if s.skipFallback then None else if s.isDir then Some([DirectoryFallback]) else Some([FileFallback])
    case Some(icon) => Some(GetClassList(icon, s.modeIndex))
  }

  /** For the same match and settings, the list joined with one space is the string, and one is None exactly when the other is. */
  lemma ListJoinsToClass(found: Option<Icon>, s: Settings)
    ensures ClassListFor(found, s).None? <==> ClassFor(found, s).None?
    ensures ClassListFor(found, s).Some? ==> Join(ClassListFor(found, s).value, " ") == ClassFor(found, s).value
  {
    if found.Some? {
      ClassListJoinsToClass(found.value, s.modeIndex);
    }
  }

  /** The mono colour mode never yields a colour token, whatever the icon. */
  lemma MonoHasNoColor(found: Option<Icon>, options: GetClassOptions)
    requires options.colorMode == Some("mono")
    ensures found.Some? ==> ClassFor(found, ClassSettings(Some(options))) == Some(found.value.icon)
    ensures found.Some? ==> ClassListFor(found, ClassListSettings(Some(options))) == Some([found.value.icon])
  {
  }

  /** `getIconClass`: the matched icon's class string, or the fallback policy on a miss. */
  method GetIconClass(db: IconTables, name: string, options: Option<GetClassOptions>) returns (r: Option<string>)
    requires db.Valid()
    modifies db.cache
    ensures db.Valid()
    ensures r == ClassFor(old(db.NameLookup(name, ClassSettings(options).isDir)), ClassSettings(options))
    ensures db.NameLookup(name, ClassSettings(options).isDir) == old(db.NameLookup(name, ClassSettings(options).isDir))
    ensures db.cache.GrowsAtMost(db.NameSlot(ClassSettings(options).isDir), name)
    ensures old(db.NameLookup(name, ClassSettings(options).isDir)).Some? ==> name in db.cache.Get(db.NameSlot(ClassSettings(options).isDir))
  {
    var s := ClassSettings(options);
    var found := db.MatchName(name, s.isDir);
    if found.None? {
      if s.skipFallback {
        return None;
      }
      if s.isDir {
        return Some(DirectoryFallback);
      }
      return Some(FileFallback);
    }
    r := Some(GetClass(found.value, s.modeIndex));
  }

  /** `getIconClassList`: the same branches, with the classes as a list. */
  method GetIconClassList(db: IconTables, name: string, options: Option<GetClassOptions>) returns (r: Option<seq<string>>)
    requires db.Valid()
    modifies db.cache
    ensures db.Valid()
    ensures r == ClassListFor(old(db.NameLookup(name, ClassListSettings(options).isDir)), ClassListSettings(options))
    ensures db.NameLookup(name, ClassListSettings(options).isDir) == old(db.NameLookup(name, ClassListSettings(options).isDir))
    ensures db.cache.GrowsAtMost(db.NameSlot(ClassListSettings(options).isDir), name)
    ensures old(db.NameLookup(name, ClassListSettings(options).isDir)).Some? ==> name in db.cache.Get(db.NameSlot(ClassListSettings(options).isDir))
  {
    var s := ClassListSettings(options);
    var found := db.MatchName(name, s.isDir);
    if found.None? {
      if s.skipFallback {
        return None;
      }
      if s.isDir {
        return Some([DirectoryFallback]);
      }
      return Some([FileFallback]);
    }
    r := Some(GetClassList(found.value, s.modeIndex));
  }

  /**
   * Calling both variants with the same name and options, one after the
   * other on the shared cache, gives agreeing answers: the second call is
   * answered as the first was.
   */
  method ClassAndListAgree(db: IconTables, name: string, options: Option<GetClassOptions>)
    returns (c: Option<string>, l: Option<seq<string>>)
    requires db.Valid()
    modifies db.cache
    ensures db.Valid()
    ensures l.None? <==> c.None?
    ensures l.Some? ==> Join(l.value, " ") == c.value
  {
    SettingsAgree(options);
    c := GetIconClass(db, name, options);
    l := GetIconClassList(db, name, options);
    ListJoinsToClass(old(db.NameLookup(name, ClassSettings(options).isDir)), ClassSettings(options));
  }
}

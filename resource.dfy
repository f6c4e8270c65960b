/**
 * The language-resource bookkeeping of Flow.Launcher.Core.Resource.Internationalization:
 * choosing a language file per language directory, and keeping the application's
 * merged resource dictionaries in step with the selected language.
 */
module Resource {
  import opened Wrappers
  import opened Sequences
  import opened Paths
  import opened Languages

  /** The sub-directory of a plugin or of the program that holds its language files. */
  const Folder := "Languages"
  /** The English language file, the fallback in every language directory. */
  const DefaultFile := "en.xaml"
  const Extension := ".xaml"

  /**
   * The language file to load from folder: the requested file when it exists,
   * otherwise the folder's English file when that exists; None (the empty
   * string) when neither exists or the folder does not exist.
   */
  function LanguageFile(fs: FileSystem, folder: Path, language: string): (r: Option<Path>)
    ensures folder !in fs.directories ==> r == None
    ensures folder in fs.directories && Join(folder, language) in fs.files ==> r == Some(Join(folder, language))
    ensures folder in fs.directories && Join(folder, language) !in fs.files
            ==> r == (if Join(folder, DefaultFile) in fs.files then Some(Join(folder, DefaultFile)) else None)
    ensures r.Some? ==> r.value in fs.files && (r.value == Join(folder, language) || r.value == Join(folder, DefaultFile))
  {
    if folder in fs.directories then
      var path := Join(folder, language);
      if path in fs.files then Some(path)
      else
        var english := Join(folder, DefaultFile);
        if english in fs.files then Some(english) else None
    else None
  }

  /**
   * The non-empty results of LanguageFile over the language directories, in
   * directory order (the Select/Where query of LoadLanguage).
   */
  function LanguageFiles(fs: FileSystem, directories: seq<Path>, filename: string): (r: seq<Path>)
    ensures |r| <= |directories|
    ensures forall p :: p in r ==> p in fs.files
    ensures forall p :: p in r <==> exists d :: d in directories && LanguageFile(fs, d, filename) == Some(p)
  {
    if directories == [] then []
    else
      var rest := LanguageFiles(fs, directories[1..], filename);
      assert forall d :: d in directories <==> d == directories[0] || d in directories[1..];
      match LanguageFile(fs, directories[0], filename)
      case Some(f) => [f] + rest
      case None => rest
  }

  /** The query over two runs of directories is the two queries one after the other. */
  lemma {:induction false} LanguageFilesAppend(fs: FileSystem, a: seq<Path>, b: seq<Path>, filename: string)
    ensures LanguageFiles(fs, a + b, filename) == LanguageFiles(fs, a, filename) + LanguageFiles(fs, b, filename)
  {
    if a == [] {
      assert a + b == b;
    } else {
      assert (a + b)[0] == a[0];
      assert (a + b)[1..] == a[1..] + b;
      LanguageFilesAppend(fs, a[1..], b, filename);
    }
  }

  /**
   * With the program's directory added after the plugin directories, its file
   * (when there is one) comes after every plugin's file.
   */
  lemma ProgramFileLast(fs: FileSystem, plugins: seq<Path>, program: Path, filename: string)
    ensures LanguageFiles(fs, plugins + [program], filename)
            == LanguageFiles(fs, plugins, filename)
               + (match LanguageFile(fs, program, filename) case Some(f) => [f] case None => [])
  {
    LanguageFilesAppend(fs, plugins, [program], filename);
  }

  /**
   * The language directories of the plugins, in plugin order: each plugin
   * whose assembly directory is known contributes that directory's Languages
   * folder; a plugin without one (Path.GetDirectoryName gave null) is skipped.
   */
  function PluginLanguageDirectories(pluginDirectories: seq<Option<Path>>): (r: seq<Path>)
    ensures |r| <= |pluginDirectories|
    ensures forall p :: p in r <==>
              exists i :: 0 <= i < |pluginDirectories| && pluginDirectories[i].Some? && p == Join(pluginDirectories[i].value, Folder)
  {
    if pluginDirectories == [] then []
    else
      var n := |pluginDirectories| - 1;
      var prefix := PluginLanguageDirectories(pluginDirectories[..n]);
      assert forall i :: 0 <= i < n ==> pluginDirectories[..n][i] == pluginDirectories[i];
      match pluginDirectories[n]
      case Some(d) => prefix + [Join(d, Folder)]
      case None => prefix
  }

  /** What GetTranslation gives for a key whose resource is missing or not a string. */
  function MissingTranslation(key: string): string
  {
    "No Translation for key " + key
  }

  /**
   * The translation of key, given what the resource lookup found for it:
   * Some(text) when it found a string, None otherwise.
   */
  function GetTranslation(key: string, found: Option<string>): (r: string)
    ensures found.Some? ==> r == found.value
    ensures found.None? ==> r == MissingTranslation(key)
  {
    match found
    case Some(text) => text
    case None => MissingTranslation(key)
  }

  /** The message for a missing translation names its key, so two different keys never share one. */
  lemma MissingTranslationNamesKey(key: string, other: string)
    ensures MissingTranslation(key) == MissingTranslation(other) ==> key == other
    ensures GetTranslation(key, None)[|MissingTranslation("")|..] == key
  {
    if MissingTranslation(key) == MissingTranslation(other) {
      assert key == MissingTranslation(key)[|MissingTranslation("")|..];
    }
  }

  /** The answers of the yes/no dialog. */
  datatype MessageBoxResult = Yes | No | Cancel | OK | NoneResult

  /** The question "Do you want to search with pinyin?", in the script of the language being set. */
  function PinyinQuestion(catalog: Catalog, language: Language): string
  {
    if language == catalog.chinese then "是否启用拼音搜索？" else "是否啓用拼音搜索？"
  }

  /** A list of resource dictionaries' sources, in list order. */
  function Sources(dictionaries: seq<ResourceDictionary>): seq<Path>
  {
    seq(|dictionaries|, i requires 0 <= i < |dictionaries| => dictionaries[i].source)
  }

  /** A resource dictionary loaded from one language file. */
  class ResourceDictionary {
    const source: Path

    constructor (source: Path)
      ensures this.source == source
    {
      this.source := source;
    }
  }

  /** Application.Current.Resources, whose merged dictionaries the manager edits. */
  class ApplicationResources {
    var mergedDictionaries: seq<ResourceDictionary>

    constructor (mergedDictionaries: seq<ResourceDictionary>)
      ensures this.mergedDictionaries == mergedDictionaries
    {
      this.mergedDictionaries := mergedDictionaries;
    }
  }

  /** The user settings the manager reads and writes. */
  class Settings {
    var language: string
    var shouldUsePinyin: bool

    constructor (language: string, shouldUsePinyin: bool)
      ensures this.language == language && this.shouldUsePinyin == shouldUsePinyin
    {
      this.language := language;
      this.shouldUsePinyin := shouldUsePinyin;
    }
  }

  /**
   * The dictionaries appended to a list during one load: after extends before
   * by one dictionary per file, loaded from those files in order.
   */
  ghost predicate Appended(before: seq<ResourceDictionary>, after: seq<ResourceDictionary>, files: seq<Path>)
  {
    && |after| == |before| + |files|
    && after[..|before|] == before
    && Sources(after[|before|..]) == files
  }

  /**
   * Merging and tracking a dictionary that was not merged before keeps every
   * tracked dictionary merged at most once.
   */
  lemma MergeFreshKeepsOnce(merged: seq<ResourceDictionary>, tracked: seq<ResourceDictionary>, r: ResourceDictionary)
    requires forall d :: d in tracked ==> multiset(merged)[d] <= 1
    requires r !in merged
    ensures forall d :: d in tracked + [r] ==> multiset(merged + [r])[d] <= 1
  {
  }

  /**
   * The localisation manager. It keeps the language directories, the
   * dictionaries it has merged since the English baseline (oldResources), and
   * edits the application's merged dictionaries when the language changes.
   */
  class Internationalization {
    var settings: Settings?
    const catalog: Catalog
    const resources: ApplicationResources
    var languageDirectories: seq<Path>
    var oldResources: seq<ResourceDictionary>
    /** The English dictionaries loaded at construction; they are never tracked. */
    ghost var baseline: seq<ResourceDictionary>

    /**
     * Every tracked dictionary is merged at most once, and no English baseline
     * dictionary is tracked.
     */
    ghost predicate Valid()
      reads this, resources
    {
      && (forall d :: d in oldResources ==> multiset(resources.mergedDictionaries)[d] <= 1)
      && (forall d :: d in baseline ==> d !in oldResources)
    }

    /**
     * Collects the plugin language directories, loads the English files of the
     * plugins only, forgets them as tracked (they become the baseline), and
     * then adds the program's own language directory last.
     */
    constructor (catalog: Catalog, resources: ApplicationResources, fs: FileSystem,
                 pluginDirectories: seq<Option<Path>>, programDirectory: Path)
      modifies resources
      ensures Valid()
      ensures this.catalog == catalog && this.resources == resources && settings == null
      ensures languageDirectories == PluginLanguageDirectories(pluginDirectories) + [Join(programDirectory, Folder)]
      ensures oldResources == []
      ensures resources.mergedDictionaries == old(resources.mergedDictionaries) + baseline
      ensures Sources(baseline) == LanguageFiles(fs, PluginLanguageDirectories(pluginDirectories), catalog.english.code + Extension)
      ensures forall d :: d in baseline ==> fresh(d)
    {
      this.catalog := catalog;
      this.resources := resources;
      settings := null;
      languageDirectories := [];
      oldResources := [];
      baseline := [];
      new;
      AddPluginLanguageDirectories(pluginDirectories);
      assert languageDirectories == PluginLanguageDirectories(pluginDirectories);
      LoadDefaultLanguage(fs);
      assert baseline[0..] == baseline;
      AddFlowLauncherLanguageDirectory(programDirectory);
    }

    /** Adds the program's own Languages folder to the language directories. */
    method AddFlowLauncherLanguageDirectory(programDirectory: Path)
      modifies this`languageDirectories
      ensures languageDirectories == old(languageDirectories) + [Join(programDirectory, Folder)]
    {
      languageDirectories := languageDirectories + [Join(programDirectory, Folder)];
    }

    /**
     * Adds the Languages folder of each plugin, given the directory of each
     * plugin's assembly (None where Path.GetDirectoryName gave null).
     */
    method AddPluginLanguageDirectories(pluginDirectories: seq<Option<Path>>)
      modifies this`languageDirectories
      ensures languageDirectories == old(languageDirectories) + PluginLanguageDirectories(pluginDirectories)
    {
      for i := 0 to |pluginDirectories|
        invariant languageDirectories == old(languageDirectories) + PluginLanguageDirectories(pluginDirectories[..i])
      {
        assert pluginDirectories[..i + 1][..i] == pluginDirectories[..i];
        if pluginDirectories[i].Some? {
          languageDirectories := languageDirectories + [Join(pluginDirectories[i].value, Folder)];
        }
      }
      assert pluginDirectories[..|pluginDirectories|] == pluginDirectories;
    }

    /** Loads English and then clears the tracked list, so the English dictionaries stay merged for good. */
    method LoadDefaultLanguage(fs: FileSystem)
      requires Valid()
      modifies this`oldResources, this`baseline, resources
      ensures Valid()
      ensures oldResources == []
      ensures |baseline| >= |old(baseline)| && baseline[..|old(baseline)|] == old(baseline)
      ensures Sources(baseline[|old(baseline)|..]) == LanguageFiles(fs, languageDirectories, catalog.english.code + Extension)
      ensures resources.mergedDictionaries == old(resources.mergedDictionaries) + baseline[|old(baseline)|..]
      ensures forall d :: d in baseline[|old(baseline)|..] ==> fresh(d)
    {
      ghost var before := oldResources;
      LoadLanguage(fs, catalog.english);
      baseline := baseline + oldResources[|before|..];
      oldResources := [];
    }

    /**
     * Switches to the language given by its code: the first available language
     * with that code ignoring case, English when there is none. Returns false
     * when the switch aborts because no Settings object was assigned.
     */
    method ChangeLanguageByCode(fs: FileSystem, languageCode: string) returns (completed: bool)
      requires Valid()
      modifies this`oldResources, resources, settings
      ensures Valid()
      ensures completed <==> old(settings) != null
      ensures var language := GetLanguageByLanguageCode(catalog, languageCode);
              && settings == old(settings)
              && (settings != null ==> settings.language == language.code)
              && (settings != null ==> settings.shouldUsePinyin == old(settings.shouldUsePinyin))
              && Appended(old(oldResources), oldResources,
                          if language == catalog.english then []
                          else LanguageFiles(fs, languageDirectories, language.code + Extension))
      ensures resources.mergedDictionaries
              == Without(old(resources.mergedDictionaries), old(oldResources)) + oldResources[|old(oldResources)|..]
      ensures forall d :: d in oldResources[|old(oldResources)|..] ==> fresh(d)
    {
      var language := GetLanguageByLanguageCode(catalog, languageCode);
      completed := ChangeLanguage(fs, language);
    }

    /**
     * Unmerges every tracked dictionary, merges and tracks the new language's
     * files unless it is English, and records the language in the settings.
     * Without a Settings object the dictionaries are switched all the same,
     * and the call then aborts (completed is false) before recording anything.
     */
    method ChangeLanguage(fs: FileSystem, language: Language) returns (completed: bool)
      requires Valid()
      modifies this`oldResources, resources, settings
      ensures Valid()
      ensures completed <==> old(settings) != null
      ensures settings == old(settings)
      ensures settings != null ==> settings.language == language.code
      ensures settings != null ==> settings.shouldUsePinyin == old(settings.shouldUsePinyin)
      ensures Appended(old(oldResources), oldResources,
                       if language == catalog.english then []
                       else LanguageFiles(fs, languageDirectories, language.code + Extension))
      ensures resources.mergedDictionaries
              == Without(old(resources.mergedDictionaries), old(oldResources)) + oldResources[|old(oldResources)|..]
      ensures forall d :: d in oldResources[|old(oldResources)|..] ==> fresh(d)
      // no dictionary tracked before the switch is still merged ...
      ensures forall d :: d in old(oldResources) ==> d !in resources.mergedDictionaries
      // ... and no untracked one (the English baseline among them) was unmerged
      ensures forall d :: d in old(resources.mergedDictionaries) && d !in old(oldResources) ==> d in resources.mergedDictionaries
      ensures forall d :: d in baseline && d in old(resources.mergedDictionaries) ==> d in resources.mergedDictionaries
      // the only tracked dictionaries still merged are the ones this switch added
      ensures forall d :: d in oldResources && d in resources.mergedDictionaries ==> d in oldResources[|old(oldResources)|..]
    {
      SwitchDictionaries(fs, language);
      completed := RecordLanguage(language.code);
    }

    /** The dictionary half of ChangeLanguage, which runs whether or not a Settings object exists. */
    method SwitchDictionaries(fs: FileSystem, language: Language)
      requires Valid()
      modifies this`oldResources, resources
      ensures Valid()
      ensures Appended(old(oldResources), oldResources,
                       if language == catalog.english then []
                       else LanguageFiles(fs, languageDirectories, language.code + Extension))
      ensures resources.mergedDictionaries
              == Without(old(resources.mergedDictionaries), old(oldResources)) + oldResources[|old(oldResources)|..]
      ensures forall d :: d in oldResources[|old(oldResources)|..] ==> fresh(d)
      // no dictionary tracked before the switch is still merged ...
      ensures forall d :: d in old(oldResources) ==> d !in resources.mergedDictionaries
      // ... and no untracked one (the English baseline among them) was unmerged
      ensures forall d :: d in old(resources.mergedDictionaries) && d !in old(oldResources) ==> d in resources.mergedDictionaries
      ensures forall d :: d in baseline && d in old(resources.mergedDictionaries) ==> d in resources.mergedDictionaries
      // the only tracked dictionaries still merged are the ones this switch added
      ensures forall d :: d in oldResources && d in resources.mergedDictionaries ==> d in oldResources[|old(oldResources)|..]
    {
      RemoveOldLanguageFiles();
      if language != catalog.english {
        LoadLanguage(fs, language);
      }
    }

    /** Writes Settings.Language; false when there is no Settings object, where the write throws. */
    method RecordLanguage(code: string) returns (completed: bool)
      modifies settings
      ensures completed <==> settings != null
      ensures settings != null ==> settings.language == code
      ensures settings != null ==> settings.shouldUsePinyin == old(settings.shouldUsePinyin)
    {
      if settings == null {
        return false;
      }
      settings.language := code;
      return true;
    }

    /**
     * Whether to offer, and the user accepts, pinyin search when switching to a
     * Chinese language; None when the call aborts because no Settings object
     * was assigned.
     */
    method PromptShouldUsePinyin(languageCodeToSet: string, ask: string -> MessageBoxResult) returns (r: Option<bool>)
      ensures settings == null <==> r == None
      ensures var language := GetLanguageByLanguageCode(catalog, languageCodeToSet);
              settings != null ==>
                (r == Some(true) <==> && !settings.shouldUsePinyin
                                      && (language == catalog.chinese || language == catalog.chineseTW)
                                      && ask(PinyinQuestion(catalog, language)) != No)
    {
      var languageToSet := GetLanguageByLanguageCode(catalog, languageCodeToSet);
      if settings == null {
        // reading Settings.ShouldUsePinyin throws
        return None;
      }
      if settings.shouldUsePinyin {
        return Some(false);
      }
      if languageToSet != catalog.chinese && languageToSet != catalog.chineseTW {
        return Some(false);
      }
      var text := PinyinQuestion(catalog, languageToSet);
      if ask(text) == No {
        return Some(false);
      }
      return Some(true);
    }

    /** Unmerges every tracked dictionary, one Remove on the merged collection per tracked dictionary. */
    method RemoveOldLanguageFiles()
      requires Valid()
      modifies resources
      ensures Valid()
      ensures resources.mergedDictionaries == RemoveEach(old(resources.mergedDictionaries), oldResources)
      ensures resources.mergedDictionaries == Without(old(resources.mergedDictionaries), oldResources)
    {
      ghost var merged := resources.mergedDictionaries;
      for i := 0 to |oldResources|
        invariant resources.mergedDictionaries == RemoveEach(merged, oldResources[..i])
      {
        assert oldResources[..i + 1][..i] == oldResources[..i];
        resources.mergedDictionaries := RemoveFirst(resources.mergedDictionaries, oldResources[i]);
      }
      assert oldResources[..|oldResources|] == oldResources;
      RemoveEachIsWithout(merged, oldResources);
      forall d | d in oldResources
        ensures multiset(resources.mergedDictionaries)[d] == 0
      {
        assert d !in resources.mergedDictionaries;
      }
    }

    /** The body of LoadLanguage's loop: one new dictionary, merged and tracked. */
    method MergeAndTrack(source: Path) returns (r: ResourceDictionary)
      requires Valid()
      modifies this`oldResources, resources
      ensures Valid()
      ensures fresh(r) && r.source == source
      ensures oldResources == old(oldResources) + [r]
      ensures resources.mergedDictionaries == old(resources.mergedDictionaries) + [r]
    {
      r := new ResourceDictionary(source);
      assert r !in resources.mergedDictionaries && r !in baseline;
      MergeFreshKeepsOnce(resources.mergedDictionaries, oldResources, r);
      resources.mergedDictionaries := resources.mergedDictionaries + [r];
      oldResources := oldResources + [r];
    }

    /**
     * Merges and tracks one new dictionary per language directory that has a
     * file for the language (or an English fallback), in directory order.
     */
    method LoadLanguage(fs: FileSystem, language: Language)
      requires Valid()
      modifies this`oldResources, resources
      ensures Valid()
      ensures Appended(old(oldResources), oldResources, LanguageFiles(fs, languageDirectories, language.code + Extension))
      ensures resources.mergedDictionaries == old(resources.mergedDictionaries) + oldResources[|old(oldResources)|..]
      ensures forall d :: d in oldResources[|old(oldResources)|..] ==> fresh(d)
    {
      var filename := language.code + Extension;
      var files := LanguageFiles(fs, languageDirectories, filename);
      ghost var loaded: seq<ResourceDictionary> := [];
      if |files| > 0 {
        for i := 0 to |files|
          invariant Valid()
          invariant oldResources == old(oldResources) + loaded
          invariant resources.mergedDictionaries == old(resources.mergedDictionaries) + loaded
          invariant Sources(loaded) == files[..i]
          invariant forall d :: d in loaded ==> fresh(d)
        {
          var r := MergeAndTrack(files[i]);
          assert Sources(loaded + [r]) == Sources(loaded) + [r.source];
          assert files[..i + 1] == files[..i] + [files[i]];
          loaded := loaded + [r];
        }
      }
      assert files[..|files|] == files;
      assert oldResources[|old(oldResources)|..] == loaded;
    }
  }
}

# Flow Launcher language resources, modelled in Dafny

This project models the localisation manager of Flow Launcher,
`Flow.Launcher.Core/Resource/Internationalization.cs`. The manager does three
things:

- It resolves a language code to one of the available languages. The match
  ignores case, and English is the fallback.
- It picks the language file to load from each language directory: the
  requested `{code}.xaml`, else that directory's `en.xaml`, else nothing.
- It keeps the application's merged resource dictionaries in step with the
  selected language. Every dictionary merged since start-up is tracked, and a
  language switch removes the tracked ones before merging the new language's
  files. The English files of the plugins, loaded at construction, are
  deliberately left untracked, so they stay merged as the baseline.

Files and modules:

- `wrappers.dfy` (`Wrappers`): `Option`.
- `sequences.dfy` (`Sequences`): `RemoveFirst`, the `Remove` of the WPF
  `MergedDictionaries` collection (a `Collection<ResourceDictionary>`). It
  removes only the first occurrence of an element, compared by reference. Also `RemoveEach`, one
  `Remove` per element of a second list, and `Without`, an order-preserving
  filter. It includes the lemmas that tie these together.
- `paths.dfy` (`Paths`): paths and the file system.
  - A path is an opaque root, or a name joined to a parent path. So
    `Path.Combine` is injective by construction.
  - The existing directories and files are given as two sets.
- `languages.dfy` (`Languages`): `Language`, the `AvailableLanguages` table
  (`Catalog`), ASCII lower-casing and `GetLanguageByLanguageCode`.
- `resource.dfy` (`Resource`): `LanguageFile`, the LINQ query of
  `LoadLanguage` (`LanguageFiles`), the plugin directory list,
  `GetTranslation`, and the classes `ResourceDictionary`,
  `ApplicationResources` (`Application.Current.Resources`), `Settings` and
  `Internationalization`.

The class `Internationalization` keeps the source's fields as Dafny fields:

- `languageDirectories`,
- `oldResources`,
- the nullable `settings`.

The C# class also reads two globals, which the Dafny class holds as constants
given to its constructor:

- `resources` stands for `Application.Current.Resources`, whose
  `mergedDictionaries` sequence the methods edit in place;
- `catalog` stands for the static `AvailableLanguages` table.

A ghost field `baseline` records the English dictionaries loaded by the
constructor. The object invariant `Valid()` says two things:

- every tracked dictionary is merged at most once;
- no baseline dictionary is tracked.

Every method keeps this invariant. Given it, `RemoveOldLanguageFiles`, with
one `Remove` per tracked dictionary, ends up the same as filtering out every
tracked dictionary (`Sequences.RemoveEachIsWithout`).

Inputs and external calls that become parameters:

- The file system at call time (`FileSystem`) is a parameter of the operations
  that read files.
- The constructor takes four further parameters:
  - the `AvailableLanguages` table;
  - `Application.Current.Resources`;
  - the result of `Path.GetDirectoryName` for each translatable plugin's
    assembly (`None` for null);
  - `Constant.ProgramDirectory`.
- The answer of the pinyin dialog is an oracle function, `ask`.
- What `TryFindResource` found for a key is a parameter of `GetTranslation`.

When a directory lacks the requested file, `LanguageFile` falls back to the
`en.xaml` of that same directory, not to the host program's `en.xaml`.

`Settings` is null until a caller assigns it, and the source then throws
partway through two operations. Both error paths are modelled:

- `ChangeLanguage` throws when it writes `Settings.Language`, after the
  dictionaries were switched. `ChangeLanguage` and `ChangeLanguageByCode`
  return `false` with the dictionaries switched and nothing recorded.
- `PromptShouldUsePinyin` throws when it first reads `Settings`. It returns
  `None`.

## Model

| member | source | states |
|---|---|---|
| Languages.FirstMatch | Flow.Launcher.Core/Resource/Internationalization.cs:77 | FirstOrDefault: returns None exactly when no language's lowered code equals the lowered input. Otherwise it returns the index of the first matching language, and no earlier language matches. |
| Languages.GetLanguageByLanguageCode | Flow.Launcher.Core/Resource/Internationalization.cs:74-87 | Returns English when no available language's lowered code equals the lowered input. Otherwise it returns the first available language in list order whose lowered code matches. The result is always English or an available language. |
| Languages.LookupIgnoresCase | Flow.Launcher.Core/Resource/Internationalization.cs:76-77 | Looking up a lower-cased code gives the same language as looking up the code as given. |
| Languages.LookupOwnCode | Flow.Launcher.Core/Resource/Internationalization.cs:76-86 | Looking up an available language's code, in any case, gives back that language, provided no earlier language shares the code ignoring case. |
| Resource.LanguageFile | Flow.Launcher.Core/Resource/Internationalization.cs:205-233 | No file when the folder does not exist. Otherwise the requested file when it exists. Otherwise the folder's `en.xaml` when that exists, else no file. Any file returned exists and is one of those two paths. |
| Resource.LanguageFiles | Flow.Launcher.Core/Resource/Internationalization.cs:147-151 | The non-empty results of LanguageFile over the directories. A path is in the result exactly when LanguageFile gives it for some directory. Every such path exists, and there are no more files than directories. |
| Resource.LanguageFilesAppend | Flow.Launcher.Core/Resource/Internationalization.cs:148-151 | The query over two runs of directories equals the two queries concatenated, so the files come in directory order. |
| Resource.ProgramFileLast | Flow.Launcher.Core/Resource/Internationalization.cs:26-33 | With the program's directory added after the plugin directories, the program's file, if any, comes after every plugin file. |
| Resource.PluginLanguageDirectories | Flow.Launcher.Core/Resource/Internationalization.cs:43-59 | A path is a plugin language directory exactly when it is `Languages` under some plugin's known assembly directory. Plugins without a directory are skipped. |
| Resource.GetTranslation | Flow.Launcher.Core/Resource/Internationalization.cs:172-184 | The case split of the lookup: a found string is returned as it is, otherwise the "No Translation for key" message for that key. |
| Resource.MissingTranslationNamesKey | Flow.Launcher.Core/Resource/Internationalization.cs:182 | A small fact about the message text: it is a fixed prefix followed by the key, so different keys give different messages. |
| Sequences.RemoveFirst | Flow.Launcher.Core/Resource/Internationalization.cs:140 | The collection's Remove leaves it unchanged when the element is absent, and one element shorter when it is present. |
| Sequences.RemoveFirstContents | Flow.Launcher.Core/Resource/Internationalization.cs:140 | The collection's Remove takes exactly one copy of the element out of its contents. |
| Sequences.RemoveFirstUnique | Flow.Launcher.Core/Resource/Internationalization.cs:140 | For an element merged at most once, the collection's Remove filters it out entirely. |
| Sequences.RemoveEachIsWithout | Flow.Launcher.Core/Resource/Internationalization.cs:135-142 | When each tracked dictionary is merged at most once, removing them one by one equals filtering all of them out. The untracked dictionaries keep their relative order. |
| Resource.Internationalization.RemoveOldLanguageFiles | Flow.Launcher.Core/Resource/Internationalization.cs:135-142 | The merged list becomes the one-by-one removal of the tracked dictionaries, which equals the old list with every tracked dictionary filtered out. The tracked list itself is not cleared. |
| Resource.MergeFreshKeepsOnce | Flow.Launcher.Core/Resource/Internationalization.cs:157-162 | Merging and tracking a newly created dictionary keeps every tracked dictionary merged at most once. |
| Resource.Internationalization.MergeAndTrack | Flow.Launcher.Core/Resource/Internationalization.cs:157-162 | Appends one fresh dictionary, loaded from the given file, to both the merged and the tracked lists. |
| Resource.Internationalization.LoadLanguage | Flow.Launcher.Core/Resource/Internationalization.cs:144-165 | Appends to both the merged and the tracked lists one fresh dictionary per file of LanguageFiles for `{code}.xaml`, in directory order. Existing entries are unchanged. |
| Resource.Internationalization.LoadDefaultLanguage | Flow.Launcher.Core/Resource/Internationalization.cs:61-65 | Merges English's files and leaves the tracked list empty. The new dictionaries are added to the untracked baseline. |
| Resource.Internationalization.ChangeLanguage | Flow.Launcher.Core/Resource/Internationalization.cs:89-113 | The merged list becomes the old list without the tracked dictionaries, followed by the new language's fresh dictionaries (none for English). Those dictionaries are tracked. With a Settings object the settings' language becomes the language's code and the call completes. Without one the dictionaries are switched all the same, nothing is recorded, and the call reports that it did not complete (the NullReferenceException at line 108). No previously tracked dictionary stays merged, and no untracked one (the baseline among them) is removed. |
| Resource.Internationalization.SwitchDictionaries | Flow.Launcher.Core/Resource/Internationalization.cs:93-97 | The dictionary part of ChangeLanguage, which runs whether or not a Settings object exists. The merged list becomes the old list without the tracked dictionaries, followed by the new language's fresh tracked dictionaries (none for English). |
| Resource.Internationalization.RecordLanguage | Flow.Launcher.Core/Resource/Internationalization.cs:108 | Writes the language code to the settings and reports success. It reports failure and changes nothing when there is no Settings object. |
| Resource.Internationalization.ChangeLanguageByCode | Flow.Launcher.Core/Resource/Internationalization.cs:67-72 | Behaves as ChangeLanguage on GetLanguageByLanguageCode of the code, including the abort without a Settings object. |
| Resource.Internationalization.PromptShouldUsePinyin | Flow.Launcher.Core/Resource/Internationalization.cs:115-133 | None exactly when there is no Settings object (the NullReferenceException at line 119). Otherwise true exactly when pinyin is not already on, the resolved language is Chinese or Chinese_TW, and the answer to that language's question is not No. |
| Resource.Internationalization.AddPluginLanguageDirectories | Flow.Launcher.Core/Resource/Internationalization.cs:43-59 | Appends PluginLanguageDirectories of the plugins' directories to the language directories. |
| Resource.Internationalization.AddFlowLauncherLanguageDirectory | Flow.Launcher.Core/Resource/Internationalization.cs:36-40 | Appends the program's `Languages` directory. |
| Resource.Internationalization.constructor | Flow.Launcher.Core/Resource/Internationalization.cs:26-33 | The directories become the plugin directories followed by the program's directory, last. English is loaded from the plugin directories only. Those dictionaries become the untracked baseline, and the tracked list is empty. |

## Left out

- Culture assignment (`CultureInfo.CurrentCulture` and related calls in `ChangeLanguage`) is operating-system locale state. Apart from the abort noted below, it has no logic of its own.
- `UpdatePluginMetadataTranslations` and the `Task.Run` that starts it are background work calling plugin code that is not part of this model. The possible race with a later switch is not modelled.
- Plugin discovery through `PluginManager` and `Assembly.Location` is out of scope. The directory of each plugin's assembly is an input instead.
- `Log` calls, `NonNull` checks and `LoadAvailableLanguages` are not modelled. `LoadAvailableLanguages` only returns the `AvailableLanguages` list, which is an input here. The `AvailableLanguages` class is not part of this model.
- WPF's `ResourceDictionary` loading from a URI, `TryFindResource` and `MessageBox.Show` are not modelled. A dictionary is an object that records its source path. The resource lookup and the dialog answer are inputs.
- Real `Path.Combine`, `Directory.Exists` and `File.Exists` are abstracted to an injective join and two sets of existing paths. Those sets are fixed during one operation.
- Other code that edits `MergedDictionaries` between calls is assumed not to merge a tracked dictionary a second time; `Valid()` requires this.
- Languages.Lower: lower-cases ASCII letters only. Culture-specific rules, such as the Turkish dotted I, are not modelled.
- Resource.Internationalization.ChangeLanguage: compares the language with English by value, where C# `language != AvailableLanguages.English` compares `Language` objects by reference. They differ on a caller-built `Language("en", "English")`: C# then loads and tracks the `en.xaml` of every language directory, and the model loads nothing.
- Resource.Internationalization.ChangeLanguage: a failing `CultureInfo.CreateSpecificCulture` for an unknown code aborts the switch after the dictionaries changed and before `Settings.Language` is written. The model has no culture lookup and always goes on to the settings write.
- Resource.Internationalization.ChangeLanguageByCode: always passes a language from the available table or English itself, so the reference comparison above agrees with the value comparison when no other entry of the table has English's code and display name. The culture-lookup abort above applies to this method too.
- Resource.Internationalization.PromptShouldUsePinyin: compares the resolved language with Chinese and Chinese_TW by value, where C# compares references. The resolved language always comes from the available table or is English. So the two agree when no two entries of the table have the same code and display name.
- `Plugins/HelloWorldPython/main.py` is a demo plugin that returns a fixed result. It has no logic to model.

# lib-iitc-manager in Dafny

A model of the core of lib-iitc-manager. This library lets a browser extension
download IITC (Ingress Intel Total Conversion) and its plugins and keep them in
the extension's storage. The model covers:

- the `==UserScript==` header parser, plugin uids and the Ingress-site check of
  the helper module;
- the `@match`/`@include` URL matcher;
- the two update engines, the `Worker` class and the older `Manager` class. The
  model covers their settings, the per-channel storage keys, their update
  decisions, the catalogue (`meta.json`) and how the plugin layers are merged;
- the manager's plugin edits (`managePlugin`, `addUserScripts`);
- backup export and import;
- the storage migration;
- the in-memory store used by the tests.

Every operation is a pure function of what it reads: the answer `storage.get`
gave, the current time, and an oracle for the network. An operation returns
what it hands to `storage.set` (a sequence of objects), the timer it arms and
whether it failed. It does not perform any of these effects.

| file | module | models |
|---|---|---|
| `wrappers.dfy` | `Wrappers` | `Option` (undefined / present) and `Result` (value / thrown error) |
| `text.dfy` | `Text` | the string built-ins the code relies on (`startsWith`, `split(c)[0]`, `replace` with a string pattern, `\s`, `\w`) |
| `json.dfy` | `Json` | stored values as JSON, JavaScript truthiness, `Number(…)`, `parseInt`, `!==` |
| `helpers.dfy` | `Helpers` | `getUID`, `check_url_match_pattern`, `check_meta_match_pattern` |
| `meta_header.dfy` | `MetaHeader`, `MetaHeaderFacts` | `parseMeta` and facts about the keys it produces |
| `matching.dfy` | `Matching` | `check_matching`, `testMatch`, `testInclude`, `str2RE`, `matchScheme`, `matchHost`, `matchPath` |
| `network.dfy` | `Network` | `ajaxGet` and the retry loop of `_getUrl` |
| `storage.dfy` | `Storage` | the storage API (`get` / `set`) and the test store |
| `channels.dfy` | `Channels` | `_save` / `#save`: which keys are filed under the channel |
| `schedule.dfy` | `Schedule` | the check interval, the due test and the decision shared by both engines |
| `catalog.dfy` | `Catalog` | `_getPluginsFlat`, `_getCategories`, `_rebuildingCategories`, `_rebuildingArrayCategoriesPlugins`, `_updateLocalPlugins`, `_updateExternalPlugins` |
| `worker.dfy` | `Worker` | `_init`, `_syncStorage`, `_checkInternalUpdates`, `_updateInternalIITC`, `_checkExternalUpdates` |
| `manager.dfy` | `Manager` | `#save`, `checkUpdates`, `#downloadMeta`, `#getPluginsFlat`, `#updateLocalPlugins`, `#rebuildingArrayCategoriesPlugins`, `#checkExternalUpdates` |
| `plugin_edits.dfy` | `PluginEdits` | `managePlugin`, `addUserScripts` |
| `backup.dfy` | `Backup` | `paramsProcessing`, the three exports, `importIitcSettings`, `importExternalPlugins` |
| `migrations.dfy` | `Migrations` | `migrate`, `migration_0001` |

Two kinds of store appear. A browser store leaves a missing key out of the
answer to `get`, so the key reads as `undefined`. The test store answers `null`
for it. The code compares with `isSet`, `=== null` and `typeof … ===
'undefined'`, so several decisions differ between the two stores. The model
keeps both (`Storage.BrowserGet`, `Storage.ReadKeys`) and states the differences
as lemmas.

## Model

| member | source | states |
|---|---|---|
| Helpers.GetUID | src/helpers.js:85-96 | No uid exists when fewer than two of id, filename, name and namespace are truthy. Otherwise the uid is the last two present fields, in that order, joined by '+'. |
| Helpers.UidHasSeparator | src/helpers.js:93-95 | Every uid contains '+'. A uid can never be a category name or the text "null". |
| Helpers.UidDependsOnIdentityFieldsOnly | src/helpers.js:88-91 | Two records that agree on id, filename, name and namespace have the same uid (or both have none), whatever else they hold. |
| Helpers.CheckUrlMatchPattern | src/helpers.js:98-111 | For the intel domain, a pattern matches exactly when it targets intel.ingress.com or (www.)ingress.com/intel under http, https or `*`. For the missions domain, exactly when it targets missions.ingress.com. For '<all>', exactly when it targets either site. Any other domain never matches. |
| Helpers.IntelAndMissionsExclusive | src/helpers.js:98-111 | No pattern targets both the intel map and the missions site. |
| Helpers.CheckMetaMatchPattern | src/helpers.js:116-128 | A descriptor targets the domain exactly when some entry of its match list or its include list targets it. |
| Helpers.StringListNeverMatches | src/helpers.js:117-125 | A match or include value that is a single string is iterated character by character, and no single character names a site. |
| Helpers.NoListsNoMatch | src/helpers.js:116-128 | Without match and include lists, a plugin never targets an Ingress site. |
| MetaHeader.LastClosing | src/helpers.js:5 | Finds the last closing `// ==/UserScript==` line in a range, or reports that there is none. The greedy header expression ends its block there. |
| MetaHeader.HeaderText | src/helpers.js:5-20 | There is header text exactly when the code holds an opening marker followed, somewhere later, by a closing line. |
| MetaHeader.ParseMeta | src/helpers.js:17-47 | The result is undefined exactly when there is no header block. Otherwise each list key (include, exclude, match, excludeMatch, require, grant) holds all its values in source order. Every other key holds its last value. |
| MetaHeader.CollectSpec | src/helpers.js:23-45 | The directive loop plus the homepage fallback produce exactly the descriptor `ParseMeta` promises. |
| MetaHeader.CollectList | src/helpers.js:33-37 | A list key holds every value of its directives, in order, or is absent when there are none. |
| MetaHeader.CollectScalar | src/helpers.js:38-39 | A non-list key holds the value of its last directive. |
| MetaHeader.WithHomepageOnlyTouchesHomepageUrl | src/helpers.js:45 | The homepage fallback changes no key other than homepageURL. |
| MetaHeaderFacts.HomepageFallback | src/helpers.js:45 | homepageURL is taken from homepage only when homepageURL is missing or empty and homepage is set. |
| MetaHeaderFacts.CamelCaseKeepsPlainKeys | src/helpers.js:26 | A key without '-' or '_' keeps its name. |
| MetaHeaderFacts.CamelCaseJoins | src/helpers.js:26 | A '-' or '_' before a word character is dropped and that character upper-cased. |
| MetaHeaderFacts.LocaleLowerCased | src/helpers.js:25-27 | `@name:LOCALE` is stored under the camel-cased name, ':' and the lower-cased locale. |
| MetaHeaderFacts.KeyWithoutLocale | src/helpers.js:25-27 | A key without ':' is only camel-cased. |
| MetaHeaderFacts.StripsLowerCasePrefix | src/helpers.js:30-32 | A name that starts with 'IITC plugin: ' loses that prefix, then the first 'IITC Plugin: ' in the rest, if any. |
| MetaHeaderFacts.NamesWithoutPrefixKept | src/helpers.js:30-32 | A name containing neither prefix is kept as written. |
| MetaHeaderFacts.ExcludeMatchKey | src/helpers.js:12-26 | `@exclude-match` is stored under 'excludeMatch', which is a list key. |
| MetaHeaderFacts.NoKeyIsDashedExcludeMatch | src/helpers.js:25-27 | No directive is ever stored under 'exclude-match'. |
| MetaHeaderFacts.ParsedHasNoDashedExcludeMatch | src/helpers.js:17-47 | A parsed descriptor never holds the key 'exclude-match'. |
| Matching.GlobLiteral | src/matching.js:32-35 | A wildcard without `*` matches only its own text. |
| Matching.GlobStarAlone | src/matching.js:32-35 | `*` alone matches every text without a line terminator. |
| Matching.GlobStarThenLiteral | src/matching.js:32-35 | `*` followed by a literal matches exactly the texts that end with the literal and have no line terminator before it. |
| Matching.GlobLiteralThenStar | src/matching.js:32-35 | A literal followed by `*` matches exactly the texts that start with the literal and continue without a line terminator. |
| Matching.SplitUrl | src/matching.js:4 | A successful split found a '://'. Its scheme and path hold no line terminator and its host holds no '/'. |
| Matching.SplitUrlRoundTrip | src/matching.js:4 | Splitting `scheme://host/path` gives back the scheme, the host and the path. |
| Matching.MatchScheme | src/matching.js:87-93 | Rule `*` accepts http and https in any case (and `*` itself). Any other rule must equal the scheme. |
| Matching.MatchHost | src/matching.js:95-108 | `*` accepts every host. `*.domain` accepts the domain itself and every host ending in '.domain'. Any other rule must equal the host. |
| Matching.SubdomainHostExamples | src/matching.js:100-105 | `*.example.com` accepts example.com and any sub-domain of it. |
| Matching.MatchRule | src/matching.js:74-85 | '<all_urls>' accepts every URL. Any other rule rejects a URL when the rule or the URL does not split into scheme, host and path. |
| Matching.TestMatch | src/matching.js:62-72 | True exactly when some match rule accepts the URL. |
| Matching.TestInclude | src/matching.js:40-57 | True exactly when some wildcard include rule matches the URL. |
| Matching.TestMatchMonotone | src/matching.js:62-72 | Adding match rules never turns a match into a miss. |
| Matching.TestIncludeMonotone | src/matching.js:40-50 | Adding include rules never turns a match into a miss. |
| Matching.CheckRules | src/matching.js:13-30 | An exclude-match or exclude rule vetoes the URL. Without a veto, it is accepted exactly when a match or include rule accepts it, or neither list exists and the URL is '<all_ingress>'. |
| Matching.AllUrlsAcceptsEverything | src/matching.js:76 | With '<all_urls>' among the match rules, only the exclusions decide. |
| Matching.ExcludeMatchDirectivesIgnored | src/matching.js:16 | On a parsed descriptor the exclude-match list `check_matching` reads is always empty. Its answer then depends only on match, include and exclude. |
| Matching.ExcludeMatchDirectiveVetoes | src/matching.js:13-30 | Reading the list where the parser puts it ('excludeMatch'), an `@exclude-match` directive that matches the URL vetoes it. |
| Matching.ExcludeMatchDirectiveListed | src/helpers.js:33-37 | Every `@exclude-match` value of a header is among the rules the corrected reading finds. |
| Network.AjaxGet | src/helpers.js:49-73 | `ajaxGet` never throws. A failed request yields null. |
| Network.AjaxGetRaising | src/worker.js:282-287 | A request helper whose failures escape throws exactly when the request fails. |
| Network.Backoff | src/worker.js:260-262 | No pause before the first attempt. Attempt n > 1 waits n² seconds, capped at one day. |
| Network.BackoffGrows | src/worker.js:260-262 | The pauses never shrink as the attempt count grows. |
| Network.GetUrl | src/worker.js:259-289 | One wait per attempt made, and never more attempts than given. Without a retry counter a single attempt is made, with no pause: a throw yields null, and otherwise its response is returned. The result is unknown only when the attempts ran out, each having thrown under a retry counter. |
| Network.FirstAnswer | src/worker.js:275-287 | The index of the first attempt that does not throw, or -1 when all throw. |
| Network.RetrySchedule | src/worker.js:259-289 | With a retry counter n, pause j is Backoff(n + j). The result is the response of the first attempt that does not throw, reached after exactly that many attempts. |
| Network.RetriesNeverHappen | src/worker.js:276-287 | With the real `ajaxGet`, a failed request is attempted once and yields null instead of a retry, whether started with `true` or without a retry counter. |
| Network.RetriesWithRaisingHelper | src/worker.js:259-289 | With a helper that lets failures escape, failed requests are retried with the growing pauses until the first answer. |
| Storage.Read | test/storage.js:23-26 | A stored key reads its value. A key never written reads null. |
| Storage.Write | test/storage.js:77-86 | `set` writes every entry of the object and keeps every other key. |
| Storage.ReadKeys | test/storage.js:61-67 | Reading a list of keys from the test store answers every key, null when it is missing. |
| Storage.BrowserGet | src/worker.js:217 | A browser store answers only the keys it holds, so a missing key reads undefined. |
| Storage.GetsDifferOnMissingKeys | test/storage.js:23-26 | The two stores agree on a stored key. On a missing key the browser store gives undefined and the test store null. |
| Storage.WritesCommute | test/storage.js:77-86 | Writes of disjoint keys can be done in either order. |
| Storage.WriteTwice | test/storage.js:77-86 | Writing a and then b is writing a + b, b winning. |
| Storage.WriteAgain | test/storage.js:77-86 | Writing the same object again changes nothing. |
| Storage.OneToArray | test/storage.js:11-16 | A single key becomes a one-element list. Anything else is left alone. |
| Storage.GetOne | test/storage.js:23-33 | A missing key reads null. Stored text is parsed as JSON when it parses and returned as text otherwise. |
| Storage.CellOf | test/storage.js:40-45 | Strings are stored as text and every other value serialised. |
| Storage.SetOne | test/storage.js:40-45 | Stores the key's cell and keeps every other key. |
| Storage.TestGet | test/storage.js:53-71 | `get(null)` reads every stored key, `get(key)` that key, and `get(list)` every listed key. Each value is read by `_get_one`. |
| Storage.TestSet | test/storage.js:77-86 | Each entry goes through `_set_one`. Other keys are kept. |
| Storage.Reset | test/storage.js:91-95 | After `resetStorage` every key reads null. |
| Storage.SetThenGet | test/storage.js:23-45 | A non-string value reads back as written. A string reads back as written exactly when `JSON.parse` rejects it or parses it to itself. |
| Storage.SetKeepsOthers | test/storage.js:77-86 | `set` leaves the keys it is not given as they read before. |
| Storage.View | test/storage.js:23-33 | The test store, seen as values, reads each key as `_get_one` does. |
| Storage.TestStoreAgrees | test/storage.js:23-86 | When every string written survives `JSON.parse`, the test store answers exactly as the store the library assumes. |
| Storage.TestGetIsReadKeys | test/storage.js:61-67 | Reading a list of keys from the test store is `ReadKeys` on what it holds. |
| Channels.Save | src/worker.js:235-245 | Every option lands under its storage key with its value, and nothing else is written. Channel fields are prefixed with the channel, other keys kept as they are. |
| Channels.SaveOne | src/worker.js:222 | Saving one option writes exactly one key. |
| Channels.ChannelKeySplit | src/worker.js:239 | Two channel keys can coincide only when the channels and fields are equal, or one field ends in '_' followed by the other. |
| Channels.ChannelKeyInjective | src/worker.js:238-239 | For the fields either engine files under a channel, different channels or different fields never share a storage key. |
| Channels.ChannelKeyNotGlobal | src/worker.js:238-241 | Whatever the channel is called, a channel key never equals a key saved without a prefix. |
| Channels.NoFieldEndsInAnother | src/worker.js:238 | No field name ends with '_' followed by another field name. |
| Channels.NoGlobalKeyEndsInAField | src/worker.js:238-241 | No key saved without a prefix ends with '_' followed by a field name. |
| Channels.SaveThenRead | src/worker.js:235-245 | After a save, each option reads back under its storage key and every other key is unchanged. |
| Channels.SaveLeavesOtherChannels | src/worker.js:235-245 | Saving one channel's fields leaves every other channel's fields as they were. |
| Channels.FieldsSaveDistinct | src/manager.js:49-69 | Options that are all channel fields, or all global keys, never collide when saved. |
| Schedule.IntervalSeconds | src/worker.js:310-311 | The interval is the stored number of hours in seconds. It is a day when that value is 0 or not a number, and it is never 0. |
| Schedule.Decide | src/worker.js:330-342 | Time is stamped exactly when a branch ran or no timer was pending. A check is scheduled exactly when time is stamped and the engine is a daemon. |
| Schedule.DueAgainAfterInterval | src/worker.js:319-320 | After a check stamped at t, the next is due exactly from t + interval. |
| Schedule.PlanCheck | src/worker.js:313-342 | Something missing downloads at once. Otherwise, a due or forced check asks for Last-Modified and downloads when the header differs from the stored one or the check is forced. Otherwise nothing is downloaded. Stamp and timer as in `Decide`. |
| Schedule.ForcedCheckDownloads | src/worker.js:320-327 | A forced check always downloads the catalogue. |
| Catalog.LayerValue | src/worker.js:381-388 | A layer stored as an object reads back as the same plugins. |
| Catalog.StoredLayer | src/worker.js:535 | A layer is present exactly when it is neither null nor undefined, and it is the stored object. |
| Catalog.UidKey | src/worker.js:432-435 | A plugin is filed under the text of its uid ("null" when it has none). |
| Catalog.UidKeyNotRetired | src/helpers.js:93-95 | A uid key is never 'Obsolete' or 'Deleted'. |
| Catalog.CategoryEntries | src/worker.js:430-435 | Every entry of a category is stamped: uid, status 'off', its category. |
| Catalog.Entries | src/worker.js:426-437 | Every entry of every category is stamped. Retired categories are left out when asked. |
| Catalog.EntriesCover | src/worker.js:426-437 | Every plugin of an offered category has an entry. |
| Catalog.LastWins | src/worker.js:435 | Assigning entries in order keeps, for each key, the last entry with that key. |
| Catalog.PluginsFlat | src/worker.js:421-440 | Every flat-list entry is keyed by the text of its uid, has status 'off' and names its category. With retired categories skipped, no entry comes from 'Obsolete' or 'Deleted'. |
| Catalog.Categories | src/worker.js:401-412 | One entry per category name, holding the category's own fields without its plugin list. Empty when the catalogue has no categories. |
| Catalog.FieldsOf | src/worker.js:401-412 | The fields of the first category with a given name. |
| Catalog.NamedCategories | src/worker.js:559-575 | Exactly the categories the user scripts are listed under, 'Misc' for a script without one. |
| Catalog.RebuildCategories | src/worker.js:559-575 | Every category a user script names exists afterwards. Existing entries are kept. Each added entry is a new `{name, description: ''}` that some script names. |
| Catalog.AddedNothing | src/worker.js:566-571 | Nothing is added for categories that already exist. |
| Catalog.RebuildCategoriesIdempotent | src/worker.js:559-575 | Rebuilding the categories a second time changes nothing. |
| Catalog.WithLocalStatus | src/worker.js:592-594 | An installed plugin's status replaces the catalogue's and every other field is kept. |
| Catalog.Overridden | src/worker.js:599-606 | A catalogue plugin overridden by a user script takes the script's status and is marked as a user script. |
| Catalog.MarkedUser | src/worker.js:604-605 | A user script not in the catalogue keeps its status and is marked as a user script. |
| Catalog.MergeLayers | src/worker.js:586-611 | The merge fails exactly when an installed plugin is not in the catalogue. Otherwise the flat list holds the catalogue and the user scripts. A user script's entry is marked and carries the script's status. Every other entry keeps its catalogue fields except the status, which comes from the installed copy when there is one. |
| Catalog.LocalLoop | src/worker.js:592-594 | The installed-plugins loop fails only with a TypeError. |
| Catalog.LocalLoopSpec | src/worker.js:592-594 | The installed-plugins loop succeeds exactly when every installed plugin is in the catalogue, and then only their statuses change. |
| Catalog.UserLoopFlat | src/worker.js:597-607 | The user-scripts loop leaves the same flat list whatever the key order. |
| Catalog.UserLoopSaved | src/worker.js:597-607 | The loop marks, in the saved layer, exactly the user scripts the catalogue lacks. |
| Catalog.MergeOrderIrrelevant | src/worker.js:586-611 | The two loops, run in any key order, give exactly `MergeLayers`. |
| Catalog.UpdateLocalPlugins | src/worker.js:533-550 | When the installed layer is unset the result is empty. A plugin stays installed exactly when it has a file name and is still offered. Its code is replaced only by a successful download from `/plugins/<filename>`, and every other field is kept. |
| Catalog.RefreshedLayersMerge | src/worker.js:378-380 | After the refresh every installed plugin is offered, so the merge cannot fail. |
| Catalog.ScriptUpdate | src/worker.js:497-510 | A user script is updated only when both URLs are set, the descriptor downloads and parses, it announces a different version, and the code downloads. The new record is that descriptor with the code. |
| Catalog.UpdateExternalWith | src/worker.js:488-522 | Something is saved exactly when some user script was updated. Every script is replaced by its update or kept. |
| Catalog.UpdatedCodeIsTheDescriptor | src/worker.js:505 | As written, an updated script's "code" is whatever the update URL serves, i.e. the descriptor file again. |
| Catalog.FixedUpdateDownloadsTheScript | src/worker.js:497-510 | Downloading from `downloadURL`, an updated script's code is the script served there, and its descriptor still comes from `updateURL`. |
| Worker.SyncValue | src/worker.js:212-224 | The configured value wins, then the stored one, then the default. Only undefined counts as missing. |
| Worker.SyncStorage | src/worker.js:212-224 | The value is saved under its own key, unprefixed on every channel. |
| Worker.GlobalKeySavedAsIs | src/worker.js:238-241 | A key never filed under a channel is saved as it is, whatever the channel. |
| Worker.Init | src/worker.js:186-199 | Writes exactly channel, network_host and is_daemon with the settings chosen. Each configured setting wins. |
| Worker.InitPersists | src/worker.js:186-224 | After a start, a restart without configuration on either store finds and keeps the same settings, and writing them again changes nothing. |
| Worker.SettingsPersist | src/worker.js:186-224 | `InitPersists` for the settings s and the object that saves them. |
| Worker.InitFindsItsWrites | src/worker.js:212-219 | A start without configuration that finds every setting keeps it and writes it back. |
| Worker.SettingsReadBack | src/worker.js:217 | What a store holds after the settings are written reads back on either store. |
| Worker.InitDefaults | src/worker.js:186-199 | On an empty browser store, without configuration, the settings are 'release', the default hosts and daemon mode. |
| Worker.InitOnEmptyTestStore | src/worker.js:212-219 | On an empty test store every setting reads null, which is not undefined, so no default is used. |
| Worker.PlanInternal | src/worker.js:299-343 | Downloads at once when the Last-Modified value or the last-check time is unset (null or undefined). Otherwise asks for the header when due or forced, and downloads when it differs or the check is forced. A forced check always downloads. |
| Worker.UnchangedHeaderNoDownload | src/worker.js:324-327 | An unchanged Last-Modified header without force does not download the catalogue again. |
| Worker.CoreUpdate | src/worker.js:366-375 | Nothing is saved when the script does not download. A script without a header block fails with a TypeError. Otherwise `iitc_core` holds the header fields plus the code. |
| Worker.Installed | src/worker.js:378 | Only plugins the catalogue still offers stay installed, so the merge succeeds. |
| Worker.MergedLayers | src/worker.js:380 | The flat list holds the offered plugins and the user scripts. The user layer keeps its scripts. |
| Worker.Refresh | src/worker.js:358-380 | Once a catalogue is downloaded, every user script's category exists (see Left out for names inherited from `Object.prototype`). The installed plugins are offered ones. The flat list holds the offered plugins and the user scripts. |
| Worker.PluginOptions | src/worker.js:381-388 | The plugins task saves the version, Last-Modified, categories and the three layers, never `iitc_core`. |
| Worker.PluginsUpdate | src/worker.js:377-389 | Every option of the plugins task is saved under the channel, and nothing else. |
| Worker.PluginsUpdateSaves | src/worker.js:377-389 | The saved flat list is offered plugins plus user scripts, installed plugins are offered ones, every user script's category exists, and Last-Modified is stored. |
| Worker.UpdateInternalIITC | src/worker.js:354-392 | Nothing happens when the catalogue does not download. Otherwise both tasks run. |
| Worker.TasksCommute | src/worker.js:391 | The two tasks write disjoint keys, so their order does not matter. |
| Worker.CoreKeys | src/worker.js:371-373 | The IITC task writes only `iitc_core`. |
| Worker.PluginsAvoidCore | src/worker.js:381-388 | The plugins task never writes `iitc_core`. |
| Worker.CoreWrites | src/worker.js:368-374 | The IITC task saves at most one object. |
| Worker.InternalRound | src/worker.js:317-342 | A check fails exactly when the IITC task fails. Otherwise the time is stamped last and the next check scheduled as decided. |
| Worker.CheckInternalUpdates | src/worker.js:299-343 | The timer stays pending only on a check that was not due. Any timer armed runs this check again. |
| Worker.CheckWithoutDownload | src/worker.js:330-342 | Without a download, a check saves at most its time and schedules as decided. |
| Worker.CheckFails | src/worker.js:299-343 | A check fails exactly when it downloads the catalogue and the IITC task fails. |
| Worker.CheckStamps | src/worker.js:330-342 | A check that did not fail stamps the time last whenever it stamps. It schedules exactly when it did not fail and rescheduling was decided. |
| Worker.ExternalCheck | src/worker.js:450-478 | Runs when due or forced. It saves the user scripts when one was updated, with the new code fetched from the given field (`updateURL` as written), then stamps the time unless a timer is pending, and reschedules this same check for a daemon. |
| Worker.ExternalCheckCode | src/worker.js:450-478 | As written, a forced check that updates a user script saves it with the text served at its `updateURL` as its code, then stamps the time. |
| Worker.SaveUserScripts | src/worker.js:516-520 | The user scripts are saved under the channel. |
| Worker.FirstCheckDownloads | src/worker.js:313-317 | On a store that holds nothing, the first check downloads the catalogue, on either store. |
| Worker.FirstExternalCheckDependsOnStore | src/worker.js:458-459 | On a store that never saved a check, the test store's null counts as time 0 so the check runs. The browser store's undefined makes the difference NaN, so it does not. |
| Manager.SaveOptions | src/manager.js:49-69 | Manager fields are saved under the channel and other keys as they are. Nothing else is written. |
| Manager.CodeKeyDiffers | src/manager.js:56 | The manager files `iitc_code` under the channel. The worker would save the same option unprefixed. |
| Manager.CodeFieldIsTheManagers | src/manager.js:53-61 | `iitc_code` is a manager field and not a worker field. |
| Manager.AdoptIdempotent | src/manager.js:142-143 | Adopting the stored channel and local host a second time changes nothing. |
| Manager.AdoptChannel | src/manager.js:281 | A truthy stored channel replaces the current one; nothing else changes. |
| Manager.PlanCheckUpdates | src/manager.js:111-190 | Downloads at once only when Last-Modified or the last-check time reads null. An undefined one counts as present and is never due. On the 'local' channel the interval is five seconds. |
| Manager.CheckDecisionsAgree | src/manager.js:145-176 | Off the 'local' channel, and with both values read, the manager decides as the worker does. |
| Manager.FreshBrowserStoreWaitsForForce | src/manager.js:150-163 | On an empty browser store the manager downloads nothing until forced, while the worker downloads at once. |
| Manager.NullAsEmpty | src/manager.js:532-533 | null becomes an empty layer and undefined stays undefined. |
| Manager.UpdateLocal | src/manager.js:353-370 | An undefined installed layer is a TypeError. Otherwise the worker's refresh applies. |
| Manager.DropRetired | src/manager.js:535-536 | The flat list loses the keys 'Obsolete' and 'Deleted' and nothing else. |
| Manager.RebuildPlugins | src/manager.js:525-559 | Fails exactly when the user layer is undefined or an installed plugin is not offered. Otherwise it is the worker's merge of the list without those keys. |
| Manager.RebuildAgreesWithWorker | src/manager.js:525-559 | On a flat list without retired keys, the manager's merge is the worker's. |
| Manager.RetiredPluginsStayListed | src/manager.js:535-536 | A plugin of the 'Obsolete' category stays in the manager's list after the deletes. The worker's list never holds one. |
| Manager.RefreshWith | src/manager.js:216-224 | The plugins task fails unless both layers are stored (objects or null). Installed plugins must be in the flat list. The merged flat list is that list plus the user scripts; as written (`RefreshPlugins`) the list keeps the retired categories. |
| Manager.RefreshListsRetired | src/manager.js:216-268 | As written, a plugin of the catalogue's 'Obsolete' category is in the flat list a successful refresh saves. With retired categories skipped, no entry comes from 'Obsolete'. |
| Manager.PluginOptions | src/manager.js:225-232 | The plugins task saves the version, Last-Modified, categories and the three layers, never `iitc_code`. |
| Manager.CodeWrites | src/manager.js:205-214 | The downloaded script is saved as text under `iitc_code`, and nothing when it does not download. |
| Manager.DownloadMeta | src/manager.js:192-236 | Nothing is saved when the catalogue does not download. A download fails exactly when the plugins task fails. |
| Manager.DownloadMetaWrites | src/manager.js:205-235 | The writes are IITC's code, if it downloaded, and, when the plugins task succeeds, one object of its options under the channel; a null user layer is saved as null. The two touch disjoint keys, so their order does not matter. |
| Manager.FirstDownloadFailsOnBrowserStore | src/manager.js:202-203 | On an empty browser store the layers are undefined, so the first download fails. |
| Manager.FirstDownloadOnTestStore | src/manager.js:202-203 | On an empty test store the first download succeeds, and the user layer is saved as null. |
| Manager.CheckUpdates | src/manager.js:111-190 | The stored channel and host are adopted. The timer stays pending only on a check that was not due, and any timer armed runs this check. |
| Manager.CheckRound | src/manager.js:177-189 | A round fails exactly when its download failed. It stamps the time last and schedules as decided. |
| Manager.CheckUpdatesWithoutDownload | src/manager.js:177-189 | Without a download, a check saves at most its time and schedules as decided. |
| Manager.CheckUpdatesFails | src/manager.js:111-190 | A check fails exactly when it downloads the catalogue and the plugins task fails. |
| Manager.ExternalRound | src/manager.js:270-311 | Adopts only the stored channel. Runs when due or forced. It saves the updated user scripts, with the new code fetched from the given field (`updateURL` as written), stamps the time unless a timer is pending, and arms the given timer for a daemon. |
| Manager.ExternalRoundKeepsHosts | src/manager.js:270-281 | The check of the user scripts leaves the hosts as they were and adopts the channel as every check does. |
| Manager.SaveUserScripts | src/manager.js:345-349 | The user scripts are saved under the channel. |
| Manager.ExternalTimerChecksCatalogue | src/manager.js:303-306 | As written, a daemon's timer after a check of the user scripts runs the check of the catalogue. |
| Manager.FixedExternalCheckIsTheWorkers | src/manager.js:270-311 | With its timer fixed, the manager's check of the user scripts is the worker's on the adopted channel, whichever field the code comes from. |
| PluginEdits.ManagePlugin | src/manager.js:372-458 | An unknown action changes nothing. Any action on a plugin not in the flat list is a TypeError. 'off' and 'delete' always save when they succeed. |
| PluginEdits.EditOptions | src/manager.js:405-456 | An edit saves the flat list, the installed layer and, when asked, the user layer. |
| PluginEdits.ManagePluginWrites | src/manager.js:372-458 | At most one save, made exactly when the action succeeded with an edit. |
| PluginEdits.SwitchKeepsLayersInSync | src/manager.js:386-442 | After 'on' or 'off' the flat list and the plugin's own layer (user scripts or installed plugins) carry the same status. |
| PluginEdits.TurnOnInSync | src/manager.js:386-428 | 'on' leaves the flat entry and its own layer both 'on'. |
| PluginEdits.TurnOffInSync | src/manager.js:429-442 | 'off' leaves the flat entry and its own layer both 'off'. |
| PluginEdits.ManagePluginIsLocal | src/manager.js:372-458 | Every action leaves every other plugin, in every layer, as it was. |
| PluginEdits.TurnOnIsLocal | src/manager.js:386-428 | 'on' changes only the named plugin. |
| PluginEdits.TurnOffIsLocal | src/manager.js:429-442 | 'off' always produces an edit and changes only the named plugin. |
| PluginEdits.RemoveIsLocal | src/manager.js:443-457 | 'delete' always produces an edit and changes only the named plugin. |
| PluginEdits.TurnOnInstalls | src/manager.js:410-427 | Switching on a catalogue plugin that is not installed installs it with the downloaded code. It is 'on' in both layers and the downloaded code is injected. |
| PluginEdits.DeleteRemovesScript | src/manager.js:443-457 | The user script is gone. The flat entry stays only for an override, as the installed copy switched off. |
| PluginEdits.SilenceInstalled | src/manager.js:490-495 | An override changes the installed layer only at the plugin's own uid. |
| PluginEdits.AddOne | src/manager.js:479-481 | A script whose header yields no uid fails with the header error. |
| PluginEdits.ScriptCategory | src/manager.js:501-505 | A script new to the flat list is filed under its own category value, or 'Misc' when it names none; for a name this is the catalogue's category of a user script. |
| PluginEdits.AddOneSpec | src/manager.js:476-515 | A script added is listed in the flat list and among the user scripts, marked and 'on' in both with the same code. Earlier additions stay, and the flat and user layers grow by exactly that uid. Existing categories are kept. A script new to the flat list is filed under its category, or 'Misc', which is then listed; one already there marks the entry as an override with its code. |
| PluginEdits.AddOneSucceeds | src/manager.js:476-515 | With every layer an object, a script with a uid is always added. |
| PluginEdits.AddScripts | src/manager.js:476-515 | A script without a uid anywhere in the list makes the whole call fail. |
| PluginEdits.AddScriptsAdds | src/manager.js:476-515 | After a successful run every script is added, and what was added before stays added. Existing categories are kept, and the category of every script new to the flat list is listed. |
| PluginEdits.AddScriptsSucceeds | src/manager.js:476-515 | With every layer an object and every header yielding a uid, adding cannot fail. |
| PluginEdits.AddScriptsOutcome | src/manager.js:476-515 | The facts above, as implications. |
| PluginEdits.BooksOptions | src/manager.js:517-522 | `addUserScripts` saves only manager fields. |
| PluginEdits.AddUserScripts | src/manager.js:460-523 | Fails when some header yields no uid, and succeeds when every layer is an object and every header yields one. On success it saves the four layers with every script added, the existing categories kept and the category of every script new to the flat list listed. |
| PluginEdits.OverrideSilencesInstalled | src/manager.js:489-499 | A user script overriding an installed catalogue plugin that was not 'off' switches the installed copy off and marks the entry as an override. |
| Backup.IndexEntries | src/backup.js:28 | An array spreads into its indices, as text, each mapped to its item. |
| Backup.IndexKeysDistinct | src/backup.js:28 | Two indices never print the same. |
| Backup.ParamsProcessing | src/backup.js:17-29 | The three parts are always present. An object's own keys win, and with any other non-array argument the defaults are returned. |
| Backup.ArrayParamsSelectNothing | src/backup.js:18-28 | An array argument leaves all three parts unselected. |
| Backup.Restrict | src/backup.js:49-53 | Keeps exactly the entries whose keys pass the test, with their values. |
| Backup.ExportIitcSettings | src/backup.js:41-55 | Exactly the listed IITC settings the snapshot holds, with their values. |
| Backup.ExportPluginsSettings | src/backup.js:67-78 | Exactly the entries whose key starts with 'VMin'. |
| Backup.ExportsFollowWrites | src/backup.js:41-78 | Exporting after a write is the earlier export overwritten by the export of what was written. |
| Backup.ExportsDisjoint | src/backup.js:45-73 | The two exports never share a key. |
| Backup.ExportNameIsKeyPrefix | src/backup.js:101 | A channel's user scripts are exported under the channel's own name. |
| Backup.BeforeFirstOf | src/backup.js:101 | The text before the first '_' of `a_b` is a when a has no '_'. |
| Backup.ExportLayer | src/backup.js:105-109 | Every exported key is the file name of some plugin of the channel. |
| Backup.ExportLayerDistinct | src/backup.js:105-109 | With distinct file names, each file name maps to its own plugin's code, whatever the order. |
| Backup.ExportExternalPlugins | src/backup.js:90-114 | One object per channel whose user scripts the snapshot holds, and none for other channels. |
| Backup.ExportedCode | src/backup.js:90-114 | Each exported user script's file name maps to its code. |
| Backup.ImportIitcSettings | src/backup.js:124-136 | The settings are written first. The channel is switched afterwards exactly when the backup's channel is not strictly equal to the current one, so a backup without a channel switches to undefined. |
| Backup.IitcSettingsRoundTrip | src/backup.js:124-136 | Importing an export of the store writes nothing new. It switches channel exactly when the stored channel differs from the current one. |
| Backup.ScriptOf | src/backup.js:194-200 | An entry gives a script exactly when its code has a header block. The script is the parsed descriptor with the file name added, plus the code. |
| Backup.Gather | src/backup.js:194-201 | A successful read gives one script per entry. |
| Backup.GatherFails | src/backup.js:194-201 | Reading succeeds exactly when every entry gives a script. |
| Backup.GatherContents | src/backup.js:194-201 | The i-th script read is the i-th entry's. |
| Backup.EntryScripts | src/backup.js:194-200 | Each entry read as a script, in order. |
| Backup.ScriptsOf | src/backup.js:190-201 | A successful read gives one script per entry. |
| Backup.ScriptsOfFails | src/backup.js:196-197 | A channel's scripts are read exactly when every entry has a header block. Otherwise the `meta['filename']` assignment throws. |
| Backup.ScriptsOfContents | src/backup.js:194-200 | Each script keeps its entry's code and is described by its header with the entry's file name. |
| Backup.Sequence | src/backup.js:188-205 | A completed run makes two calls per channel. |
| Backup.SequenceFails | src/backup.js:188-205 | The run stops exactly when some channel's scripts cannot be read or its `addUserScripts` throws. |
| Backup.SequenceCalls | src/backup.js:191-204 | A completed run switches to each channel in turn and hands it its scripts. |
| Backup.Names | src/backup.js:188 | The backup's channel names, in order. |
| Backup.ParsedChannels | src/backup.js:188-201 | Each channel's scripts, read from its entries. |
| Backup.ImportChannels | src/backup.js:188-205 | A completed import makes two calls per channel. |
| Backup.ImportChannelsFails | src/backup.js:188-205 | An import stops exactly at a channel holding an entry without a header block, or whose `addUserScripts` throws. |
| Backup.ImportChannelsCalls | src/backup.js:191-204 | A completed import switches to each channel in turn and hands it that channel's scripts. |
| Backup.ImportExternalPlugins | src/backup.js:184-212 | Fails exactly when the channel loop fails, and then makes only the loop's calls. Otherwise it makes the loop's calls and at most one switch back. |
| Backup.FinalAfterSwitch | src/backup.js:191-204 | Scripts handed over right after a switch leave the manager on the channel switched to. |
| Backup.SequenceEndsOnLast | src/backup.js:188-205 | A completed run of some channels leaves the manager on the last of them. |
| Backup.ImportEndsOnStartingChannel | src/backup.js:207-211 | A completed import leaves the manager on the channel it started on. |
| Backup.ImportFailsWithoutHeader | src/backup.js:184-212 | An import fails exactly when some entry of the backup has no header block or some channel's `addUserScripts` throws. An entry without a header block fails it whatever the calls do. |
| Backup.AddWithoutUidStops | src/backup.js:194-204 | When a channel's call is `addUserScripts` on the storage of the moment, a channel holding a script whose header yields no uid stops the import. |
| Migrations.FixPlugin | src/migrations.js:39-43 | A user script without a category gets 'Misc' and keeps every other field. Any other entry is unchanged. |
| Migrations.FixLayer | src/migrations.js:36-44 | A layer with a null entry throws. Otherwise each entry of an object or array is fixed in place, and any other value is unchanged. |
| Migrations.Migration0001 | src/migrations.js:34-46 | Fails exactly when some stored layer holds a null entry. Otherwise the same keys come back. |
| Migrations.Migration0001Categories | src/migrations.js:39-43 | Each plugin needing a category gets 'Misc'. Every other plugin is unchanged. |
| Migrations.Migration0001KeepsScalars | src/migrations.js:35-38 | Values that are neither objects nor arrays pass through unchanged. |
| Migrations.FixPluginTwice | src/migrations.js:41-43 | A fixed entry needs no fixing, and a non-null entry stays non-null. |
| Migrations.FixLayerTwice | src/migrations.js:35-45 | A layer the migration accepted comes out unchanged from a second pass. |
| Migrations.Migration0001Idempotent | src/migrations.js:34-46 | Running the migration twice is running it once. |
| Migrations.StartingVersion | src/migrations.js:16-18 | A `storage_version` read as null, with a `lastversion` that is not null (undefined included), counts as version 0. Anything else is left as it is. |
| Migrations.Migrate | src/migrations.js:3-32 | Fails exactly when the first migration is pending and some layer holds a null entry. Otherwise it writes back the keys read, stamps version 1, and reports a migration exactly when one was pending. |
| Migrations.Stamped | src/migrations.js:29 | The store is marked with the version of the last migration, and every other key is kept. |
| Migrations.ParseIntOfNat | src/migrations.js:23 | `parseInt` reads a stored natural number back. |
| Migrations.SpanOfDigits | src/migrations.js:23 | Over a run of digits reaching the end of the text, the span of digits is that run. |
| Migrations.MigrationRunsAfterUpgrade | src/migrations.js:16-27 | A store from before versioning is migrated. |
| Migrations.FreshStoreSkipsMigration | src/migrations.js:16-30 | A fresh store is only stamped with the current version. |
| Migrations.MigrateIdempotent | src/migrations.js:3-32 | Migrating a migrated store changes nothing and runs nothing. |
| Migrations.UpgradeOnTestStore | src/migrations.js:8-27 | On the test store, a store from before versioning is migrated. |
| Migrations.UpgradeSkippedOnBrowserStore | src/migrations.js:8-30 | On a browser store the missing version reads undefined, so the migration is skipped, yet version 1 is stamped. |
| Json.Get | src/worker.js:217 | A key reads as present exactly when the record holds it. |
| Json.SetOpt | src/helpers.js:45 | Assigning a key sets it (to undefined: removes it) and leaves every other key. |
| Json.DigitsRoundTrip | src/migrations.js:23 | A number's decimal text reads back as the number. |
| Text.ReplaceFirst | src/helpers.js:31 | Only the first occurrence of the pattern is replaced. Without one, the text is unchanged. |
| Text.BeforeFirst | src/backup.js:101 | The text before the first occurrence of the separator, or the whole text. |

## Left out

- I/O, timers and clocks are not modelled as effects. Progress bars, `message`, `wait`, `clearWait`, `setTimeout` and `clearTimeout` become parameters (the current time, whether a timer is pending) or results (the timer armed, the objects saved).
- The network is an oracle `fetch: url -> response` (the empty text counts as no response). `ajaxGet`'s HTTP variants and the `?<timestamp>` suffix it appends are not modelled. The catalogue is given already parsed, as a `Catalogue` value.
- The callbacks `inject_user_script`, `inject_plugin` and `progressbar` are outside the model. `managePlugin`'s injected code is returned in the edit.
- `Manager.run` and the `lastversion` bookkeeping it does are left out because they read the package version from disk. `migrate` is modelled on its own.
- `getUniqId` is left out because it draws on `performance.now()` and `Math.random()`.
- `importPluginsSettings` is left out because it relies on the `deepmerge` package, which is not part of this model.
- `setChannel` and `addUserScripts` are recorded as calls by the backup import, not performed. Whether each channel's `addUserScripts` throws is a parameter of the import (`adds`); `Backup.AddWithoutUidStops` ties it to `PluginEdits.AddUserScripts`. Channel switching itself is not part of this model.
- `Promise.all` of the IITC task and the plugins task is modelled as one task after the other. `Worker.TasksCommute` shows their writes commute.
- Numbers are integers. Fractional intervals, fractional timestamps and floating point are not modelled.
- Case mapping covers ASCII only (`toLowerCase`, `toUpperCase` and the `/i` flag).
- Object key order (`Object.keys`, `for … in`) is given as an explicit sequence where it matters: the catalogue's categories and plugins, the backup's channels and entries, and the loop orders in `Catalog.MergeLoops` and `Backup.ExportLayer`.
- Keys holding `undefined` are modelled as absent: a save of an option that is `undefined` (in practice only `iitc_version`, when the catalogue names none; src/worker.js:382, src/manager.js:226) keeps the earlier value. A browser store leaves such keys out likewise, but the test store writes `JSON.stringify(undefined)` under the key, so a later read there yields `undefined` instead of the earlier version.
- Catalog.RebuildCategories, PluginEdits.AddOne, PluginEdits.AddOneSpec, PluginEdits.AddScriptsAdds, PluginEdits.AddUserScripts, Worker.Refresh: objects are modelled as maps without a prototype chain. The test `category in categories` (src/worker.js:566, src/manager.js:506) is also true for a name inherited from `Object.prototype` (`toString`, `constructor`, `hasOwnProperty`, `__proto__`, …), so the code creates no `{name, description: ''}` entry for a user script filed under such a name, while the model creates one. The promise that every category a user script names is listed afterwards holds only for other names.
- Matching.TestInclude: include and exclude rules written as regular expressions (`/…/`) are excluded by its precondition, because a general regular-expression engine is not part of this model.
- Matching.MatchHost, Matching.MatchRule, Matching.TestMatch and Matching.CheckRules: wildcards containing a character that `str2RE` leaves as regular-expression syntax (`\ ^ $ + ( ) [ ] { } |`) are excluded by their preconditions, for the same reason.
- Catalog.StoredLayer and every member requiring `LayerOrUnset`, `ChannelLayersOk`, `Manager.LayersOk`, `PluginEdits.EditLayersOk` or `Backup.PluginsOnly`: a stored layer that is neither undefined, null nor an object of plugin records (a number, say) is excluded. The engines only ever store such objects.
- Catalog.PluginsFlat and Catalog.Categories require `WellFormed`: category names are distinct and a category's `plugins` is held apart from its fields. A parsed JSON object always has this shape.
- Storage.TestGet and Storage.TestSet: arguments of the wrong type (a `get` key that is neither null, a string nor an array; a `set` argument that is not an object) only log an error in the test store. They cannot be expressed with the argument types used here.
- Channels.Save requires the options to map to distinct storage keys, and Manager.SaveOptions requires them to be all channel fields or none. Every save either engine makes meets this, so two options overwriting each other is not modelled.
- Worker.CheckInternalUpdates takes the channel's host as a parameter. The lookup `network_host[channel]`, including a `network_host` that is not an object, is not modelled. Worker.Init stores `network_host` as an opaque value.
- Network.GetUrl and Network.RetriesNeverHappen assume a `progressbar` callback is configured. Without one (the lightweight configuration, where `this.progressbar` is undefined) `this.progressbar(false)` throws after a successful response. The `catch` branch then returns null, or requests the URL again when a retry counter is given; that path is not modelled.
- Matching.RuleList: a rule list that is truthy but not an array (a non-empty string, a number, an object) reads as no rules. In the code `check_matching` throws a TypeError when it reaches `rules.some` on such a value.
- Network.Backoff: the code caps the pause at one day (`60 * 60 * 24`).
- The test fixtures that expect later migrations (storage versions above 1) are not modelled; only `migration_0001` exists in the code.

## Findings

| source | as written | input that shows it | evidently intended | confidence | as-written member | corrected member |
|---|---|---|---|---|---|---|
| src/worker.js:505, src/manager.js:334 | The code of an updated user script is fetched from `updateURL` a second time. | A script whose `updateURL` serves `x.meta.js` and whose `downloadURL` serves `x.user.js`, with a new version: the stored code becomes the text of `x.meta.js`. | Download the code from `downloadURL`. | not executed | Catalog.UpdatedCodeIsTheDescriptor | Catalog.FixedUpdateDownloadsTheScript |
| src/manager.js:251-268, src/manager.js:535-536 | `#getPluginsFlat` keeps the 'Obsolete' and 'Deleted' categories. The later deletes remove those names as keys of the uid-keyed flat list, where no such key exists. | A catalogue with a plugin in category 'Obsolete': it stays in the manager's flat list. The worker skips it (src/worker.js:427). | Skip the retired categories while building the flat list, as the worker does. | not executed | Manager.RetiredPluginsStayListed | Catalog.PluginsFlat |
| src/matching.js:16 | `check_matching` reads the exclude-match rules from `meta['exclude-match']`, but `parseMeta` stores them under 'excludeMatch'. | A header with `// @match *://*/*` and `// @exclude-match *://intel.ingress.com/*`, checked against `https://intel.ingress.com/`: the URL is accepted. | Read `meta.excludeMatch`. | not executed | Matching.ExcludeMatchDirectivesIgnored | Matching.ExcludeMatchDirectiveVetoes |
| src/helpers.js:54-72, src/worker.js:282-287 | `ajaxGet` catches every failure and returns null, so a failed request never reaches `_getUrl`'s `catch` branch and is never retried with growing pauses. | A first request to `meta.json` that fails with a network error: `_getUrl(…, true)` returns null after one attempt. | Let the failure reach `_getUrl` (or retry on null) so the request is repeated after 4, 9, 16, … seconds. | not executed | Network.RetriesNeverHappen | Network.RetriesWithRaisingHelper |
| src/manager.js:303-306 | The daemon timer armed by `#checkExternalUpdates` calls `checkUpdates`, the check of the catalogue. | A daemon manager that checks its user scripts: the next timer checks the catalogue, and the user scripts are not checked again until restart. | Re-arm `#checkExternalUpdates`, as the worker does (src/worker.js:470-473). | not executed | Manager.ExternalTimerChecksCatalogue | Manager.FixedExternalCheckIsTheWorkers |

Each corrected definition sits beside the one modelling the code as written:
- `Worker.CheckExternalUpdatesFixed` and `Manager.CheckExternalUpdatesFixed` download an updated script's code from `downloadURL`. `Worker.CheckExternalUpdates` and `Manager.CheckExternalUpdates` model the code as written.
- `Manager.RefreshPluginsFixed` builds the flat list without the retired categories; `Manager.RefreshPlugins`, which `Manager.DownloadMeta` uses, keeps them as written.
- `Matching.CheckParsedMatching` reads 'excludeMatch'.
- `Network.RetrySchedule` describes the retry loop with a helper that lets failures escape.
- `Manager.CheckExternalUpdatesTimerFixed` re-arms the check of the user scripts; `Manager.CheckExternalUpdatesFixed` also downloads from `downloadURL`.

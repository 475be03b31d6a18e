# CVE source plugins of the gen0sec MCP server, modelled in Dafny

The server lets an assistant look CVE ids up and check WAF expressions. This project models
the part of it that finds CVE data:

- **Plugin registry** (`PluginManager`, `CVEPluginManager`). It keeps its plugins in stable
  priority order. A lookup asks the plugins one by one and takes the first result. Plugins that
  are disabled are skipped; plugins that are unavailable, miss or raise are noted in the
  diagnostics. It also offers batch initialize/update and an "ask every source" variant.
- **Open-source template plugin** (`NucleiOpenSource`). It normalizes the release tag and
  picks the target release. It keeps the installed release in step with that target, using a
  sentinel file to remember what is installed. A lookup is a case-insensitive search of file
  names.
- **ProjectDiscovery API plugin** (`ProjectDiscovery`). It normalizes the id, checks the API key,
  and maps each HTTP outcome to an answer. The template text it builds from the API answer is
  modelled in `TemplateFormat`.
- **CVE result record and base-plugin defaults** (`Base`).
- **Repository searcher** (`CveSourceManager`). For each configured repository it either clones
  or pulls. A lookup is a case-sensitive search of the clones, in the configured order.
- **WAF validator** (`WafValidator`). It builds the request payload and shapes the answer into the
  tool's result dict.

Everything outside the program becomes an input to the model:

- HTTP requests are function parameters from URL to outcome: `http`, `post`, `download`, and the
  `Release` answer.
- Processes are a function `run` from git command to outcome.
- `json.dumps` is an opaque function parameter, `dumps`.
- The disk is explicit state: a `Disk` record for the template plugin, and a map from
  repository directory to contents for the repository searcher.

Directories are trees of `Entry` values, walked top-down (`FileTree.Walk`).

Plugins inside the registry are `Plugin` records. Each has an identity, a name, a priority and
an enabled flag. What a plugin's `is_available`, `fetch_cve`, `initialize` and `update` do is a
function parameter keyed by that record. For `initialize` that function gives both the answer
and the enabled flag the plugin is left with.

Python dicts are association lists without repeated keys (`Common.Keys`, `Common.Lookup`,
`Common.Put`). Python's `None`/truthiness, `.get`, `str()` and iteration over JSON values are in
`Json`.

Two behaviours of the code are easy to miss:

- **Failed sync.** `initialize` and `update` remove the old templates before downloading. So a
  failed sync leaves no templates, rather than rolling back to the previous release.
- **API key check.** `_verify_api_key` counts every status other than 401 and 403 as verified,
  404 included: the comment at projectdiscovery.py:81 expects a 404 for an unknown CVE and
  accepts it (projectdiscovery.py:80-83). `ProjectDiscovery.VerifyApiKey` states this mapping.

## Model

| member | source | states |
|---|---|---|
| Common.IsSubstringAt | server/waf_rule_mpc/cve_source_manager.py:85 | `sub in s` holds exactly when `sub` occurs at some position of `s` |
| Common.Upper | server/waf_rule_mpc/plugins/nuclei_opensource.py:208 | `str.upper()` keeps the length and maps every character by the upper-case map |
| Common.Lower | server/waf_rule_mpc/plugins/nuclei_opensource.py:209 | `str.lower()` keeps the length and maps every character by the lower-case map |
| Common.CaseAbsorbs | server/waf_rule_mpc/plugins/nuclei_opensource.py:215 | a case mapping applied after another one decides the result alone |
| Common.SubstringUpper | server/waf_rule_mpc/plugins/nuclei_opensource.py:215 | an occurrence survives upper-casing both strings |
| Common.TrimLeft | server/waf_rule_mpc/plugins/nuclei_opensource.py:64 | a suffix of the input that does not start with whitespace; a string starting with non-whitespace is kept whole |
| Common.TrimLeftRemoved | server/waf_rule_mpc/plugins/nuclei_opensource.py:64 | what `TrimLeft` removes from the front is all whitespace |
| Common.TrimRight | server/waf_rule_mpc/plugins/nuclei_opensource.py:64 | a prefix of the input that does not end with whitespace; a string ending with non-whitespace is kept whole |
| Common.TrimRightRemoved | server/waf_rule_mpc/plugins/nuclei_opensource.py:64 | what `TrimRight` removes from the end is all whitespace |
| Common.Strip | server/waf_rule_mpc/plugins/nuclei_opensource.py:64 | `str.strip()` is no longer than its input and neither starts nor ends with whitespace |
| Common.StripSlice | server/waf_rule_mpc/plugins/nuclei_opensource.py:64 | `str.strip()` keeps one contiguous part of its input: the part that starts right after the leading whitespace |
| Common.StripRemoved | server/waf_rule_mpc/plugins/nuclei_opensource.py:64 | everything before and after that part is whitespace |
| Common.StripUnchanged | server/waf_rule_mpc/plugins/nuclei_opensource.py:64 | strip leaves a string without surrounding whitespace unchanged |
| Common.Split | server/waf_rule_mpc/plugins/projectdiscovery.py:223 | `split` on one character gives at least one piece, and no piece contains the separator |
| Common.JoinSplit | server/waf_rule_mpc/plugins/projectdiscovery.py:223-224 | joining the pieces of a split with the separator gives the text back |
| Common.Indent | server/waf_rule_mpc/plugins/projectdiscovery.py:223-224 | each line gets the same prefix, and the order is kept |
| Common.Lookup | server/waf_rule_mpc/tools.py:53 | a lookup finds nothing exactly when the key is absent |
| Common.LookupCons | server/waf_rule_mpc/plugins/projectdiscovery.py:154-157 | the first entry answers for its own key, and the rest answers for the others |
| Common.Put | server/waf_rule_mpc/plugins/plugin_manager.py:90 | `d[k] = v` keeps the key order when `k` is present, and appends `k` last otherwise |
| Common.LookupPut | server/waf_rule_mpc/plugins/plugin_manager.py:90 | after `d[k] = v`, `d[k]` is `v` and every other key reads as before |
| Common.PutFresh | server/waf_rule_mpc/tools.py:52-62 | assigning a key the dict lacks appends that entry |
| Json.Iter | server/waf_rule_mpc/plugins/projectdiscovery.py:230 | `for x in v` visits a list's items, a string's characters and a dict's keys; other values raise |
| Json.Strings | server/waf_rule_mpc/plugins/projectdiscovery.py:212 | the strings of a list exist exactly when every item is a string, and they are those items in order |
| Json.JoinItems | server/waf_rule_mpc/plugins/projectdiscovery.py:212 | `", ".join(xs)` succeeds exactly when every item is a string, and then gives those strings joined by the separator |
| FileTree.FilesIn | server/waf_rule_mpc/cve_source_manager.py:83-86 | one entry per file of the directory, in listing order (a file lands at the position that counts the files before it), each with the path `root / name` |
| FileTree.FilesInAreWalked | server/waf_rule_mpc/plugins/nuclei_opensource.py:212-213 | every file directly in a directory is met by the recursive walk |
| FileTree.FirstAccepted | server/waf_rule_mpc/cve_source_manager.py:84-93 | the first file whose name matches and whose text can be read; no such position exists exactly when no file qualifies |
| FileTree.FirstAcceptedAtIndex | server/waf_rule_mpc/cve_source_manager.py:84-93 | a qualifying file with none before it is the one chosen |
| Base.ToDict | server/waf_rule_mpc/plugins/base.py:19-27 | `cve_id`, `source` and `content` come first, with the record's own values; `metadata` is present exactly when it is truthy (not None, not empty), holding the record's metadata |
| Base.ConstructorDefaults | server/waf_rule_mpc/plugins/base.py:38-49 | a plugin built with only a name has priority 100, is enabled, and is available by default |
| Base.DefaultIsAvailableIsEnabled | server/waf_rule_mpc/plugins/base.py:84-86 | the default readiness check is exactly the enabled flag |
| TemplateFormat.AddScalar | server/waf_rule_mpc/plugins/projectdiscovery.py:216-218 | one `caption + str(v)` line is added exactly when `v` is truthy |
| TemplateFormat.AddListOrScalar | server/waf_rule_mpc/plugins/projectdiscovery.py:209-214 | a falsy value adds nothing; a truthy non-list adds its `str()`; a list adds its items joined by ", ", and raises unless all are strings |
| TemplateFormat.AddBullets | server/waf_rule_mpc/plugins/projectdiscovery.py:230-231 | one `prefix + str(item) + suffix` line per item, in order, after the existing lines |
| TemplateFormat.AddIndented | server/waf_rule_mpc/plugins/projectdiscovery.py:223-224 | one indented line per piece, in order |
| TemplateFormat.AddBlock | server/waf_rule_mpc/plugins/projectdiscovery.py:220-224 | a block adds its header line and then at least one line |
| TemplateFormat.BlockRoundTrip | server/waf_rule_mpc/plugins/projectdiscovery.py:220-224 | every line after a block's header carries the indentation; with it removed and the lines joined by newlines, the text comes back |
| TemplateFormat.AddIterated | server/waf_rule_mpc/plugins/projectdiscovery.py:227-231 | a falsy value adds nothing; a truthy number or boolean cannot be iterated and raises; otherwise lines are only added |
| TemplateFormat.InfoOf | server/waf_rule_mpc/plugins/projectdiscovery.py:204 | the fields are read from `info` when it is truthy; such an `info` that is not a dict raises; a falsy `info` falls back to the whole answer |
| TemplateFormat.AddDescription | server/waf_rule_mpc/plugins/projectdiscovery.py:220-224 | a falsy description adds nothing; a truthy one must be a string, or `split` raises |
| TemplateFormat.AddClassification | server/waf_rule_mpc/plugins/projectdiscovery.py:234-250 | a falsy classification adds nothing; a truthy non-dict raises; otherwise the block opens with `  classification:` |
| TemplateFormat.AddRemediation | server/waf_rule_mpc/plugins/projectdiscovery.py:261-265 | a falsy remediation adds nothing; a truthy one only adds lines |
| TemplateFormat.AddHeaderLines | server/waf_rule_mpc/plugins/projectdiscovery.py:287-288 | one `      k: v` line per header, in the dict's order |
| TemplateFormat.AddHeaders | server/waf_rule_mpc/plugins/projectdiscovery.py:284-288 | raises exactly when the headers are truthy but not a dict; otherwise lines are only added |
| TemplateFormat.AddMatcher | server/waf_rule_mpc/plugins/projectdiscovery.py:303-312 | raises exactly when the matcher is a dict whose words or regex are a truthy number or boolean; a matcher that is not a dict prints nothing; otherwise lines are only added |
| TemplateFormat.AddMatcherList | server/waf_rule_mpc/plugins/projectdiscovery.py:302-312 | raises exactly when some matcher raises; otherwise lines are only added |
| TemplateFormat.AddMatcherListStaysNone | server/waf_rule_mpc/plugins/projectdiscovery.py:302-312 | once one matcher raises, the whole list raises |
| TemplateFormat.AddMatchers | server/waf_rule_mpc/plugins/projectdiscovery.py:298-312 | raises exactly when the matchers are a truthy list holding a raising matcher; falsy matchers add nothing; otherwise the first added line is `matchers:` |
| TemplateFormat.AddRequest | server/waf_rule_mpc/plugins/projectdiscovery.py:273-312 | raises exactly when the request is a dict whose headers are truthy but not a dict, or whose matchers raise; a request that is not a dict adds nothing; a dict request opens with its method line and its two path lines |
| TemplateFormat.AddRequestList | server/waf_rule_mpc/plugins/projectdiscovery.py:272-312 | raises exactly when some request raises; otherwise lines are only added |
| TemplateFormat.AddRequestListStaysNone | server/waf_rule_mpc/plugins/projectdiscovery.py:272-312 | once one request raises, the whole list raises |
| TemplateFormat.AddHttp | server/waf_rule_mpc/plugins/projectdiscovery.py:268-272 | a falsy value adds nothing; raises exactly when the value is a truthy number or boolean, or a list holding a raising request; otherwise it opens with a blank line and `http:` |
| TemplateFormat.RequestOpensWithMethodAndPath | server/waf_rule_mpc/plugins/projectdiscovery.py:273-281 | each dict request prints its method ("GET" only when the key is absent) and its first path ("/" when the key is absent or the list is empty) |
| TemplateFormat.AddPayload | server/waf_rule_mpc/plugins/projectdiscovery.py:315-325 | a falsy payload adds nothing; a truthy one only adds lines |
| TemplateFormat.AddSummary | server/waf_rule_mpc/plugins/projectdiscovery.py:209-231 | author, severity, description and references only add lines |
| TemplateFormat.AddDetails | server/waf_rule_mpc/plugins/projectdiscovery.py:233-265 | classification, tags and remediation only add lines |
| TemplateFormat.AddSections | server/waf_rule_mpc/plugins/projectdiscovery.py:209-325 | the sections after the name only add lines |
| TemplateFormat.FormatLines | server/waf_rule_mpc/plugins/projectdiscovery.py:197-204 | an answer that is not a dict raises at its first `.get` |
| TemplateFormat.JoinConcat | server/waf_rule_mpc/plugins/projectdiscovery.py:327 | joining two non-empty runs of lines puts one separator between them |
| TemplateFormat.JoinPrefix | server/waf_rule_mpc/plugins/projectdiscovery.py:327 | the joined text of the first lines is a prefix of the whole text |
| TemplateFormat.FormatOpening | server/waf_rule_mpc/plugins/projectdiscovery.py:197-207 | a template that was formatted opens with `id: <id>`, a blank line, `info:` and `  name: <name>`; the name is info's, else the answer's, else the id |
| TemplateFormat.AppendBullets | server/waf_rule_mpc/plugins/projectdiscovery.py:229-231 | the loop over the references builds exactly `AddBullets` |
| TemplateFormat.AppendBlock | server/waf_rule_mpc/plugins/projectdiscovery.py:222-224 | the loop over the lines of a text builds exactly `AddBlock` |
| TemplateFormat.AppendIterated | server/waf_rule_mpc/plugins/projectdiscovery.py:228-231 | the loop over an iterable builds exactly `AddIterated` |
| TemplateFormat.AppendHeaders | server/waf_rule_mpc/plugins/projectdiscovery.py:287-288 | the loop over the headers builds exactly `AddHeaderLines` |
| TemplateFormat.AppendMatcher | server/waf_rule_mpc/plugins/projectdiscovery.py:303-312 | one matcher's steps build exactly `AddMatcher` |
| TemplateFormat.AppendMatcherList | server/waf_rule_mpc/plugins/projectdiscovery.py:302-312 | the loop over the matchers builds exactly `AddMatcherList` |
| TemplateFormat.AppendRequest | server/waf_rule_mpc/plugins/projectdiscovery.py:273-312 | one request's steps build exactly `AddRequest` |
| TemplateFormat.AppendHttp | server/waf_rule_mpc/plugins/projectdiscovery.py:268-312 | the loop over the requests builds exactly `AddHttp` |
| TemplateFormat.AppendPayload | server/waf_rule_mpc/plugins/projectdiscovery.py:315-325 | the payload steps build exactly `AddPayload` |
| TemplateFormat.AppendSummary | server/waf_rule_mpc/plugins/projectdiscovery.py:209-231 | the summary steps build exactly `AddSummary` |
| TemplateFormat.AppendDetails | server/waf_rule_mpc/plugins/projectdiscovery.py:233-265 | the detail steps build exactly `AddDetails` |
| TemplateFormat.AppendSections | server/waf_rule_mpc/plugins/projectdiscovery.py:209-325 | the steps after the name line build exactly `AddSections` |
| TemplateFormat.FormatVulnerabilityData | server/waf_rule_mpc/plugins/projectdiscovery.py:186-327 | `_format_vulnerability_data` returns exactly `Format`, the template whose opening `FormatOpening` describes, or raises (None) where the source raises |
| PluginManager.Insert | server/waf_rule_mpc/plugins/plugin_manager.py:35-36 | adding one plugin to a sorted list gives a sorted permutation of the list plus that plugin |
| PluginManager.InsertStable | server/waf_rule_mpc/plugins/plugin_manager.py:35-36 | the added plugin goes after every earlier plugin of its priority; each priority keeps its order |
| PluginManager.SortByPriority | server/waf_rule_mpc/plugins/plugin_manager.py:36 | `sort(key=priority)` gives a permutation of its input in non-decreasing priority |
| PluginManager.SortStable | server/waf_rule_mpc/plugins/plugin_manager.py:36 | the sort is stable: the plugins of each priority keep their relative order |
| PluginManager.Names | server/waf_rule_mpc/plugins/plugin_manager.py:142 | `[p.name for p in ps]`, position by position |
| PluginManager.IndexOfName | server/waf_rule_mpc/plugins/plugin_manager.py:49-50 | the first position holding the name; there is none exactly when no plugin has it |
| PluginManager.RemoveKeepsSorted | server/waf_rule_mpc/plugins/plugin_manager.py:51 | removing one plugin keeps the list sorted |
| PluginManager.Named | server/waf_rule_mpc/plugins/plugin_manager.py:136 | exactly the plugins with that name, in registry order, each as often as it is registered |
| PluginManager.Enabled | server/waf_rule_mpc/plugins/plugin_manager.py:174 | exactly the enabled plugins, in registry order, each as often as it is registered |
| PluginManager.Eligible | server/waf_rule_mpc/plugins/plugin_manager.py:147-153 | the plugins a lookup asks are exactly the enabled and available ones, in registry order |
| PluginManager.FirstWinner | server/waf_rule_mpc/plugins/plugin_manager.py:147-164 | the first plugin that is enabled, available and returns a result; there is none exactly when no plugin does |
| PluginManager.DetailsShape | server/waf_rule_mpc/plugins/plugin_manager.py:146-168 | one diagnostic per enabled plugin, in order, reading `<name>: not available`, `<name>: not found` or `<name>: <message>`; disabled plugins add none |
| PluginManager.FetchRefusals | server/waf_rule_mpc/plugins/plugin_manager.py:126-143 | an empty registry, and only that, reports "no plugins"; an unknown source, and only that, reports the source and every registered name; neither asks any plugin, and both echo the id; a named source restricts the plugins asked to that name |
| PluginManager.FetchFirstMatch | server/waf_rule_mpc/plugins/plugin_manager.py:145-176 | a lookup succeeds exactly when some queried plugin wins; it then returns the first winner's id, source, content and metadata, and it asked exactly the enabled, available plugins up to that winner, in order; a failure has asked every enabled, available plugin and echoes the id |
| PluginManager.BatchKeys | server/waf_rule_mpc/plugins/plugin_manager.py:87-94 | the keys of a batch result are exactly the names of the plugins called |
| PluginManager.BatchDistinct | server/waf_rule_mpc/plugins/plugin_manager.py:87-94 | with distinct names, one entry per plugin, in order, holding its flag, with a raise read as False |
| PluginManager.FoundInDistinct | server/waf_rule_mpc/plugins/plugin_manager.py:190-217 | with distinct names, `sources` has one key per plugin asked, and `found_in` lists exactly the plugins that returned a result, in the order asked |
| PluginManager.QueryInOrder | server/waf_rule_mpc/plugins/plugin_manager.py:145-176 | the loop of `fetch_cve` returns and asks exactly what `ScanSpec` says: the first winner and the plugins up to it, or the failure dict with its diagnostics |
| PluginManager.CvePluginManager.constructor | server/waf_rule_mpc/plugins/plugin_manager.py:24-26 | a new registry is empty |
| PluginManager.CvePluginManager.Register | server/waf_rule_mpc/plugins/plugin_manager.py:28-37 | the list becomes the stable sort of the old list plus the plugin: sorted, a permutation, and each priority in registration order |
| PluginManager.CvePluginManager.Unregister | server/waf_rule_mpc/plugins/plugin_manager.py:39-54 | returns True exactly when a plugin has the name; then only the first such plugin is removed; otherwise the list is unchanged; the list stays sorted |
| PluginManager.CvePluginManager.GetPlugin | server/waf_rule_mpc/plugins/plugin_manager.py:56-61 | the first plugin with the name, or None when there is none |
| PluginManager.CvePluginManager.ListPlugins | server/waf_rule_mpc/plugins/plugin_manager.py:63-78 | one row per plugin, in list order, with its name, priority, enabled flag and current availability |
| PluginManager.CvePluginManager.ListedInPriorityOrder | server/waf_rule_mpc/plugins/plugin_manager.py:63-78 | the listing is in non-decreasing priority |
| PluginManager.CvePluginManager.InitializeAll | server/waf_rule_mpc/plugins/plugin_manager.py:80-94 | every plugin is initialized, in list order, and each answer is recorded under its name, a raise recording False; each plugin ends with the enabled flag its own initialize left, and nothing else about the registry changes |
| PluginManager.InitializedPlugins | server/waf_rule_mpc/plugins/projectdiscovery.py:94-97 | initializing changes only each plugin's enabled flag, to the one its initialize leaves (the API plugin clears it without a key); the order and the names are kept, so the list stays sorted exactly when it was |
| PluginManager.CvePluginManager.UpdateAll | server/waf_rule_mpc/plugins/plugin_manager.py:96-111 | exactly the enabled plugins are updated, in list order; a raise records False and the batch goes on |
| PluginManager.CvePluginManager.FetchCve | server/waf_rule_mpc/plugins/plugin_manager.py:113-176 | returns and asks exactly what `FetchSpec` says; `FetchRefusals` and `FetchFirstMatch` state what that is |
| PluginManager.CvePluginManager.FetchCveFromAll | server/waf_rule_mpc/plugins/plugin_manager.py:178-218 | every enabled and available plugin is asked exactly once, in list order; `sources` holds each plugin's entry under its name; `found_in` lists the successful ones |
| ProjectDiscovery.VerifyApiKey | server/waf_rule_mpc/plugins/projectdiscovery.py:58-90 | the key counts as verified exactly when it is non-empty and the probe got a response whose status is neither 401 nor 403 |
| ProjectDiscovery.NormalizeId | server/waf_rule_mpc/plugins/projectdiscovery.py:128-131 | the id is upper-cased and starts with "CVE-"; the prefix is added only when the upper-cased id lacks it |
| ProjectDiscovery.NormalizeIdIdempotent | server/waf_rule_mpc/plugins/projectdiscovery.py:128-131 | normalizing twice is normalizing once |
| ProjectDiscovery.NormalizeIdIgnoresCase | server/waf_rule_mpc/plugins/projectdiscovery.py:128-131 | the case the id is written in does not matter |
| ProjectDiscovery.ApiAnswer | server/waf_rule_mpc/plugins/projectdiscovery.py:133-184 | a hit only for a 200 answer with a JSON body that formats, holding the normalized id, the plugin name, the template and `api_response`/`api_url` metadata; every other status, a timeout, a failure and a malformed body give None |
| ProjectDiscovery.HitOpensWithId | server/waf_rule_mpc/plugins/projectdiscovery.py:143-158 | a hit's id starts with "CVE-", its template opens with `id: <id>`, and its metadata holds the answer and the URL asked |
| ProjectDiscovery.ProjectDiscoveryPlugin.constructor | server/waf_rule_mpc/plugins/projectdiscovery.py:28-48 | the name is fixed, priority 50 by default, enabled by default, and not verified |
| ProjectDiscovery.ProjectDiscoveryPlugin.Initialize | server/waf_rule_mpc/plugins/projectdiscovery.py:92-103 | without a key it disables itself and returns False; with one it records and returns the key check, and stays enabled even when the check fails |
| ProjectDiscovery.ProjectDiscoveryPlugin.Update | server/waf_rule_mpc/plugins/projectdiscovery.py:105-108 | checks the key again and records the outcome |
| ProjectDiscovery.ProjectDiscoveryPlugin.FetchCve | server/waf_rule_mpc/plugins/projectdiscovery.py:114-184 | an unavailable plugin asks nothing and returns None; otherwise it asks for the normalized id's URL once and answers as `ApiAnswer` |
| NucleiOpenSource.NormalizeVersion | server/waf_rule_mpc/plugins/nuclei_opensource.py:60-67 | a missing (`None`) or empty tag becomes "v10.3.5"; any other is stripped, with a "v" added exactly when missing; every result starts with "v" and has no surrounding whitespace |
| NucleiOpenSource.NormalizeKeepsNormalized | server/waf_rule_mpc/plugins/nuclei_opensource.py:60-67 | a normalized tag is left unchanged |
| NucleiOpenSource.NormalizeIdempotent | server/waf_rule_mpc/plugins/nuclei_opensource.py:60-67 | normalizing twice is normalizing once |
| NucleiOpenSource.LatestVersion | server/waf_rule_mpc/plugins/nuclei_opensource.py:69-81 | the normalized `tag_name` when the release names one; the configured version when the query fails, or the tag is missing, empty or not a string |
| NucleiOpenSource.TargetVersion | server/waf_rule_mpc/plugins/nuclei_opensource.py:83-87 | the latest release exactly when auto-update is on, the configured version otherwise; always normalized |
| NucleiOpenSource.SentinelIndex | server/waf_rule_mpc/plugins/nuclei_opensource.py:91 | the first top-level entry named `.nuclei_version`, if any |
| NucleiOpenSource.CurrentVersion | server/waf_rule_mpc/plugins/nuclei_opensource.py:89-97 | a version exactly when the templates exist and the sentinel is a readable file; it is then the sentinel's stripped text |
| NucleiOpenSource.SaveVersion | server/waf_rule_mpc/plugins/nuclei_opensource.py:99-105 | a successful write makes the installed version read back as the stripped tag; a failed write changes nothing; other entries are untouched |
| NucleiOpenSource.InstallLeavesNoScratch | server/waf_rule_mpc/plugins/nuclei_opensource.py:107-153 | no archive or scratch directory is left behind; success is exactly "unpacked to something and moved into place", whether or not the sentinel could be written; a failed download, or an archive with nothing in it, keeps the templates as they were |
| NucleiOpenSource.FailedSyncLeavesNoTemplates | server/waf_rule_mpc/plugins/nuclei_opensource.py:166-170 | when the installed version differs from the target, a failed sync leaves no templates, because the old tree is deleted first |
| NucleiOpenSource.SyncUpToDate | server/waf_rule_mpc/plugins/nuclei_opensource.py:159-164 | when the installed version is the target, nothing is downloaded or deleted, and the sync succeeds |
| NucleiOpenSource.SyncInstalls | server/waf_rule_mpc/plugins/nuclei_opensource.py:166-170 | otherwise the old templates are deleted and the target is installed |
| NucleiOpenSource.SyncSettles | server/waf_rule_mpc/plugins/nuclei_opensource.py:155-170 | after a sync that unpacks something, moves it into place and writes the sentinel, the installed version is the target, and a second sync to it is a no-op whatever the network does |
| NucleiOpenSource.MatchesIgnoresCase | server/waf_rule_mpc/plugins/nuclei_opensource.py:208-215 | the name test ignores the case of the name and of the id, and accepts every exact occurrence |
| NucleiOpenSource.SearchFirstMatch | server/waf_rule_mpc/plugins/nuclei_opensource.py:204-232 | a hit exactly when some readable file's name matches; it is the first such file in walk order, and has the id as given, the plugin's name, its path and the installed version |
| NucleiOpenSource.NucleiOpenSourcePlugin.constructor | server/waf_rule_mpc/plugins/nuclei_opensource.py:32-58 | the name is fixed, priority 100 and "v10.3.5" by default, and the version is stored normalized |
| NucleiOpenSource.NucleiOpenSourcePlugin.CleanUp | server/waf_rule_mpc/plugins/nuclei_opensource.py:148-152 | removes the archive and the scratch directory, and nothing else |
| NucleiOpenSource.NucleiOpenSourcePlugin.DownloadAndExtract | server/waf_rule_mpc/plugins/nuclei_opensource.py:107-153 | the steps leave the disk that `Install` describes, and return its result; an empty archive fails because the scratch directory never appears |
| NucleiOpenSource.NucleiOpenSourcePlugin.Initialize | server/waf_rule_mpc/plugins/nuclei_opensource.py:155-170 | creates the folder, then syncs to the target version |
| NucleiOpenSource.NucleiOpenSourcePlugin.Update | server/waf_rule_mpc/plugins/nuclei_opensource.py:172-188 | with auto-update off, succeeds and changes nothing; otherwise syncs to the latest release |
| NucleiOpenSource.NucleiOpenSourcePlugin.FetchCve | server/waf_rule_mpc/plugins/nuclei_opensource.py:194-232 | None unless enabled with templates present; otherwise the walk's answer as `Search` (see `SearchFirstMatch`) |
| CveSourceManager.LastDot | server/waf_rule_mpc/cve_source_manager.py:47 | the position found holds a dot |
| CveSourceManager.LastDotIsLast | server/waf_rule_mpc/cve_source_manager.py:47 | there is no dot exactly when no position is found, and no dot follows the one found |
| CveSourceManager.StemOfGitUrl | server/waf_rule_mpc/cve_source_manager.py:47 | the directory for `<anything>/<repo>.git` is named `<repo>` |
| CveSourceManager.SplitAround | server/waf_rule_mpc/cve_source_manager.py:47 | splitting at one separator splits the two sides separately |
| CveSourceManager.RunCommand | server/waf_rule_mpc/cve_source_manager.py:14-37 | a process gives its exit code and stdout followed by stderr; an exception gives (-1, its message) exactly when the words of the command can be joined for the log line, and otherwise escapes the handler |
| CveSourceManager.UnstartedCommands | server/waf_rule_mpc/cve_source_manager.py:36-62 | a `git pull` that cannot start is reported as (-1, message); a `git clone` that cannot start escapes, because its destination is a path and not a string |
| CveSourceManager.RunCommandIntended | server/waf_rule_mpc/cve_source_manager.py:25-37 | the handler as intended: every exception gives (-1, its message), and a process gives its exit code and stdout followed by stderr |
| CveSourceManager.RunCommandAgrees | server/waf_rule_mpc/cve_source_manager.py:14-37 | the handler as written agrees with the intended one whenever it reports, and it always reports for a command of plain words |
| CveSourceManager.Repos | server/waf_rule_mpc/cve_source_manager.py:46-48 | each configured URL, in order, with the directory named by its stem |
| CveSourceManager.CommandFor | server/waf_rule_mpc/cve_source_manager.py:50-62 | `git pull` in the directory exactly when it exists, otherwise `git clone` of the URL into it |
| CveSourceManager.Apply | server/waf_rule_mpc/cve_source_manager.py:50-67 | a command changes only its own directory, and nothing when it could not be started |
| CveSourceManager.StepFor | server/waf_rule_mpc/cve_source_manager.py:50-67 | the command works on the repository's directory, pulls exactly when it exists, and reports what `_run_command` gives for its argument list |
| CveSourceManager.StepForIntended | server/waf_rule_mpc/cve_source_manager.py:50-67 | the same command, reported by the intended handler |
| CveSourceManager.MakeRoot | server/waf_rule_mpc/cve_source_manager.py:43-44 | the folder exists afterwards and everything already there is kept |
| CveSourceManager.CloneAll | server/waf_rule_mpc/cve_source_manager.py:46-67 | at most one step per configured repository, one for each when nothing escaped; a step escapes exactly when it is the last one of a run that stopped |
| CveSourceManager.CloneAllStep | server/waf_rule_mpc/cve_source_manager.py:46-67 | each repository adds its step, run on the disk the earlier ones left, unless an exception already escaped |
| CveSourceManager.CloneStep | server/waf_rule_mpc/cve_source_manager.py:46-67 | the k-th command depends only on the disk the earlier commands left, and no earlier step escaped: a non-zero exit never stops the loop |
| CveSourceManager.EscapeStays | server/waf_rule_mpc/cve_source_manager.py:46-67 | once an exception escaped, the remaining repositories are not handled |
| CveSourceManager.CloneAbortsAtUnstartableClone | server/waf_rule_mpc/cve_source_manager.py:36-62 | when a repository must be cloned and git cannot start, the run stops after that step, while the intended loop handles every repository |
| CveSourceManager.CloneLeavesOthers | server/waf_rule_mpc/cve_source_manager.py:46-67 | a directory no repository maps to keeps its contents |
| CveSourceManager.CloneAllIntended | server/waf_rule_mpc/cve_source_manager.py:46-67 | the intended loop: one reported step per configured repository, and nothing escapes |
| CveSourceManager.CloneStepIntended | server/waf_rule_mpc/cve_source_manager.py:46-67 | its k-th step is the intended step on the disk the earlier steps left |
| CveSourceManager.NoEscapeIsIntended | server/waf_rule_mpc/cve_source_manager.py:46-67 | a run in which nothing escaped is exactly the intended run |
| CveSourceManager.Walks | server/waf_rule_mpc/cve_source_manager.py:79-83 | each clone's files in walk order, in the configured order |
| CveSourceManager.FlattenPrefix | server/waf_rule_mpc/cve_source_manager.py:79-83 | the files of the earlier repositories come first |
| CveSourceManager.FindCveFileNone | server/waf_rule_mpc/cve_source_manager.py:95-96 | with no readable matching file in any clone, the answer is "" |
| CveSourceManager.FindCveFileFromRepository | server/waf_rule_mpc/cve_source_manager.py:79-93 | the answer is the text of the first readable file whose name contains the id, in the first repository, in configured order, that has one |
| CveSourceManager.FirstAcceptedConcat | server/waf_rule_mpc/cve_source_manager.py:79-93 | the search over two runs of files takes the first run's answer, else the second's |
| CveSourceManager.CveSourceManager.constructor | server/waf_rule_mpc/cve_source_manager.py:10-12 | stores the repositories and the folder |
| CveSourceManager.CveSourceManager.RepoDir | server/waf_rule_mpc/cve_source_manager.py:47-48 | `repo_root / Path(url).stem` |
| CveSourceManager.CveSourceManager.CloneOne | server/waf_rule_mpc/cve_source_manager.py:50-67 | runs the command `StepFor` names and leaves the disk `Apply` gives |
| CveSourceManager.CveSourceManager.CloneRepositories | server/waf_rule_mpc/cve_source_manager.py:39-67 | creates the folder, then handles the repositories in order until an exception escapes, exactly as `CloneAll`; returns the steps and whether one escaped |
| CveSourceManager.CveSourceManager.FetchCveFile | server/waf_rule_mpc/cve_source_manager.py:69-96 | returns `FindCveFile`: the first readable match across the clones in order, else "" |
| CveSourceManager.FirstReadableMatch | server/waf_rule_mpc/cve_source_manager.py:84-93 | the loop over one directory's files returns the first readable file whose name contains the id; a file that fails to read is passed over |
| WafValidator.ApiResponse | server/waf_rule_mpc/tools.py:11-27 | the parsed body of a successful response; an unreachable server, an error status or a body that is not JSON all give `{"error": "API request failed"}` |
| WafValidator.Payload | server/waf_rule_mpc/tools.py:41-48 | the payload holds `expression`, `test_match`, and `test` exactly when there is test data |
| WafValidator.ValidationResult | server/waf_rule_mpc/tools.py:52-64 | the result is missing (a raise) exactly when a test was asked for and `test_result` is not a dict |
| WafValidator.ValidationResultFields | server/waf_rule_mpc/tools.py:52-62 | `valid` always, with a default of False; `error_message` exactly when not valid, with a default of "Unknown error"; `matched` exactly when test data was sent; `test_error` exactly when, in addition, the test reported an error |
| WafValidator.TestOutcome | server/waf_rule_mpc/tools.py:89-98 | the result is missing (a raise) exactly when `test_result` is not a dict |
| WafValidator.TestOutcomeFields | server/waf_rule_mpc/tools.py:89-96 | `valid` and `matched` always; `error` (not `error_message`) exactly when not valid; `test_error` exactly when the test reported an error |
| WafValidator.FailedRequestIsInvalid | server/waf_rule_mpc/tools.py:21-64 | after a failed request, validation reports `valid` False with "Unknown error", `matched` False and no `test_error` |
| WafValidator.TestAgreesWithValidation | server/waf_rule_mpc/tools.py:52-98 | on one answer, testing and validating with test data agree on `valid`, `matched` and `test_error`, and give the same message under different keys |
| WafValidator.WafValidator.constructor | server/waf_rule_mpc/tools.py:8-9 | stores the validation URL |
| WafValidator.WafValidator.ApiRequest | server/waf_rule_mpc/tools.py:11-27 | posts the payload to the validation URL and returns what `ApiResponse` makes of the reply |
| WafValidator.WafValidator.ValidateWafExpression | server/waf_rule_mpc/tools.py:29-64 | sends the payload `Payload` describes, asking for a test exactly when there is test data, and returns `ValidationResult` of the answer |
| WafValidator.WafValidator.TestWafExpression | server/waf_rule_mpc/tools.py:66-98 | always asks for a test and returns `TestOutcome` of the answer |

## Left out

- Logging is not modelled: every `logger` call is dropped.
- `requests`, `zipfile`, `shutil`, `Path.walk`/`rglob`, `subprocess` and file reads are inputs, not effects. These inputs are the HTTP outcome functions, the `Fetch` of one release, the `run` function, and `Entry` trees whose files carry their text or nothing (unreadable).
- HTTP headers, timeouts and streaming chunk sizes are not modelled: they change no branch the model follows.
- `Path.walk` order is modelled as top-down in listing order, as `Path.walk` yields it.
- NucleiOpenSource.Search, NucleiOpenSource.SearchFirstMatch and NucleiOpenSource.NucleiOpenSourcePlugin.FetchCve: `rglob('*')` at nuclei_opensource.py:212 is modelled by the same top-down `Path.walk` preorder, which is not the order `rglob` yields. CPython 3.12 lists the files of every subdirectory of a directory before going below any of them, and CPython 3.13 goes to the last subdirectory first. When several files match, the model may therefore pick a different one than the source: for `root/a/c/CVE-1.yaml` and `root/b/CVE-1.yaml`, the model answers `a/c/CVE-1.yaml` and the source `b/CVE-1.yaml`. Which files match, and whether any does, does not depend on the order.
- The paths are plain strings: `parent + "/" + name`, without normalisation.
- `mkdir` is taken to succeed. Its failure would raise out of `initialize` and `clone_cve_repositories`, which no caller in the core handles; the model does not cover it.
- `rmtree` is taken to succeed. A failure to delete the old templates is left out for the same reason.
- `server/main.py`, `server/run.py`, `resource_updater.py` (a background thread), `config.py`, `waf_context_manager.py`, `prompt_manager.py` and `plugins/__init__.py` are not part of this model. They are transport, configuration, concurrency and re-export code.
- `main.py` builds `CVESourceManager` with four arguments while its constructor takes two. That path is not modelled.
- `json.dumps` is the opaque parameter `dumps`.
- Python `repr()` is modelled without quote escaping.
- Numbers are opaque JSON values printed as their text, with no floating-point arithmetic.
- `ProjectDiscoveryPlugin._get_headers` is not modelled: it only builds request headers.
- Common.Upper: ASCII letters only; the Unicode case mapping of `str.upper()` is not modelled.
- Common.Lower: ASCII letters only, as for `Upper`.
- A JSON answer that is not a dict is modelled as None ("raising"). This covers an API answer, a `test_result` or an `info` section where the source's `.get` would raise `AttributeError` and a caller would catch it. In `WafValidator` no caller catches it, so the tool call would fail.
- TemplateFormat.AddBlock: the contract gives only the header and the line count; `BlockRoundTrip` states the lines.
- TemplateFormat.AddIterated: the contract says when it raises and that lines are only added; the bullet lines are fixed by its definition and by `AppendIterated`.
- TemplateFormat.AddDescription: states only when it raises and that lines are only added; the lines are those of `AddBlock`.
- TemplateFormat.AddClassification: states its header line and when it raises, not each score line.
- TemplateFormat.AddRemediation: states only that lines are added; the lines are those of `AddBlock`.
- TemplateFormat.AddHeaders: states when it raises, not the lines; those are the ones of `AddHeaderLines`.
- TemplateFormat.AddMatcher: states when it raises, not the word and regex lines.
- TemplateFormat.AddMatcherList: states when it raises, not the lines of each matcher.
- TemplateFormat.AddMatchers: states when it raises and its first line, not the lines of each matcher.
- TemplateFormat.AddRequestList: states when it raises; `RequestOpensWithMethodAndPath` gives each request's first lines.
- TemplateFormat.AddHttp: states when it raises and its first two lines, not the lines of each request.
- TemplateFormat.AddPayload: states only that lines are added.
- TemplateFormat.AddSummary: states only that lines are added.
- TemplateFormat.AddDetails: states only that lines are added.
- TemplateFormat.AddSections: states only that lines are added.
- TemplateFormat.FormatLines: states only that a non-dict answer raises; `FormatOpening` gives the opening lines.
- CveSourceManager.CloneAll: the contract gives the number of steps and where an escape can be; `CloneAllStep`, `CloneStep`, `EscapeStays` and `CloneLeavesOthers` state the rest.
- An exception that escapes `clone_cve_repositories` becomes the `escaped` result of `CloneRepositories`. What the caller of `clone_cve_repositories` does with it is not part of this model.
- PluginManager.CvePluginManager.InitializeAll: each plugin's `initialize` is applied to the record as it was before the batch. A plugin object registered twice is two records here, so one call cannot change what the other call sees.

## Findings

| source | as written | input that shows it | evidently intended | confidence | as-written member | corrected member |
|---|---|---|---|---|---|---|
| server/waf_rule_mpc/cve_source_manager.py:36 | the exception handler of `_run_command` builds its log line with `' '.join(command)`; the clone command at line 62 holds `repo_path`, a `Path`, so the join raises `TypeError` inside the handler, the exception leaves `clone_cve_repositories`, and the remaining repositories are skipped | a configured repository whose folder does not exist yet, on a machine where `git` cannot be started | report (-1, the message) as the docstring and line 37 say, and go on with the next repository | not executed | CveSourceManager.CloneAbortsAtUnstartableClone | CveSourceManager.CloneAllIntended |

`CveSourceManager.CloneRepositories` follows the code as written, so a run can stop at an unstartable clone. The intended loop, `CloneAllIntended`, is proved beside it, and `NoEscapeIsIntended` shows the two agree on every run where nothing escapes.

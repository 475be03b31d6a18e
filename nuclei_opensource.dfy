/**
 * The open-source template plugin of nuclei_opensource.py: it keeps a local copy of the
 * nuclei-templates release archive under a folder, records the installed release in a sentinel
 * file, and answers lookups by searching the copy for a file whose name mentions the CVE id.
 *
 * The network and the archive tools are inputs: the latest-release query is a `Release`, and
 * what downloading and unpacking one release's archive does is a `Fetch`. The part of the disk
 * the plugin touches is the `Disk` record held by the plugin object.
 */
module NucleiOpenSource {
  import opened Common
  import opened Json
  import opened FileTree
  import opened Base

  const PluginName := "Nuclei Open Source (GitHub)"
  const DefaultVersion := "v10.3.5"
  const DefaultPriority := 100
  const ReleaseApiUrl := "https://api.github.com/repos/projectdiscovery/nuclei-templates/releases/latest"
  /** The sentinel file, at the top of the templates directory, naming the installed release. */
  const SentinelName := ".nuclei_version"

  /** The archive of one release. */
  function ZipUrl(version: string): string
  {
    "https://github.com/projectdiscovery/nuclei-templates/archive/refs/tags/" + version + ".zip"
  }

  /** Where the templates live: `<repo_folder>/nuclei-templates`. */
  function TemplatesPath(repoFolder: string): string
  {
    Child(repoFolder, "nuclei-templates")
  }

  // ---------------------------------------------------------------------------------------------
  // Version tags.

  /** A tag as the plugin stores it: starts with "v" and has no surrounding whitespace. */
  predicate Normalized(v: string)
  {
    v != [] && v[0] == 'v' && !IsSpace(v[|v| - 1])
  }

  /**
   * `_normalize_version`: a missing (`None`) or empty tag is the default release; otherwise strip
   * and add a missing "v".
   */
  function NormalizeVersion(version: Option<string>): (r: string)
    ensures Normalized(r)
    ensures version == None || version == Some([]) ==> r == DefaultVersion
    ensures version.Some? && version.value != [] ==>
              r == Strip(version.value) || r == "v" + Strip(version.value)
    ensures version.Some? && version.value != [] ==>
              (r == Strip(version.value) <==> Strip(version.value) != [] && Strip(version.value)[0] == 'v')
  {
    if version == None || version.value == [] then
      assert Normalized(DefaultVersion) by {
        assert DefaultVersion[0] == 'v' && DefaultVersion[|DefaultVersion| - 1] == '5';
      }
      DefaultVersion
    else
      var s := Strip(version.value);
      if s != [] && s[0] == 'v' then s
      else
        PrefixedNormalized(s);
        "v" + s
  }

  /** Putting "v" before a tag that does not end in whitespace gives a normalized tag. */
  lemma PrefixedNormalized(s: string)
    requires s == [] || !IsSpace(s[|s| - 1])
    ensures Normalized("v" + s) && "v" + s != s
  {
    var r := "v" + s;
    assert r[|r| - 1] == if s == [] then 'v' else s[|s| - 1];
    assert |r| != |s|;
  }

  /** A normalized tag is left as it is, so normalizing twice is normalizing once. */
  lemma NormalizeKeepsNormalized(v: string)
    requires Normalized(v)
    ensures Strip(v) == v
    ensures NormalizeVersion(Some(v)) == v
  {
    StripUnchanged(v);
  }

  lemma NormalizeIdempotent(v: Option<string>)
    ensures NormalizeVersion(Some(NormalizeVersion(v))) == NormalizeVersion(v)
  {
    NormalizeKeepsNormalized(NormalizeVersion(v));
  }

  /** What the latest-release query gave: nothing usable (network, HTTP or JSON error), or a body. */
  datatype Release = ReleaseFailed | ReleaseBody(body: Json)

  /** The release tag a body names, when it names one the plugin can use: a non-empty string. */
  function ReleaseTag(release: Release): Option<string>
  {
    if release.ReleaseBody? && release.body.JObj? then
      var tag := GetOr(release.body.fields, "tag_name", JStr(""));
      if tag.JStr? && tag.s != [] then Some(tag.s) else None
    else None
  }

  /**
   * `_get_latest_version`: the normalized tag of the latest release, or the configured version
   * when the query fails, the body is not an object, the tag is missing or empty, or it is not a
   * string (normalizing it raises, and the error is caught).
   */
  function LatestVersion(release: Release, configured: string): (r: string)
    ensures ReleaseTag(release).Some? ==> r == NormalizeVersion(ReleaseTag(release))
    ensures ReleaseTag(release).None? ==> r == configured
    ensures Normalized(configured) ==> Normalized(r)
  {
    match ReleaseTag(release)
    case Some(tag) => NormalizeVersion(Some(tag))
    case None => configured
  }

  /** `_get_target_version`: the latest release when auto-update is on, else the configured version. */
  function TargetVersion(autoUpdate: bool, configured: string, release: Release): (r: string)
    ensures autoUpdate ==> r == LatestVersion(release, configured)
    ensures !autoUpdate ==> r == configured
    ensures Normalized(configured) ==> Normalized(r)
  {
    if autoUpdate then LatestVersion(release, configured) else configured
  }

  // ---------------------------------------------------------------------------------------------
  // The sentinel file.

  /** The position of the entry named like the sentinel at the top of a tree. */
  function SentinelIndex(tree: seq<Entry>): (r: Option<nat>)
    ensures r.None? <==> forall k :: 0 <= k < |tree| ==> tree[k].name != SentinelName
    ensures r.Some? ==> r.value < |tree| && tree[r.value].name == SentinelName
                        && forall k :: 0 <= k < r.value ==> tree[k].name != SentinelName
  {
    if tree == [] then None
    else if tree[0].name == SentinelName then Some(0)
    else
      match SentinelIndex(tree[1..])
      case None => None
      case Some(k) => Some(k + 1)
  }

  /**
   * `_get_current_version`: the stripped text of the sentinel, or None when there is no
   * templates directory, no sentinel, or the sentinel cannot be read (a directory, or an error).
   */
  function CurrentVersion(templates: Option<seq<Entry>>): (r: Option<string>)
    ensures r.Some? <==> templates.Some? && SentinelIndex(templates.value).Some?
                         && templates.value[SentinelIndex(templates.value).value].File?
                         && templates.value[SentinelIndex(templates.value).value].content.Some?
    ensures r.Some? ==> var e := templates.value[SentinelIndex(templates.value).value];
                        r.value == Strip(e.content.value)
  {
    if templates.None? then None
    else
      match SentinelIndex(templates.value)
      case None => None
      case Some(k) =>
        var e := templates.value[k];
        if e.File? && e.content.Some? then Some(Strip(e.content.value)) else None
  }

  /**
   * `_save_version`: write the tag into the sentinel, creating it last in the listing when it is
   * missing. Nothing changes when the write fails: `writable` is false, or the sentinel's name is
   * taken by a directory.
   */
  function SaveVersion(tree: seq<Entry>, version: string, writable: bool): (r: seq<Entry>)
    ensures !writable ==> r == tree
    ensures writable && (forall k :: 0 <= k < |tree| && tree[k].name == SentinelName ==> tree[k].File?)
            ==> CurrentVersion(Some(r)) == Some(Strip(version))
    ensures forall e :: e in tree && e.name != SentinelName ==> e in r
    ensures forall e :: e in r && e.name != SentinelName ==> e in tree
  {
    var written := File(SentinelName, Some(version));
    if !writable then tree
    else
      match SentinelIndex(tree)
      case None =>
        SentinelAppended(tree, written);
        tree + [written]
      case Some(k) =>
        if tree[k].Dir? then tree
        else
          var r := tree[k := written];
          assert forall j :: 0 <= j < |tree| && j != k ==> r[j] == tree[j];
          assert r[k] == written;
          assert SentinelIndex(r) == Some(k);
          ReplaceKeeps(tree, k, written);
          r
  }

  /** A sentinel appended to a tree without one is found last. */
  lemma {:induction false} SentinelAppended(tree: seq<Entry>, e: Entry)
    requires SentinelIndex(tree).None? && e.name == SentinelName
    ensures SentinelIndex(tree + [e]) == Some(|tree|)
  {
    if tree == [] {
      assert tree + [e] == [e];
    } else {
      assert (tree + [e])[0] == tree[0];
      assert (tree + [e])[1..] == tree[1..] + [e];
      SentinelAppended(tree[1..], e);
    }
  }

  /** Overwriting the entry at `k` keeps every other entry. */
  lemma ReplaceKeeps(tree: seq<Entry>, k: nat, e: Entry)
    requires k < |tree|
    ensures forall x :: x in tree && x.name != tree[k].name ==> x in tree[k := e]
    ensures forall x :: x in tree[k := e] && x.name != e.name ==> x in tree
  {
    forall x | x in tree && x.name != tree[k].name
      ensures x in tree[k := e]
    {
      var j :| 0 <= j < |tree| && tree[j] == x;
      assert tree[k := e][j] == x;
    }
    forall x | x in tree[k := e] && x.name != e.name
      ensures x in tree
    {
      var j :| 0 <= j < |tree| && tree[k := e][j] == x;
      assert tree[j] == x;
    }
  }

  // ---------------------------------------------------------------------------------------------
  // Installing a release.

  /**
   * The part of the disk the plugin works on: whether the repo folder exists, the templates
   * directory (None when absent), and the two scratch items, the downloaded archive and the
   * directory it is unpacked into.
   */
  datatype Disk = Disk(repoFolder: bool, templates: Option<seq<Entry>>, zip: bool, temp: bool)

  /**
   * What downloading and unpacking one release did: the download failed (perhaps after the
   * archive file was created), the unpacking failed (perhaps after the scratch directory was
   * created), or the archive unpacked into the top-level entries `top`; `renameOk` says whether
   * moving them into place worked and `writable` whether the sentinel could then be written.
   * An archive without members unpacks into nothing: no scratch directory is created, so listing
   * it fails.
   */
  datatype Fetch =
    | DownloadFailed(zipCreated: bool)
    | ExtractFailed(tempCreated: bool)
    | Extracted(top: seq<Entry>, renameOk: bool, writable: bool)

  /** The archive was unpacked into at least one entry. */
  predicate Unpacked(f: Fetch)
  {
    f.Extracted? && f.top != []
  }

  /** Archives unpack into one directory: its contents become the templates, else the whole unpacked tree. */
  function InstalledTree(top: seq<Entry>): seq<Entry>
  {
    if |top| == 1 && top[0].Dir? then top[0].children else top
  }

  /** What `_download_and_extract` leaves on disk, and what it returns. */
  function Install(d: Disk, version: string, f: Fetch): (Disk, bool)
  {
    match f
    case Extracted(top, renameOk, writable) =>
      if top == [] then (d.(zip := false, temp := false), false)
      else if renameOk then (Disk(d.repoFolder, Some(SaveVersion(InstalledTree(top), version, writable)), false, false), true)
      else (Disk(d.repoFolder, None, false, false), false)
    case _ => (d.(zip := false, temp := false), false)
  }

  /** The common part of `initialize` and `update`: nothing to do when the sentinel names the target. */
  function Sync(d: Disk, target: string, f: Fetch): (Disk, bool)
  {
    if CurrentVersion(d.templates) == Some(target) then (d, true)
    else Install(d.(templates := None), target, f)
  }

  /** An install never leaves the archive or the scratch directory behind, and reports success exactly when templates are in place. */
  lemma InstallLeavesNoScratch(d: Disk, version: string, f: Fetch)
    ensures var (d1, ok) := Install(d, version, f);
            !d1.zip && !d1.temp && d1.repoFolder == d.repoFolder
            && (ok <==> Unpacked(f) && f.renameOk)
            && (ok ==> d1.templates == Some(SaveVersion(InstalledTree(f.top), version, f.writable)))
            && (!Unpacked(f) ==> d1.templates == d.templates)
  {
  }

  /**
   * The old templates are deleted before the download: a sync that has work to do and fails
   * leaves no templates at all.
   */
  lemma FailedSyncLeavesNoTemplates(d: Disk, target: string, f: Fetch)
    requires CurrentVersion(d.templates) != Some(target)
    ensures !Sync(d, target, f).1 ==> Sync(d, target, f).0.templates.None?
  {
  }

  /** A sync with nothing to do changes nothing and succeeds. */
  lemma SyncUpToDate(d: Disk, target: string, f: Fetch)
    requires CurrentVersion(d.templates) == Some(target)
    ensures Sync(d, target, f) == (d, true)
  {
  }

  /** A sync with work to do deletes the old templates, then installs. */
  lemma SyncInstalls(d: Disk, target: string, f: Fetch)
    requires CurrentVersion(d.templates) != Some(target)
    ensures Sync(d, target, f) == Install(d.(templates := None), target, f)
  {
  }

  /**
   * A sync that installs a normalized tag and writes the sentinel settles: syncing to the same
   * tag again, whatever the network would do, changes nothing and succeeds.
   */
  lemma SyncSettles(d: Disk, target: string, f: Fetch, g: Fetch)
    requires Normalized(target)
    requires Unpacked(f) && f.renameOk && f.writable
    requires forall k :: 0 <= k < |InstalledTree(f.top)| && InstalledTree(f.top)[k].name == SentinelName
               ==> InstalledTree(f.top)[k].File?
    ensures var (d1, ok) := Sync(d, target, f);
            ok && CurrentVersion(d1.templates) == Some(target) && Sync(d1, target, g) == (d1, true)
  {
    var (d1, ok) := Sync(d, target, f);
    NormalizeKeepsNormalized(target);
    if CurrentVersion(d.templates) != Some(target) {
      SyncInstalls(d, target, f);
      InstallLeavesNoScratch(d.(templates := None), target, f);
      assert d1.templates == Some(SaveVersion(InstalledTree(f.top), target, true));
      assert CurrentVersion(d1.templates) == Some(Strip(target));
    }
  }

  // ---------------------------------------------------------------------------------------------
  // Searching the templates.

  /** The file-name test of `fetch_cve`: the id occurs in the name, ignoring case. */
  predicate Matches(cveId: string, name: string)
  {
    IsSubstring(Upper(cveId), Upper(name)) || IsSubstring(Lower(cveId), Lower(name))
  }

  function Matcher(cveId: string): string -> bool
  {
    name => Matches(cveId, name)
  }

  /** The test ignores the case of the name and of the id, and accepts every exact occurrence. */
  lemma {:induction false} MatchesIgnoresCase(cveId: string, name: string)
    ensures Matches(cveId, Upper(name)) == Matches(cveId, name)
    ensures Matches(cveId, Lower(name)) == Matches(cveId, name)
    ensures Matches(Upper(cveId), name) == Matches(cveId, name)
    ensures Matches(Lower(cveId), name) == Matches(cveId, name)
    ensures IsSubstring(cveId, name) ==> Matches(cveId, name)
  {
    CaseAbsorbs(name);
    CaseAbsorbs(cveId);
    if IsSubstring(cveId, name) {
      SubstringUpper(cveId, name);
    }
  }

  /** The metadata of a hit: where the file is, and the installed release (None if unknown). */
  function HitMetadata(path: string, version: Option<string>): seq<(string, Json)>
  {
    [("file_path", JStr(path)), ("version", if version.Some? then JStr(version.value) else JNull)]
  }

  /** The answer of `fetch_cve` over an installed templates tree, with `rglob` taken in `Walk` order. */
  function Search(cveId: string, root: string, tree: seq<Entry>): Option<CveResult>
  {
    var files := Walk(root, tree);
    match FirstAccepted(files, Matcher(cveId))
    case None => None
    case Some(k) =>
      Some(CveResult(cveId, PluginName, files[k].content.value, Some(HitMetadata(files[k].path, CurrentVersion(Some(tree))))))
  }

  /**
   * A lookup finds something exactly when some readable file of the tree has a matching name; it
   * then answers with the first such file in traversal order, under the id as given and the
   * plugin's name, with that file's path and the installed release as metadata.
   */
  lemma SearchFirstMatch(cveId: string, root: string, tree: seq<Entry>)
    ensures Search(cveId, root, tree).Some? <==>
            exists k :: 0 <= k < |Walk(root, tree)| && Matches(cveId, Walk(root, tree)[k].name) && Walk(root, tree)[k].content.Some?
    ensures Search(cveId, root, tree).Some? ==>
            var r, files := Search(cveId, root, tree).value, Walk(root, tree);
            r.cveId == cveId && r.source == PluginName
            && exists k :: (0 <= k < |files| && Matches(cveId, files[k].name) && Some(r.content) == files[k].content
              && r.metadata == Some(HitMetadata(files[k].path, CurrentVersion(Some(tree))))
              && forall j :: 0 <= j < k ==> !(Matches(cveId, files[j].name) && files[j].content.Some?))
  {
    var files := Walk(root, tree);
    match FirstAccepted(files, Matcher(cveId))
    case None =>
      assert forall k :: 0 <= k < |files| ==> !Accepts(files[k], Matcher(cveId));
    case Some(k) =>
      assert Accepts(files[k], Matcher(cveId));
      assert 0 <= k < |files| && Matches(cveId, files[k].name) && files[k].content.Some?;
      var r := Search(cveId, root, tree);
      assert r == Some(CveResult(cveId, PluginName, files[k].content.value,
                                 Some(HitMetadata(files[k].path, CurrentVersion(Some(tree))))));
      assert Some(r.value.content) == files[k].content;
      assert exists k' :: 0 <= k' < |Walk(root, tree)| && Matches(cveId, Walk(root, tree)[k'].name) && Walk(root, tree)[k'].content.Some?;
      forall j | 0 <= j < k
        ensures !(Matches(cveId, files[j].name) && files[j].content.Some?)
      {
        assert !Accepts(files[j], Matcher(cveId));
      }
  }

  // ---------------------------------------------------------------------------------------------

  /** `NucleiOpenSourcePlugin`. */
  class NucleiOpenSourcePlugin {
    const name: string := PluginName
    const priority: int
    var enabled: bool
    const repoFolder: string
    /** The configured release, normalized. */
    const version: string
    const autoUpdate: bool
    /** The disk as the plugin sees it. */
    var disk: Disk

    constructor (repoFolder: string, disk: Disk, version: Option<string> := Some(DefaultVersion), autoUpdate: bool := false,
                 priority: int := DefaultPriority, enabled: bool := true)
      ensures this.name == PluginName && this.priority == priority && this.enabled == enabled
      ensures this.repoFolder == repoFolder && this.autoUpdate == autoUpdate && this.disk == disk
      ensures this.version == NormalizeVersion(version) && Normalized(this.version)
    {
      this.priority := priority;
      this.enabled := enabled;
      this.repoFolder := repoFolder;
      this.version := NormalizeVersion(version);
      this.autoUpdate := autoUpdate;
      this.disk := disk;
    }

    /** `is_available`: enabled, and the templates directory exists. */
    predicate IsAvailable()
      reads this
    {
      enabled && disk.templates.Some?
    }

    /** Cleanup after a failed install: the archive and the scratch directory are removed. */
    method CleanUp()
      modifies this`disk
      ensures disk == old(disk).(zip := false, temp := false)
    {
      if disk.zip {
        disk := disk.(zip := false);
      }
      if disk.temp {
        disk := disk.(temp := false);
      }
    }

    /** `_download_and_extract`, step by step. */
    method DownloadAndExtract(v: string, download: string -> Fetch) returns (ok: bool)
      modifies this`disk
      ensures (disk, ok) == Install(old(disk), v, download(ZipUrl(v)))
    {
      var f := download(ZipUrl(v));
      match f {
        case DownloadFailed(zipCreated) =>
          if zipCreated {
            disk := disk.(zip := true);
          }
          CleanUp();
          return false;
        case ExtractFailed(tempCreated) =>
          disk := disk.(zip := true);
          if tempCreated {
            disk := disk.(temp := true);
          }
          CleanUp();
          return false;
        case Extracted(top, renameOk, writable) =>
          disk := disk.(zip := true);
          if top == [] {
            disk := disk.(zip := false);
            CleanUp();
            return false;
          }
          disk := disk.(temp := true);
          disk := disk.(zip := false);
          var installed: seq<Entry>;
          if |top| == 1 && top[0].Dir? {
            if disk.templates.Some? {
              disk := disk.(templates := None);
            }
            if !renameOk {
              CleanUp();
              return false;
            }
            installed := top[0].children;
            disk := disk.(templates := Some(installed));
            disk := disk.(temp := false);
          } else {
            if disk.templates.Some? {
              disk := disk.(templates := None);
            }
            if !renameOk {
              CleanUp();
              return false;
            }
            installed := top;
            disk := disk.(templates := Some(installed), temp := false);
          }
          disk := disk.(templates := Some(SaveVersion(installed, v, writable)));
          return true;
      }
    }

    /** `initialize`: create the folder, then install the target release unless it is already there. */
    method Initialize(release: Release, download: string -> Fetch) returns (ok: bool)
      modifies this`disk
      ensures var target := TargetVersion(autoUpdate, version, release);
              (disk, ok) == Sync(old(disk).(repoFolder := true), target, download(ZipUrl(target)))
    {
      disk := disk.(repoFolder := true);
      var target := TargetVersion(autoUpdate, version, release);
      var current := CurrentVersion(disk.templates);
      if current == Some(target) {
        SyncUpToDate(disk, target, download(ZipUrl(target)));
        return true;
      }
      SyncInstalls(disk, target, download(ZipUrl(target)));
      if disk.templates.Some? {
        disk := disk.(templates := None);
      }
      ok := DownloadAndExtract(target, download);
    }

    /** `update`: a no-op when auto-update is off; otherwise move to the latest release. */
    method Update(release: Release, download: string -> Fetch) returns (ok: bool)
      modifies this`disk
      ensures !autoUpdate ==> ok && disk == old(disk)
      ensures autoUpdate ==> var target := LatestVersion(release, version);
                             (disk, ok) == Sync(old(disk), target, download(ZipUrl(target)))
    {
      if !autoUpdate {
        return true;
      }
      var target := LatestVersion(release, version);
      var current := CurrentVersion(disk.templates);
      if current == Some(target) {
        SyncUpToDate(disk, target, download(ZipUrl(target)));
        return true;
      }
      SyncInstalls(disk, target, download(ZipUrl(target)));
      if disk.templates.Some? {
        disk := disk.(templates := None);
      }
      ok := DownloadAndExtract(target, download);
    }

    /** `fetch_cve`: walk the templates and answer with the first readable file whose name matches. */
    method FetchCve(cveId: string) returns (r: Option<CveResult>)
      ensures r == if IsAvailable() then Search(cveId, TemplatesPath(repoFolder), disk.templates.value) else None
    {
      if !IsAvailable() {
        return None;
      }
      var upper, lower := Upper(cveId), Lower(cveId);
      var tree := disk.templates.value;
      var files := Walk(TemplatesPath(repoFolder), tree);
      var i := 0;
      while i < |files|
        invariant 0 <= i <= |files|
        invariant forall j :: 0 <= j < i ==> !Accepts(files[j], Matcher(cveId))
      {
        var file := files[i];
        if IsSubstring(upper, Upper(file.name)) || IsSubstring(lower, Lower(file.name)) {
          match file.content {
            case Some(text) =>
              assert Accepts(file, Matcher(cveId));
              assert FirstAccepted(files, Matcher(cveId)) == Some(i);
              return Some(CveResult(cveId, name, text, Some(HitMetadata(file.path, CurrentVersion(disk.templates)))));
            case None =>
          }
        }
        i := i + 1;
      }
      return None;
    }
  }
}

/**
 * Directory trees on disk, as the two template searchers see them: directories hold files and
 * directories in listing order, and a file's text is either readable or not (a permission or
 * decoding error).
 */
module FileTree {
  import opened Common

  datatype Entry =
    | File(name: string, content: Option<string>)
    | Dir(name: string, children: seq<Entry>)

  /** A file met during a walk: its full path, its own name, and its text if it can be read. */
  datatype Located = Located(path: string, name: string, content: Option<string>)

  /** `parent / name` on paths. */
  function Child(parent: string, name: string): string
  {
    parent + "/" + name
  }

  /** How many of the entries are files. */
  function FileCount(entries: seq<Entry>): nat
  {
    if entries == [] then 0 else (if entries[0].File? then 1 else 0) + FileCount(entries[1..])
  }

  /** The file an entry is, met under `dir`. */
  function LocatedIn(dir: string, e: Entry): Located
    requires e.File?
  {
    Located(Child(dir, e.name), e.name, e.content)
  }

  /**
   * The files directly inside a directory, in listing order: one per `File` entry, and the k-th
   * file entry sits at the position given by the number of file entries before it.
   */
  function FilesIn(dir: string, entries: seq<Entry>): (r: seq<Located>)
    ensures |r| == FileCount(entries)
    ensures forall k :: 0 <= k < |entries| && entries[k].File? ==>
              FileCount(entries[..k]) < |r| && r[FileCount(entries[..k])] == LocatedIn(dir, entries[k])
    ensures forall k :: 0 <= k < |r| ==> r[k].path == Child(dir, r[k].name)
  {
    if entries == [] then []
    else
      var here := if entries[0].File? then [LocatedIn(dir, entries[0])] else [];
      var rest := FilesIn(dir, entries[1..]);
      forall k | 1 <= k < |entries|
        ensures entries[k] == entries[1..][k - 1]
        ensures FileCount(entries[..k]) == |here| + FileCount(entries[1..][..k - 1])
      {
        FileCountTail(entries, k);
      }
      here + rest
  }

  /** Counting the files of a prefix: the first entry, then the rest of the prefix. */
  lemma FileCountTail(entries: seq<Entry>, k: nat)
    requires 1 <= k <= |entries|
    ensures FileCount(entries[..k]) == (if entries[0].File? then 1 else 0) + FileCount(entries[1..][..k - 1])
  {
    assert entries[..k][1..] == entries[1..][..k - 1];
  }

  /** Upper bound on how deep a walk can go, used for termination. */
  function Size(entries: seq<Entry>): nat
  {
    if entries == [] then 0
    else
      match entries[0]
      case File(_, _) => 1 + Size(entries[1..])
      case Dir(_, children) => 1 + Size(children) + Size(entries[1..])
  }

  /**
   * The top-down traversal of `Path.walk`: the files of a directory first, then each
   * subdirectory in listing order.
   */
  function Walk(dir: string, entries: seq<Entry>): seq<Located>
    decreases Size(entries), 1
  {
    FilesIn(dir, entries) + WalkSubdirs(dir, entries)
  }

  function WalkSubdirs(dir: string, entries: seq<Entry>): seq<Located>
    decreases Size(entries), 0
  {
    if entries == [] then []
    else
      var below := if entries[0].Dir? then Walk(Child(dir, entries[0].name), entries[0].children) else [];
      below + WalkSubdirs(dir, entries[1..])
  }

  /** A file directly inside a directory is met by the walk of that directory. */
  lemma {:induction false} FilesInAreWalked(dir: string, entries: seq<Entry>, k: nat)
    requires k < |entries| && entries[k].File?
    ensures Located(Child(dir, entries[k].name), entries[k].name, entries[k].content) in Walk(dir, entries)
  {
    FilesInContains(dir, entries, k);
  }

  lemma {:induction false} FilesInContains(dir: string, entries: seq<Entry>, k: nat)
    requires k < |entries| && entries[k].File?
    ensures Located(Child(dir, entries[k].name), entries[k].name, entries[k].content) in FilesIn(dir, entries)
  {
    if k > 0 {
      FilesInContains(dir, entries[1..], k - 1);
    }
  }

  /** A file a search accepts: its name matches and its text can be read. */
  predicate Accepts(f: Located, matches: string -> bool)
  {
    matches(f.name) && f.content.Some?
  }

  /**
   * The position of the first file a search accepts: files whose name matches but whose text
   * cannot be read are passed over.
   */
  function FirstAccepted(files: seq<Located>, matches: string -> bool): (r: Option<nat>)
    ensures r.None? <==> forall j :: 0 <= j < |files| ==> !Accepts(files[j], matches)
    ensures r.Some? ==> r.value < |files| && Accepts(files[r.value], matches)
                        && forall j :: 0 <= j < r.value ==> !Accepts(files[j], matches)
  {
    if files == [] then None
    else
      var init := files[..|files| - 1];
      assert forall j :: 0 <= j < |init| ==> init[j] == files[j];
      match FirstAccepted(init, matches)
      case Some(k) => Some(k)
      case None => if Accepts(files[|files| - 1], matches) then Some(|files| - 1) else None
  }

  /** A position that is accepted, after none before it was, is the first accepted one. */
  lemma FirstAcceptedAtIndex(files: seq<Located>, matches: string -> bool, k: nat)
    requires k < |files| && Accepts(files[k], matches)
    requires forall j :: 0 <= j < k ==> !Accepts(files[j], matches)
    ensures FirstAccepted(files, matches) == Some(k)
  {
  }
}

/**
 What a full scan of a directory tree owes its consumer. A directory is what the file system would
 answer about it: whether it opens, its entries in the order the stream yields them, and how the
 stream ends. `Owes` counts the messages a traversal sends; `Reports` says independently, by walking
 down a path, which messages a tree deserves.
 */
module ScanTree {
  import opened Outcomes

  type Path = seq<nat>

  datatype Scope = WholeDirectory | SingleEntry

  /** Visited and Skipped carry their path here only so that two of them can be told apart. */
  datatype Message =
    | Visited(path: Path)
    | Skipped(path: Path)
    | File(path: Path)
    | Error(path: Path, scope: Scope)
    | Fatal

  datatype Directory = Unreadable(fatal: bool) | Readable(entries: Entries)

  datatype Entries = End | Broken(fatal: bool) | More(name: nat, entry: Entry, rest: Entries)

  /** Ignored: symbolic links and other entries that are neither files nor directories. */
  datatype Entry = Regular | Ignored | Failing(fatal: bool, scope: Scope) | Child(directory: Directory)

  datatype Item = Item(path: Path, directory: Directory, root: bool)

  // ---- What a traversal sends when nothing stops it ---------------------------------------------

  function Once(sent: Message, m: Message): nat {
    if sent == m then 1 else 0
  }

  /** How many copies of `m` a traversal of the directory sends. A fatal failure cuts it short. */
  function DirectoryOwes(path: Path, d: Directory, root: bool, m: Message): nat
    decreases d, 1
  {
    Once(Visited(path), m) + ContentsOwe(path, d, root, m)
  }

  function ContentsOwe(path: Path, d: Directory, root: bool, m: Message): nat
    decreases d, 0
  {
    match d
    case Unreadable(fatal) => if root || fatal then 0 else Once(Error(path, WholeDirectory), m)
    case Readable(entries) => EntriesOwe(path, entries, root, m)
  }

  function EntriesOwe(path: Path, entries: Entries, root: bool, m: Message): nat
    decreases entries
  {
    match entries
    case End => 0
    case Broken(fatal) => if root || fatal then 0 else Once(Error(path, WholeDirectory), m)
    case More(name, entry, rest) =>
      if entry.Failing? && entry.fatal then 0
      else EntryOwes(path + [name], entry, m) + EntriesOwe(path, rest, root, m)
  }

  function EntryOwes(path: Path, entry: Entry, m: Message): nat
    decreases entry
  {
    match entry
    case Regular => Once(File(path), m)
    case Ignored => Once(Skipped(path), m)
    case Failing(_, scope) => Once(Error(path, scope), m)
    case Child(directory) => DirectoryOwes(path, directory, false, m)
  }

  // ---- What the tree deserves, by walking down a path -------------------------------------------

  function Lookup(entries: Entries, name: nat): Option<Entry> {
    match entries
    case More(n, entry, rest) => if n == name then Some(entry) else Lookup(rest, name)
    case _ => None
  }

  /** The entry at the relative path; the empty path is the directory itself. */
  function Walk(d: Directory, path: Path): Option<Entry>
    decreases |path|
  {
    if path == [] then Some(Child(d))
    else if d.Unreadable? then None
    else
      var entry := Lookup(d.entries, path[0]);
      if entry.Some? && entry.value.Child? then Walk(entry.value.directory, path[1..])
      else if |path| == 1 then entry
      else None
  }

  predicate EndsBroken(entries: Entries) {
    match entries
    case End => false
    case Broken(_) => true
    case More(_, _, rest) => EndsBroken(rest)
  }

  predicate Breaks(d: Directory) {
    d.Unreadable? || EndsBroken(d.entries)
  }

  predicate EntryReports(entry: Entry, m: Message) {
    match m
    case Visited(_) => entry.Child?
    case Skipped(_) => entry.Ignored?
    case File(_) => entry.Regular?
    case Error(_, scope) =>
      || (entry.Failing? && entry.scope == scope)
      || (scope.WholeDirectory? && entry.Child? && Breaks(entry.directory))
    case Fatal => false
  }

  /** The tree below the directory deserves `m`, whose path is `path` seen from the directory. */
  predicate Reports(d: Directory, path: Path, m: Message) {
    var entry := Walk(d, path);
    entry.Some? && EntryReports(entry.value, m)
  }

  // ---- Trees without fatal failures, whose entries have distinct names --------------------------

  predicate Names(entries: Entries, name: nat) {
    entries.More? && (entries.name == name || Names(entries.rest, name))
  }

  predicate Distinct(d: Directory) {
    d.Unreadable? || DistinctEntries(d.entries)
  }

  predicate DistinctEntries(entries: Entries) {
    entries.More? ==>
      && !Names(entries.rest, entries.name)
      && (entries.entry.Child? ==> Distinct(entries.entry.directory))
      && DistinctEntries(entries.rest)
  }

  predicate Sound(d: Directory, root: bool) {
    match d
    case Unreadable(fatal) => !root && !fatal
    case Readable(entries) => SoundEntries(entries, root)
  }

  predicate SoundEntries(entries: Entries, root: bool) {
    match entries
    case End => true
    case Broken(fatal) => !root && !fatal
    case More(_, entry, rest) =>
      && (entry.Failing? ==> !entry.fatal)
      && (entry.Child? ==> Sound(entry.directory, false))
      && SoundEntries(rest, root)
  }

  // ---- The two agree --------------------------------------------------------------------------

  predicate Covers(path: Path, m: Message) {
    !m.Fatal? && path <= m.path
  }

  lemma {:induction false} NothingOutside(path: Path, d: Directory, root: bool, m: Message)
    requires !Covers(path, m)
    ensures DirectoryOwes(path, d, root, m) == 0
    decreases d
  {
    if d.Readable? {
      NoEntryOutside(path, d.entries, root, m);
    }
  }

  lemma {:induction false} NoEntryOutside(path: Path, entries: Entries, root: bool, m: Message)
    requires !Covers(path, m)
    ensures EntriesOwe(path, entries, root, m) == 0
    decreases entries
  {
    if entries.More? {
      assert !Covers(path + [entries.name], m);
      if entries.entry.Child? {
        NothingOutside(path + [entries.name], entries.entry.directory, false, m);
      }
      NoEntryOutside(path, entries.rest, root, m);
    }
  }

  lemma EntryStaysInside(path: Path, entry: Entry, m: Message)
    requires !Covers(path, m)
    ensures EntryOwes(path, entry, m) == 0
  {
    if entry.Child? {
      NothingOutside(path, entry.directory, false, m);
    }
  }

  lemma {:induction false} LookupNames(entries: Entries, name: nat)
    ensures Lookup(entries, name).Some? <==> Names(entries, name)
  {
    if entries.More? {
      LookupNames(entries.rest, name);
    }
  }

  /** The entries of a directory owe what the one entry on the message's path owes. */
  lemma {:induction false} EntriesOweByName(path: Path, entries: Entries, root: bool, m: Message)
    requires Covers(path, m) && SoundEntries(entries, root) && DistinctEntries(entries)
    ensures EntriesOwe(path, entries, root, m) ==
            if m.path == path then
              if EndsBroken(entries) && m == Error(path, WholeDirectory) then 1 else 0
            else
              var name := m.path[|path|];
              var entry := Lookup(entries, name);
              if entry.Some? then EntryOwes(path + [name], entry.value, m) else 0
  {
    if entries.More? {
      EntriesOweByName(path, entries.rest, root, m);
      if m.path == path || m.path[|path|] != entries.name {
        assert !(path + [entries.name] <= m.path);
        EntryStaysInside(path + [entries.name], entries.entry, m);
      } else {
        LookupNames(entries.rest, entries.name);
      }
    }
  }

  lemma LookupKeeps(entries: Entries, root: bool, name: nat)
    requires SoundEntries(entries, root) && DistinctEntries(entries)
    ensures var entry := Lookup(entries, name);
            entry.Some? && entry.value.Child? ==>
              Sound(entry.value.directory, false) && Distinct(entry.value.directory)
  {
  }

  lemma OwnMessages(path: Path, d: Directory, root: bool, m: Message)
    requires Sound(d, root) && Distinct(d)
    requires Covers(path, m) && m.path == path
    ensures DirectoryOwes(path, d, root, m) == if EntryReports(Child(d), m) then 1 else 0
  {
    if d.Readable? {
      EntriesOweByName(path, d.entries, root, m);
    }
  }

  /** A message from further down is owed by the entry on its path, if there is one. */
  lemma DeeperMessages(path: Path, d: Directory, root: bool, m: Message)
    requires Sound(d, root) && Distinct(d)
    requires Covers(path, m) && m.path != path
    ensures var entry := if d.Readable? then Lookup(d.entries, m.path[|path|]) else None;
            && DirectoryOwes(path, d, root, m)
               == (if entry.Some? then EntryOwes(path + [m.path[|path|]], entry.value, m) else 0)
            && (entry.Some? && entry.value.Child? ==>
                  Sound(entry.value.directory, false) && Distinct(entry.value.directory))
  {
    if d.Readable? {
      EntriesOweByName(path, d.entries, root, m);
      LookupKeeps(d.entries, root, m.path[|path|]);
    }
  }

  /** An undisturbed traversal of a tree sends each deserved message exactly once, and nothing else. */
  lemma {:induction false} EachDeservedMessageOnce(path: Path, d: Directory, root: bool, m: Message)
    requires Sound(d, root) && Distinct(d)
    ensures DirectoryOwes(path, d, root, m) ==
            if Covers(path, m) && Reports(d, m.path[|path|..], m) then 1 else 0
    decreases if m.Fatal? then 0 else |m.path| - |path|
  {
    if !Covers(path, m) {
      NothingOutside(path, d, root, m);
    } else if m.path == path {
      OwnMessages(path, d, root, m);
    } else {
      DeeperMessages(path, d, root, m);
      var name, tail := m.path[|path|], m.path[|path|..];
      assert tail[0] == name && tail[1..] == m.path[|path| + 1..];
      if d.Readable? {
        var entry := Lookup(d.entries, name);
        if entry.Some? && entry.value.Child? {
          EachDeservedMessageOnce(path + [name], entry.value.directory, false, m);
        }
      }
    }
  }
}

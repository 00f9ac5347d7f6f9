/** The build worker of build-server/script.js: it republishes the build
    tool's output as log events on `logs:<PROJECT_ID>`, then walks the `dist`
    directory depth-first and puts every regular file into the artifact store
    under `__outputs/<PROJECT_ID>/<relative path>`.

    The build tool's output arrives as a sequence of chunks; the file system
    is a tree of entries in listing order; the artifact store is a map from
    key to stored object; the bus is the append-only sequence of published
    messages. The content-type library and the store's answer to each put are
    oracles carried by the worker's context. */
module BuildWorker {

  import opened Wrappers
  import Json

  newtype byte = b: int | 0 <= b < 256

  /** A directory entry as `readdirSync(..., { withFileTypes: true })` lists it. */
  datatype Entry = File(name: string, content: seq<byte>) | Dir(name: string, children: seq<Entry>)

  /** One "data" event of the build process, on standard output or standard error. */
  datatype Chunk = Stdout(data: string) | Stderr(data: string)

  /** A bus publication: the channel and the log text; the string that goes
      on the wire is its JSON payload. */
  datatype Message = Message(channel: string, log: string) {

    /** `JSON.stringify({ log })`. */
    function Payload(): string
    {
      Json.Payload(log)
    }
  }

  /** What one successful put leaves in the store under its key. */
  datatype StoredObject = StoredObject(body: seq<byte>, contentType: string)

  /** A regular file met by the walk: the names of the directories from the
      `dist` root down to it, its own name and its bytes. */
  datatype Leaf = Leaf(dirs: seq<string>, name: string, content: seq<byte>)

  /** What the worker is bound to and what the services it calls answer. */
  datatype Context = Context(
    projectId: string,                  // the PROJECT_ID environment value
    distPath: string,                   // the absolute path of output/dist
    lookup: string -> Option<string>,   // mime.lookup on a file path; None for `false`
    putSucceeds: string -> bool)        // whether the store accepts the put of the file at a path

  /** How the handler for the build process's "close" event ends. */
  datatype CloseOutcome =
    | Completed        // the walk returned and `Done` was published
    | Exited(code: int) // process.exit was called
    | Aborted          // an exception was caught and written to the console

  /** What the worker finds when the build process has closed. */
  datatype DistState =
    | NoOutputDir                       // listing the output directory throws
    | NoDist                            // output/dist does not exist
    | DistNotDirectory                  // output/dist exists but cannot be listed
    | DistDirectory(contents: seq<Entry>)

  const StartedText := "Build Started..."
  const CompleteText := "Build Complete"
  const StartUploadText := "Starting to upload"
  const DoneText := "Done"
  const UploadingPrefix := "uploading "
  const UploadedPrefix := "uploaded "
  const ErrorPrefix := "error: "
  const KeyPrefix := "__outputs/"
  const DefaultContentType := "application/octet-stream"

  // ---------------------------------------------------------------- publishing

  /** The bus channel of a project's log events. */
  function Channel(projectId: string): string
  {
    "logs:" + projectId
  }

  /** The message `publishLog(text)` puts on the bus. */
  function Publication(projectId: string, text: string): Message
  {
    Message(Channel(projectId), text)
  }

  /** The messages `publishLog` puts on the bus for `texts`, in order. */
  function Publications(projectId: string, texts: seq<string>): seq<Message>
  {
    if texts == [] then [] else [Publication(projectId, texts[0])] + Publications(projectId, texts[1..])
  }

  /** Every published message is on the project's channel and carries its
      log text unchanged. */
  lemma {:induction false} PublicationsCarryText(projectId: string, texts: seq<string>)
    ensures |Publications(projectId, texts)| == |texts|
    ensures forall i :: 0 <= i < |texts| ==>
      Publications(projectId, texts)[i] == Publication(projectId, texts[i]) &&
      Publications(projectId, texts)[i].channel == "logs:" + projectId &&
      Json.DecodePayload(Publications(projectId, texts)[i].Payload()) == Some(texts[i])
  {
    if texts != [] {
      PublicationsCarryText(projectId, texts[1..]);
      Json.PayloadRoundTrip(texts[0]);
    }
  }

  lemma PublicationsSingle(projectId: string, text: string)
    ensures Publications(projectId, [text]) == [Publication(projectId, text)]
  {
    assert [text][1..] == [];
  }

  lemma {:induction false} PublicationsAppend(projectId: string, a: seq<string>, b: seq<string>)
    ensures Publications(projectId, a + b) == Publications(projectId, a) + Publications(projectId, b)
  {
    if a == [] {
      assert a + b == b;
    } else {
      assert (a + b)[0] == a[0];
      assert (a + b)[1..] == a[1..] + b;
      PublicationsAppend(projectId, a[1..], b);
    }
  }

  /** The log text of one chunk: standard output verbatim, standard error
      behind `error: `. */
  function ChunkText(c: Chunk): string
  {
    match c
    case Stdout(data) => data
    case Stderr(data) => ErrorPrefix + data
  }

  function ChunkTexts(cs: seq<Chunk>): (r: seq<string>)
    ensures |r| == |cs|
    ensures forall i :: 0 <= i < |cs| ==> r[i] == ChunkText(cs[i])
  {
    if cs == [] then [] else [ChunkText(cs[0])] + ChunkTexts(cs[1..])
  }

  // ------------------------------------------------------ keys and content types

  /** Names joined with `/`: what path.join and path.relative compute for the
      names a directory listing returns. */
  function JoinPath(parts: seq<string>): string
  {
    if |parts| == 0 then ""
    else if |parts| == 1 then parts[0]
    else parts[0] + "/" + JoinPath(parts[1..])
  }

  /** The path of a file relative to the `dist` root. */
  function RelativePath(leaf: Leaf): string
  {
    JoinPath(Path(leaf))
  }

  /** The names from the `dist` root down to a file. */
  function Path(leaf: Leaf): seq<string>
  {
    leaf.dirs + [leaf.name]
  }

  /** The absolute path of a file, as passed to the content-type lookup and
      to the store's read stream. */
  function FilePath(ctx: Context, leaf: Leaf): string
  {
    ctx.distPath + "/" + RelativePath(leaf)
  }

  /** `s.replace(/\\/g, '/')`. */
  function Slashed(s: string): (r: string)
    ensures |r| == |s|
    ensures forall i :: 0 <= i < |s| ==> r[i] == (if s[i] == '\\' then '/' else s[i])
    ensures '\\' !in r
  {
    if s == [] then [] else [if s[0] == '\\' then '/' else s[0]] + Slashed(s[1..])
  }

  /** The store key of a file. */
  function StorageKey(projectId: string, leaf: Leaf): (key: string)
    ensures key == KeyPrefix + projectId + "/" + Slashed(RelativePath(leaf))
    ensures '\\' !in key[|KeyPrefix + projectId + "/"|..]
  {
    var prefix := KeyPrefix + projectId + "/";
    assert (prefix + Slashed(RelativePath(leaf)))[|prefix|..] == Slashed(RelativePath(leaf));
    prefix + Slashed(RelativePath(leaf))
  }

  /** `mime.lookup(path) || 'application/octet-stream'`: any falsy lookup
      result, including the empty string, falls back to the binary type. */
  function ContentType(ctx: Context, path: string): (t: string)
    ensures t != ""
    ensures ctx.lookup(path).Some? && ctx.lookup(path).value != "" ==> t == ctx.lookup(path).value
    ensures ctx.lookup(path).None? || ctx.lookup(path).value == "" ==> t == DefaultContentType
  {
    match ctx.lookup(path)
    case Some(found) => if found != "" then found else DefaultContentType
    case None => DefaultContentType
  }

  // ---------------------------------------------------- the walk, as functions

  /** The regular files under `entries`, depth-first in listing order;
      directories contribute their contents and never themselves. */
  function Leaves(entries: seq<Entry>, dirs: seq<string>): seq<Leaf>
    decreases entries
  {
    if entries == [] then [] else EntryLeaves(entries[0], dirs) + Leaves(entries[1..], dirs)
  }

  /** The files one entry of a listing contributes to the walk. */
  function EntryLeaves(e: Entry, dirs: seq<string>): seq<Leaf>
    decreases e
  {
    match e
    case File(name, content) => [Leaf(dirs, name, content)]
    case Dir(name, children) => Leaves(children, dirs + [name])
  }

  /** The log texts of one file: `uploading <name>`, then `uploaded <name>`
      only when the put succeeds. */
  function FileTexts(ctx: Context, leaf: Leaf): seq<string>
  {
    [UploadingPrefix + leaf.name]
    + (if ctx.putSucceeds(FilePath(ctx, leaf)) then [UploadedPrefix + leaf.name] else [])
  }

  /** The log texts of one `uploadFiles` call on a directory listing. */
  function UploadTexts(ctx: Context, entries: seq<Entry>, dirs: seq<string>): seq<string>
    decreases entries, 1
  {
    [StartUploadText] + EntryTexts(ctx, entries, dirs)
  }

  /** The log texts of the loop of an `uploadFiles` call. */
  function EntryTexts(ctx: Context, entries: seq<Entry>, dirs: seq<string>): seq<string>
    decreases entries, 0
  {
    if entries == [] then [] else EntryTextsOf(ctx, entries[0], dirs) + EntryTexts(ctx, entries[1..], dirs)
  }

  /** The log texts one entry of a listing contributes to the walk. */
  function EntryTextsOf(ctx: Context, e: Entry, dirs: seq<string>): seq<string>
    decreases e
  {
    match e
    case File(name, content) => FileTexts(ctx, Leaf(dirs, name, content))
    case Dir(name, children) => UploadTexts(ctx, children, dirs + [name])
  }

  /** The store after the put of one file, which succeeds or fails as the
      store decides. */
  function Put(ctx: Context, store: map<string, StoredObject>, leaf: Leaf): map<string, StoredObject>
  {
    if ctx.putSucceeds(FilePath(ctx, leaf)) then
      store[StorageKey(ctx.projectId, leaf) := StoredObject(leaf.content, ContentType(ctx, FilePath(ctx, leaf)))]
    else store
  }

  /** The store after the puts of `leaves`, in order. */
  function Uploaded(ctx: Context, store: map<string, StoredObject>, leaves: seq<Leaf>): map<string, StoredObject>
    decreases |leaves|
  {
    if leaves == [] then store else Uploaded(ctx, Put(ctx, store, leaves[0]), leaves[1..])
  }

  /** Extending a listing prefix by one entry extends the walk by that entry. */
  lemma WalkStep(ctx: Context, entries: seq<Entry>, i: nat, dirs: seq<string>)
    requires i < |entries|
    ensures Leaves(entries[..i + 1], dirs) == Leaves(entries[..i], dirs) + EntryLeaves(entries[i], dirs)
    ensures EntryTexts(ctx, entries[..i + 1], dirs) == EntryTexts(ctx, entries[..i], dirs) + EntryTextsOf(ctx, entries[i], dirs)
  {
    var one := [entries[i]];
    assert entries[..i + 1] == entries[..i] + one;
    assert one[1..] == [];
    LeavesAppend(entries[..i], one, dirs);
    EntryTextsAppend(ctx, entries[..i], one, dirs);
  }

  /** One turn of the walk's loop, for the log: what the entry at `i`
      publishes extends what the entries before it published. */
  lemma WalkLogStep(ctx: Context, entries: seq<Entry>, i: nat, dirs: seq<string>,
                    start: seq<Message>, before: seq<Message>, after: seq<Message>)
    requires i < |entries|
    requires before == start + Publications(ctx.projectId, EntryTexts(ctx, entries[..i], dirs))
    requires after == before + Publications(ctx.projectId, EntryTextsOf(ctx, entries[i], dirs))
    ensures after == start + Publications(ctx.projectId, EntryTexts(ctx, entries[..i + 1], dirs))
  {
    WalkStep(ctx, entries, i, dirs);
    PublicationsAppend(ctx.projectId, EntryTexts(ctx, entries[..i], dirs), EntryTextsOf(ctx, entries[i], dirs));
  }

  /** One turn of the walk's loop, for the store. */
  lemma WalkStoreStep(ctx: Context, entries: seq<Entry>, i: nat, dirs: seq<string>,
                      start: map<string, StoredObject>, before: map<string, StoredObject>, after: map<string, StoredObject>)
    requires i < |entries|
    requires before == Uploaded(ctx, start, Leaves(entries[..i], dirs))
    requires after == Uploaded(ctx, before, EntryLeaves(entries[i], dirs))
    ensures after == Uploaded(ctx, start, Leaves(entries[..i + 1], dirs))
  {
    WalkStep(ctx, entries, i, dirs);
    UploadedAppend(ctx, start, Leaves(entries[..i], dirs), EntryLeaves(entries[i], dirs));
  }

  lemma UploadedSingle(ctx: Context, store: map<string, StoredObject>, leaf: Leaf)
    ensures Uploaded(ctx, store, [leaf]) == Put(ctx, store, leaf)
  {
    assert [leaf][1..] == [];
  }

  lemma {:induction false} LeavesAppend(a: seq<Entry>, b: seq<Entry>, dirs: seq<string>)
    ensures Leaves(a + b, dirs) == Leaves(a, dirs) + Leaves(b, dirs)
  {
    if a == [] {
      assert a + b == b;
    } else {
      assert (a + b)[0] == a[0];
      assert (a + b)[1..] == a[1..] + b;
      LeavesAppend(a[1..], b, dirs);
    }
  }

  lemma {:induction false} EntryTextsAppend(ctx: Context, a: seq<Entry>, b: seq<Entry>, dirs: seq<string>)
    ensures EntryTexts(ctx, a + b, dirs) == EntryTexts(ctx, a, dirs) + EntryTexts(ctx, b, dirs)
  {
    if a == [] {
      assert a + b == b;
    } else {
      assert (a + b)[0] == a[0];
      assert (a + b)[1..] == a[1..] + b;
      EntryTextsAppend(ctx, a[1..], b, dirs);
    }
  }

  lemma {:induction false} UploadedAppend(ctx: Context, store: map<string, StoredObject>, a: seq<Leaf>, b: seq<Leaf>)
    decreases |a|
    ensures Uploaded(ctx, store, a + b) == Uploaded(ctx, Uploaded(ctx, store, a), b)
  {
    if a == [] {
      assert a + b == b;
    } else {
      assert (a + b)[1..] == a[1..] + b;
      UploadedAppend(ctx, Put(ctx, store, a[0]), a[1..], b);
    }
  }

  // -------------------------------------------------- the whole run, as functions

  /** What the close handler finds on disk: `output` is the listing of the
      output directory, None when it cannot be listed. The `dist` entry is the
      first one of that name. */
  function DistOf(output: Option<seq<Entry>>): DistState
  {
    match output
    case None => NoOutputDir
    case Some(entries) => DistIn(entries)
  }

  function DistIn(entries: seq<Entry>): DistState
  {
    if entries == [] then NoDist
    else if entries[0].name == "dist" then
      (match entries[0]
       case Dir(_, children) => DistDirectory(children)
       case File(_, _) => DistNotDirectory)
    else DistIn(entries[1..])
  }

  /** The log texts of the close handler. */
  function CloseTexts(ctx: Context, output: Option<seq<Entry>>): seq<string>
  {
    [CompleteText]
    + (match DistOf(output)
       case DistDirectory(contents) => UploadTexts(ctx, contents, []) + [DoneText]
       case _ => [])
  }

  /** The store after the close handler. */
  function CloseStore(ctx: Context, store: map<string, StoredObject>, output: Option<seq<Entry>>): map<string, StoredObject>
  {
    match DistOf(output)
    case DistDirectory(contents) => Uploaded(ctx, store, Leaves(contents, []))
    case _ => store
  }

  function CloseOutcomeOf(output: Option<seq<Entry>>): CloseOutcome
  {
    match DistOf(output)
    case DistDirectory(_) => Completed
    case NoDist => Exited(1)
    case _ => Aborted
  }

  /** All log texts of a run, in publication order. */
  function RunTexts(ctx: Context, chunks: seq<Chunk>, output: Option<seq<Entry>>): seq<string>
  {
    [StartedText] + ChunkTexts(chunks) + CloseTexts(ctx, output)
  }

  // ------------------------------------------------------ properties of the walk

  /** The number of regular files in a tree: an independent count to compare
      the walk with. */
  function FileCount(entries: seq<Entry>): nat
  {
    if entries == [] then 0
    else (match entries[0] case File(_, _) => 1 case Dir(_, children) => FileCount(children)) + FileCount(entries[1..])
  }

  /** The number of directories in a tree, the listing's own directory not included. */
  function DirCount(entries: seq<Entry>): nat
  {
    if entries == [] then 0
    else (match entries[0] case File(_, _) => 0 case Dir(_, children) => 1 + DirCount(children)) + DirCount(entries[1..])
  }

  /** The number of texts that start with `prefix`. */
  function CountPrefixed(prefix: string, texts: seq<string>): nat
  {
    if texts == [] then 0 else (if prefix <= texts[0] then 1 else 0) + CountPrefixed(prefix, texts[1..])
  }

  /** The number of files whose put the store accepts. */
  function SuccessCount(ctx: Context, leaves: seq<Leaf>): nat
  {
    if leaves == [] then 0
    else (if ctx.putSucceeds(FilePath(ctx, leaves[0])) then 1 else 0) + SuccessCount(ctx, leaves[1..])
  }

  /** A text the walk publishes. */
  predicate IsWalkText(t: string)
  {
    t == StartUploadText || UploadingPrefix <= t || UploadedPrefix <= t
  }

  /** The fixed texts of the walk and of the close handler are told apart by
      their first characters. */
  lemma FixedTextsDiffer()
    ensures !(UploadingPrefix <= StartUploadText) && !(UploadedPrefix <= StartUploadText)
    ensures !IsWalkText(DoneText) && !IsWalkText(CompleteText)
  {
    assert StartUploadText[0] == 'S' && UploadingPrefix[0] == 'u' && UploadedPrefix[0] == 'u';
    assert DoneText[0] == 'D' && CompleteText[0] == 'B';
  }

  /** The number of texts in a one-element sequence that start with `prefix`. */
  lemma CountPrefixedSingle(prefix: string, t: string)
    ensures CountPrefixed(prefix, [t]) == if prefix <= t then 1 else 0
  {
    assert [t][1..] == [];
  }

  lemma {:induction false} CountPrefixedAppend(prefix: string, a: seq<string>, b: seq<string>)
    ensures CountPrefixed(prefix, a + b) == CountPrefixed(prefix, a) + CountPrefixed(prefix, b)
  {
    if a == [] {
      assert a + b == b;
    } else {
      assert (a + b)[0] == a[0];
      assert (a + b)[1..] == a[1..] + b;
      CountPrefixedAppend(prefix, a[1..], b);
    }
  }

  lemma {:induction false} SuccessCountAppend(ctx: Context, a: seq<Leaf>, b: seq<Leaf>)
    ensures SuccessCount(ctx, a + b) == SuccessCount(ctx, a) + SuccessCount(ctx, b)
  {
    if a == [] {
      assert a + b == b;
    } else {
      assert (a + b)[0] == a[0];
      assert (a + b)[1..] == a[1..] + b;
      SuccessCountAppend(ctx, a[1..], b);
    }
  }

  /** The texts of one file: one `uploading`, one `uploaded` exactly when
      the put succeeds, and never `Starting to upload`. */
  lemma FileTextsCounts(ctx: Context, leaf: Leaf)
    ensures CountPrefixed(UploadingPrefix, FileTexts(ctx, leaf)) == 1
    ensures CountPrefixed(UploadedPrefix, FileTexts(ctx, leaf)) == SuccessCount(ctx, [leaf])
    ensures multiset(FileTexts(ctx, leaf))[StartUploadText] == 0
    ensures forall t :: t in FileTexts(ctx, leaf) ==> IsWalkText(t)
  {
    var uploading, uploaded := UploadingPrefix + leaf.name, UploadedPrefix + leaf.name;
    assert uploading[..|UploadingPrefix|] == UploadingPrefix;
    assert uploaded[..|UploadedPrefix|] == UploadedPrefix;
    assert uploading[6] == 'i' && uploaded[6] == 'e';
    assert uploading[0] != StartUploadText[0] && uploaded[0] != StartUploadText[0];
    assert [leaf][1..] == [];
    CountPrefixedSingle(UploadingPrefix, uploading);
    CountPrefixedSingle(UploadedPrefix, uploading);
    var texts := FileTexts(ctx, leaf);
    if ctx.putSucceeds(FilePath(ctx, leaf)) {
      assert texts == [uploading] + [uploaded];
      CountPrefixedSingle(UploadingPrefix, uploaded);
      CountPrefixedSingle(UploadedPrefix, uploaded);
      CountPrefixedAppend(UploadingPrefix, [uploading], [uploaded]);
      CountPrefixedAppend(UploadedPrefix, [uploading], [uploaded]);
    } else {
      assert texts == [uploading];
    }
  }

  /** One `uploadFiles` call publishes `Starting to upload` once for its own
      listing and once per directory below it, `uploading` once per regular
      file, and `uploaded` once per accepted put. */
  lemma {:induction false} UploadTextsCounts(ctx: Context, entries: seq<Entry>, dirs: seq<string>)
    decreases entries, 1
    ensures multiset(UploadTexts(ctx, entries, dirs))[StartUploadText] == 1 + DirCount(entries)
    ensures CountPrefixed(UploadingPrefix, UploadTexts(ctx, entries, dirs)) == FileCount(entries)
    ensures CountPrefixed(UploadedPrefix, UploadTexts(ctx, entries, dirs)) == SuccessCount(ctx, Leaves(entries, dirs))
  {
    EntryTextsCounts(ctx, entries, dirs);
    var start: seq<string> := [StartUploadText];
    FixedTextsDiffer();
    CountPrefixedSingle(UploadingPrefix, StartUploadText);
    CountPrefixedSingle(UploadedPrefix, StartUploadText);
    CountPrefixedAppend(UploadingPrefix, start, EntryTexts(ctx, entries, dirs));
    CountPrefixedAppend(UploadedPrefix, start, EntryTexts(ctx, entries, dirs));
  }

  lemma {:induction false} EntryTextsCounts(ctx: Context, entries: seq<Entry>, dirs: seq<string>)
    decreases entries, 0
    ensures multiset(EntryTexts(ctx, entries, dirs))[StartUploadText] == DirCount(entries)
    ensures CountPrefixed(UploadingPrefix, EntryTexts(ctx, entries, dirs)) == FileCount(entries)
    ensures CountPrefixed(UploadedPrefix, EntryTexts(ctx, entries, dirs)) == SuccessCount(ctx, Leaves(entries, dirs))
  {
    if entries != [] {
      var head := EntryTextsOf(ctx, entries[0], dirs);
      var rest := EntryTexts(ctx, entries[1..], dirs);
      assert EntryTexts(ctx, entries, dirs) == head + rest;
      assert Leaves(entries, dirs) == EntryLeaves(entries[0], dirs) + Leaves(entries[1..], dirs);
      match entries[0] {
        case File(name, content) =>
          FileTextsCounts(ctx, Leaf(dirs, name, content));
        case Dir(name, children) =>
          UploadTextsCounts(ctx, children, dirs + [name]);
      }
      EntryTextsCounts(ctx, entries[1..], dirs);
      CountPrefixedAppend(UploadingPrefix, head, rest);
      CountPrefixedAppend(UploadedPrefix, head, rest);
      SuccessCountAppend(ctx, EntryLeaves(entries[0], dirs), Leaves(entries[1..], dirs));
    }
  }

  /** Every text of an `uploadFiles` call is one of its own. */
  lemma {:induction false} UploadTextsShape(ctx: Context, entries: seq<Entry>, dirs: seq<string>)
    decreases entries, 1
    ensures forall t :: t in UploadTexts(ctx, entries, dirs) ==> IsWalkText(t)
  {
    EntryTextsShape(ctx, entries, dirs);
  }

  lemma {:induction false} EntryTextsShape(ctx: Context, entries: seq<Entry>, dirs: seq<string>)
    decreases entries, 0
    ensures forall t :: t in EntryTexts(ctx, entries, dirs) ==> IsWalkText(t)
  {
    if entries != [] {
      assert EntryTexts(ctx, entries, dirs) == EntryTextsOf(ctx, entries[0], dirs) + EntryTexts(ctx, entries[1..], dirs);
      match entries[0] {
        case File(name, content) =>
          FileTextsCounts(ctx, Leaf(dirs, name, content));
        case Dir(name, children) =>
          UploadTextsShape(ctx, children, dirs + [name]);
      }
      EntryTextsShape(ctx, entries[1..], dirs);
    }
  }

  /** The walk has one leaf per regular file. */
  lemma {:induction false} LeavesCount(entries: seq<Entry>, dirs: seq<string>)
    ensures |Leaves(entries, dirs)| == FileCount(entries)
  {
    if entries != [] {
      match entries[0] {
        case File(_, _) =>
        case Dir(name, children) => LeavesCount(children, dirs + [name]);
      }
      LeavesCount(entries[1..], dirs);
    }
  }

  // ------------------------------------------------------ well-formed trees

  /** A name as a directory listing holds it: not empty and without a path
      separator. A backslash is excluded too, since the key derivation
      rewrites every backslash to `/` (`Slashed`; BackslashNamesShareKey
      shows what that merges). */
  predicate GoodName(n: string)
  {
    n != "" && '/' !in n && '\\' !in n
  }

  predicate GoodPath(p: seq<string>)
  {
    forall k :: 0 <= k < |p| ==> GoodName(p[k])
  }

  /** The names of a listing, in order. */
  function Names(entries: seq<Entry>): (r: seq<string>)
    ensures |r| == |entries|
    ensures forall i :: 0 <= i < |entries| ==> r[i] == entries[i].name
  {
    if entries == [] then [] else [entries[0].name] + Names(entries[1..])
  }

  /** A tree as a file system lists it: good names, unique within every
      listing. */
  predicate WellFormed(entries: seq<Entry>)
    decreases entries
  {
    entries == [] ||
    (GoodName(entries[0].name) && entries[0].name !in Names(entries[1..])
     && (entries[0].Dir? ==> WellFormed(entries[0].children))
     && WellFormed(entries[1..]))
  }

  /** Whether `leaf` is a regular file of the tree `entries`, listed at `dirs`:
      a reference definition to compare the walk with. */
  predicate FileIn(entries: seq<Entry>, dirs: seq<string>, leaf: Leaf)
    decreases entries
  {
    exists i :: 0 <= i < |entries| && FileInEntry(entries[i], dirs, leaf)
  }

  predicate FileInEntry(e: Entry, dirs: seq<string>, leaf: Leaf)
    decreases e
  {
    match e
    case File(name, content) => leaf == Leaf(dirs, name, content)
    case Dir(name, children) => FileIn(children, dirs + [name], leaf)
  }

  /** No two leaves of a sequence have the same path. */
  predicate DistinctPaths(leaves: seq<Leaf>)
  {
    forall i, j :: 0 <= i < j < |leaves| ==> Path(leaves[i]) != Path(leaves[j])
  }

  /** The walk visits exactly the regular files of the tree. */
  lemma {:induction false} LeavesMembership(entries: seq<Entry>, dirs: seq<string>)
    decreases entries
    ensures forall leaf :: leaf in Leaves(entries, dirs) <==> FileIn(entries, dirs, leaf)
  {
    if entries != [] {
      var rest := entries[1..];
      EntryLeavesMembership(entries[0], dirs);
      LeavesMembership(rest, dirs);
      forall leaf
        ensures FileIn(entries, dirs, leaf) <==> FileInEntry(entries[0], dirs, leaf) || FileIn(rest, dirs, leaf)
      {
        if FileIn(entries, dirs, leaf) {
          var i :| 0 <= i < |entries| && FileInEntry(entries[i], dirs, leaf);
          if i > 0 {
            assert rest[i - 1] == entries[i];
          }
        }
        if FileIn(rest, dirs, leaf) {
          var i :| 0 <= i < |rest| && FileInEntry(rest[i], dirs, leaf);
          assert entries[i + 1] == rest[i];
        }
        if FileInEntry(entries[0], dirs, leaf) {
          assert 0 < |entries|;
        }
      }
    }
  }

  lemma {:induction false} EntryLeavesMembership(e: Entry, dirs: seq<string>)
    decreases e
    ensures forall leaf :: leaf in EntryLeaves(e, dirs) <==> FileInEntry(e, dirs, leaf)
  {
    match e {
      case File(_, _) =>
      case Dir(name, children) => LeavesMembership(children, dirs + [name]);
    }
  }

  /** Every leaf of a listing at `dirs` lies below `dirs`, under the name of
      one of the listing's entries, and its names below `dirs` are good. */
  lemma {:induction false} LeavesUnder(entries: seq<Entry>, dirs: seq<string>)
    requires WellFormed(entries)
    decreases entries
    ensures forall l :: l in Leaves(entries, dirs) ==>
      |dirs| < |Path(l)| && Path(l)[..|dirs|] == dirs && Path(l)[|dirs|] in Names(entries) && GoodPath(Path(l)[|dirs|..])
  {
    if entries != [] {
      EntryLeavesUnder(entries[0], dirs);
      LeavesUnder(entries[1..], dirs);
      assert Names(entries) == [entries[0].name] + Names(entries[1..]);
    }
  }

  lemma {:induction false} EntryLeavesUnder(e: Entry, dirs: seq<string>)
    requires GoodName(e.name) && (e.Dir? ==> WellFormed(e.children))
    decreases e
    ensures forall l :: l in EntryLeaves(e, dirs) ==>
      |dirs| < |Path(l)| && Path(l)[..|dirs|] == dirs && Path(l)[|dirs|] == e.name && GoodPath(Path(l)[|dirs|..])
  {
    match e {
      case File(name, content) =>
        var p := Path(Leaf(dirs, name, content));
        assert p[..|dirs|] == dirs && p[|dirs|..] == [name];
      case Dir(name, children) =>
        var below := dirs + [name];
        LeavesUnder(children, below);
        forall l | l in EntryLeaves(e, dirs)
          ensures |dirs| < |Path(l)| && Path(l)[..|dirs|] == dirs && Path(l)[|dirs|] == name && GoodPath(Path(l)[|dirs|..])
        {
          var p := Path(l);
          assert p[..|below|] == below;
          assert p[..|dirs|] == below[..|dirs|] == dirs;
          assert p[|dirs|] == below[|dirs|] == name;
          assert p[|dirs|..] == [name] + p[|below|..];
        }
    }
  }

  lemma DistinctPathsAppend(a: seq<Leaf>, b: seq<Leaf>)
    requires DistinctPaths(a) && DistinctPaths(b)
    requires forall x, y :: x in a && y in b ==> Path(x) != Path(y)
    ensures DistinctPaths(a + b)
  {
    forall i, j | 0 <= i < j < |a + b| ensures Path((a + b)[i]) != Path((a + b)[j]) {
      if j < |a| {
        assert (a + b)[i] == a[i] && (a + b)[j] == a[j];
      } else if i >= |a| {
        assert (a + b)[i] == b[i - |a|] && (a + b)[j] == b[j - |a|];
      } else {
        assert (a + b)[i] in a && (a + b)[j] in b;
      }
    }
  }

  /** In a well-formed tree no two files share a path. */
  lemma {:induction false} LeavesDistinct(entries: seq<Entry>, dirs: seq<string>)
    requires WellFormed(entries)
    decreases entries
    ensures DistinctPaths(Leaves(entries, dirs))
  {
    if entries != [] {
      var e, rest := entries[0], entries[1..];
      EntryLeavesDistinct(e, dirs);
      LeavesDistinct(rest, dirs);
      EntryLeavesUnder(e, dirs);
      LeavesUnder(rest, dirs);
      DistinctPathsAppend(EntryLeaves(e, dirs), Leaves(rest, dirs));
    }
  }

  lemma {:induction false} EntryLeavesDistinct(e: Entry, dirs: seq<string>)
    requires e.Dir? ==> WellFormed(e.children)
    decreases e
    ensures DistinctPaths(EntryLeaves(e, dirs))
  {
    match e {
      case File(_, _) =>
      case Dir(name, children) => LeavesDistinct(children, dirs + [name]);
    }
  }

  /** The walk visits every regular file of the tree and nothing else, as
      many leaves as files, and in a well-formed tree each file once. */
  lemma LeavesAreFiles(entries: seq<Entry>, dirs: seq<string>)
    ensures |Leaves(entries, dirs)| == FileCount(entries)
    ensures forall leaf :: leaf in Leaves(entries, dirs) <==> FileIn(entries, dirs, leaf)
    ensures WellFormed(entries) ==>
      forall i, j :: 0 <= i < j < |Leaves(entries, dirs)| ==> Leaves(entries, dirs)[i] != Leaves(entries, dirs)[j]
  {
    LeavesCount(entries, dirs);
    LeavesMembership(entries, dirs);
    if WellFormed(entries) {
      LeavesDistinct(entries, dirs);
    }
  }

  /** The keys of files whose put is accepted. */
  function AcceptedKeys(ctx: Context, leaves: seq<Leaf>): set<string>
  {
    set l | l in leaves && ctx.putSucceeds(FilePath(ctx, l)) :: StorageKey(ctx.projectId, l)
  }

  /** The store after the walk holds what it held before, plus one key per
      accepted put; keys no put touched keep their objects. */
  lemma {:induction false} UploadedKeys(ctx: Context, store: map<string, StoredObject>, leaves: seq<Leaf>)
    decreases |leaves|
    ensures Uploaded(ctx, store, leaves).Keys == store.Keys + AcceptedKeys(ctx, leaves)
    ensures forall k :: k in store && k !in AcceptedKeys(ctx, leaves) ==> Uploaded(ctx, store, leaves)[k] == store[k]
  {
    if leaves != [] {
      UploadedKeys(ctx, Put(ctx, store, leaves[0]), leaves[1..]);
      assert AcceptedKeys(ctx, leaves) == AcceptedKeys(ctx, [leaves[0]]) + AcceptedKeys(ctx, leaves[1..]) by {
        assert forall l :: l in leaves <==> l == leaves[0] || l in leaves[1..];
      }
    }
  }

  /** Round trip: a file whose put was accepted is found under its key with
      its bytes and content type, unless a later accepted put wrote the same
      key. */
  lemma {:induction false} UploadedRoundTrip(ctx: Context, store: map<string, StoredObject>, leaves: seq<Leaf>, i: nat)
    requires i < |leaves|
    requires ctx.putSucceeds(FilePath(ctx, leaves[i]))
    requires forall j :: i < j < |leaves| && ctx.putSucceeds(FilePath(ctx, leaves[j])) ==>
      StorageKey(ctx.projectId, leaves[j]) != StorageKey(ctx.projectId, leaves[i])
    decreases |leaves|
    ensures StorageKey(ctx.projectId, leaves[i]) in Uploaded(ctx, store, leaves)
    ensures Uploaded(ctx, store, leaves)[StorageKey(ctx.projectId, leaves[i])]
         == StoredObject(leaves[i].content, ContentType(ctx, FilePath(ctx, leaves[i])))
  {
    var key := StorageKey(ctx.projectId, leaves[i]);
    if i == 0 {
      var after := Put(ctx, store, leaves[0]);
      UploadedKeys(ctx, after, leaves[1..]);
      assert key !in AcceptedKeys(ctx, leaves[1..]) by {
        forall l | l in leaves[1..] && ctx.putSucceeds(FilePath(ctx, l))
          ensures StorageKey(ctx.projectId, l) != key
        {
          var j :| 0 <= j < |leaves[1..]| && leaves[1..][j] == l;
          assert leaves[j + 1] == l;
        }
      }
    } else {
      UploadedRoundTrip(ctx, Put(ctx, store, leaves[0]), leaves[1..], i - 1);
    }
  }

  /** Keys are told apart by relative paths when no name holds a backslash. */
  lemma DistinctPathsDistinctKeys(projectId: string, a: Leaf, b: Leaf)
    requires '\\' !in RelativePath(a) && '\\' !in RelativePath(b)
    requires RelativePath(a) != RelativePath(b)
    ensures StorageKey(projectId, a) != StorageKey(projectId, b)
  {
    var pa, pb := RelativePath(a), RelativePath(b);
    var prefix := KeyPrefix + projectId + "/";
    assert Slashed(pa) == pa && Slashed(pb) == pb;
    assert StorageKey(projectId, a)[|prefix|..] == pa;
    assert StorageKey(projectId, b)[|prefix|..] == pb;
  }

  /** The backslash rewrite lets two different files share a key: a file
      named `a\b` in the `dist` root and a file `b` in directory `a`. */
  lemma BackslashNamesShareKey(projectId: string, x: seq<byte>, y: seq<byte>)
    ensures RelativePath(Leaf([], "a\\b", x)) != RelativePath(Leaf(["a"], "b", y))
    ensures StorageKey(projectId, Leaf([], "a\\b", x)) == StorageKey(projectId, Leaf(["a"], "b", y))
  {
    assert ([] + ["a\\b"])[1..] == [];
    assert ["a"] + ["b"] == ["a", "b"] && ["a", "b"][1..] == ["b"];
    assert RelativePath(Leaf([], "a\\b", x)) == "a\\b";
    assert RelativePath(Leaf(["a"], "b", y)) == "a/b";
    assert Slashed("a\\b") == "a/b";
    assert Slashed("a/b") == "a/b";
  }

  /** The part of a path up to its first separator. */
  function FirstSegment(s: string): (seg: string)
    ensures seg <= s && '/' !in seg
    ensures |seg| < |s| ==> s[|seg|] == '/'
  {
    if s == [] || s[0] == '/' then [] else [s[0]] + FirstSegment(s[1..])
  }

  /** The conditions of FirstSegment's contract single out one prefix. */
  lemma FirstSegmentUnique(s: string, seg: string)
    requires seg <= s && '/' !in seg
    requires |seg| < |s| ==> s[|seg|] == '/'
    ensures FirstSegment(s) == seg
  {
  }

  /** A joined path of good names starts with its first name, is that name
      alone exactly when there is one name, and otherwise continues, after
      the separator, with the join of the rest. */
  lemma JoinPathHead(p: seq<string>)
    requires GoodPath(p) && |p| > 0
    ensures FirstSegment(JoinPath(p)) == p[0]
    ensures |p| == 1 <==> |JoinPath(p)| == |p[0]|
    ensures |p| > 1 ==> JoinPath(p)[|p[0]| + 1..] == JoinPath(p[1..])
  {
    var s := JoinPath(p);
    if |p| > 1 {
      assert s == p[0] + "/" + JoinPath(p[1..]);
      assert s[..|p[0]|] == p[0] && s[|p[0]|] == '/';
    }
    FirstSegmentUnique(s, p[0]);
  }

  /** Joining good names loses nothing: the join determines the names. */
  lemma {:induction false} JoinPathInjective(p: seq<string>, q: seq<string>)
    requires GoodPath(p) && GoodPath(q)
    requires JoinPath(p) == JoinPath(q)
    decreases |p|
    ensures p == q
  {
    if |p| > 0 && |q| > 0 {
      JoinPathHead(p);
      JoinPathHead(q);
      if |p| > 1 {
        JoinPathInjective(p[1..], q[1..]);
        assert p == [p[0]] + p[1..] && q == [q[0]] + q[1..];
      }
    }
  }

  lemma {:induction false} JoinPathNoBackslash(p: seq<string>)
    requires GoodPath(p)
    ensures '\\' !in JoinPath(p)
  {
    if |p| > 1 {
      JoinPathNoBackslash(p[1..]);
      assert JoinPath(p) == p[0] + "/" + JoinPath(p[1..]);
    }
  }

  /** Files with different paths of good names have different keys. */
  lemma GoodPathsDistinctKeys(projectId: string, a: Leaf, b: Leaf)
    requires GoodPath(Path(a)) && GoodPath(Path(b))
    requires Path(a) != Path(b)
    ensures StorageKey(projectId, a) != StorageKey(projectId, b)
  {
    JoinPathNoBackslash(Path(a));
    JoinPathNoBackslash(Path(b));
    if RelativePath(a) == RelativePath(b) {
      JoinPathInjective(Path(a), Path(b));
    }
    DistinctPathsDistinctKeys(projectId, a, b);
  }

  /** In a well-formed tree listed at good names `dirs`, no two files share
      a key. */
  lemma LeavesDistinctKeys(projectId: string, entries: seq<Entry>, dirs: seq<string>)
    requires WellFormed(entries) && GoodPath(dirs)
    ensures forall i, j :: 0 <= i < j < |Leaves(entries, dirs)| ==>
      StorageKey(projectId, Leaves(entries, dirs)[i]) != StorageKey(projectId, Leaves(entries, dirs)[j])
  {
    var leaves := Leaves(entries, dirs);
    LeavesDistinct(entries, dirs);
    LeavesUnder(entries, dirs);
    forall l | l in leaves ensures GoodPath(Path(l)) {
      assert Path(l) == Path(l)[..|dirs|] + Path(l)[|dirs|..];
    }
    forall i, j | 0 <= i < j < |leaves|
      ensures StorageKey(projectId, leaves[i]) != StorageKey(projectId, leaves[j])
    {
      GoodPathsDistinctKeys(projectId, leaves[i], leaves[j]);
    }
  }

  /** Round trip for a whole tree: after the walk, every regular file of a
      well-formed tree whose put was accepted is stored under its key with
      its bytes and content type. */
  lemma WalkStoresEveryFile(ctx: Context, store: map<string, StoredObject>, entries: seq<Entry>, dirs: seq<string>)
    requires WellFormed(entries) && GoodPath(dirs)
    ensures forall leaf :: FileIn(entries, dirs, leaf) && ctx.putSucceeds(FilePath(ctx, leaf)) ==>
      StorageKey(ctx.projectId, leaf) in Uploaded(ctx, store, Leaves(entries, dirs)) &&
      Uploaded(ctx, store, Leaves(entries, dirs))[StorageKey(ctx.projectId, leaf)]
        == StoredObject(leaf.content, ContentType(ctx, FilePath(ctx, leaf)))
  {
    var leaves := Leaves(entries, dirs);
    LeavesMembership(entries, dirs);
    LeavesDistinctKeys(ctx.projectId, entries, dirs);
    forall leaf | FileIn(entries, dirs, leaf) && ctx.putSucceeds(FilePath(ctx, leaf))
      ensures StorageKey(ctx.projectId, leaf) in Uploaded(ctx, store, leaves)
      ensures Uploaded(ctx, store, leaves)[StorageKey(ctx.projectId, leaf)]
           == StoredObject(leaf.content, ContentType(ctx, FilePath(ctx, leaf)))
    {
      var i :| 0 <= i < |leaves| && leaves[i] == leaf;
      UploadedRoundTrip(ctx, store, leaves, i);
    }
  }

  // ------------------------------------------------------- properties of a run

  /** After `Build Complete`, the close handler publishes only texts of the
      walk and `Done`. */
  lemma CloseTextsShape(ctx: Context, output: Option<seq<Entry>>)
    ensures CloseTexts(ctx, output)[0] == CompleteText
    ensures forall j :: 0 < j < |CloseTexts(ctx, output)| ==>
      IsWalkText(CloseTexts(ctx, output)[j]) || CloseTexts(ctx, output)[j] == DoneText
  {
    match DistOf(output) {
      case DistDirectory(contents) =>
        UploadTextsShape(ctx, contents, []);
        var walk := UploadTexts(ctx, contents, []);
        var close := CloseTexts(ctx, output);
        assert close == [CompleteText] + walk + [DoneText];
        forall j | 0 < j < |close| ensures IsWalkText(close[j]) || close[j] == DoneText {
          if j <= |walk| {
            assert close[j] == walk[j - 1];
          }
        }
      case _ =>
    }
  }

  /** The order of a run's log: `Build Started...` first, the chunks as they
      arrived, `Build Complete`, and after it only texts of the walk and a
      final `Done`. */
  lemma RunOrder(ctx: Context, chunks: seq<Chunk>, output: Option<seq<Entry>>)
    ensures RunTexts(ctx, chunks, output)[0] == StartedText
    ensures forall i :: 0 <= i < |chunks| ==> RunTexts(ctx, chunks, output)[1 + i] == ChunkText(chunks[i])
    ensures RunTexts(ctx, chunks, output)[1 + |chunks|] == CompleteText
    ensures forall j :: 1 + |chunks| < j < |RunTexts(ctx, chunks, output)| ==>
      IsWalkText(RunTexts(ctx, chunks, output)[j]) || RunTexts(ctx, chunks, output)[j] == DoneText
  {
    var texts := RunTexts(ctx, chunks, output);
    var close := CloseTexts(ctx, output);
    var opening := [StartedText] + ChunkTexts(chunks);
    assert texts == opening + close;
    CloseTextsShape(ctx, output);
    assert forall j :: |opening| <= j < |texts| ==> texts[j] == close[j - |opening|];
  }

  /** The walk and `Done` happen exactly when `output/dist` is a directory;
      a missing `dist` ends the process with code 1 and leaves the store as
      it was. */
  lemma UploadIffDistDirectory(ctx: Context, store: map<string, StoredObject>, output: Option<seq<Entry>>)
    ensures DoneText in CloseTexts(ctx, output) <==> DistOf(output).DistDirectory?
    ensures StartUploadText in CloseTexts(ctx, output) <==> DistOf(output).DistDirectory?
    ensures CloseOutcomeOf(output) == Completed <==> DistOf(output).DistDirectory?
    ensures CloseOutcomeOf(output) == Exited(1) <==> DistOf(output) == NoDist
    ensures !DistOf(output).DistDirectory? ==> CloseStore(ctx, store, output) == store
    ensures DistOf(output).DistDirectory? ==> CloseTexts(ctx, output)[|CloseTexts(ctx, output)| - 1] == DoneText
  {
    var close := CloseTexts(ctx, output);
    match DistOf(output) {
      case DistDirectory(contents) =>
        var walk := UploadTexts(ctx, contents, []);
        assert close == [CompleteText] + walk + [DoneText];
        assert walk[0] == StartUploadText;
        assert close[1] == StartUploadText;
      case _ =>
        assert close == [CompleteText];
    }
    if DoneText in close && !DistOf(output).DistDirectory? {
      assert false;
    }
  }

  // ------------------------------------------------------------- the worker

  /** The worker process: what it has published and what the store holds. */
  class Worker {

    const ctx: Context
    var published: seq<Message>
    var store: map<string, StoredObject>

    constructor (ctx: Context, store: map<string, StoredObject>)
      ensures this.ctx == ctx && published == [] && this.store == store
    {
      this.ctx := ctx;
      this.published := [];
      this.store := store;
    }

    /** publishLog (build-server/script.js:21-23). */
    method PublishLog(text: string)
      modifies this`published
      ensures published == old(published) + [Publication(ctx.projectId, text)]
    {
      published := published + [Publication(ctx.projectId, text)];
    }

    /** The "data" handlers of the build process's two streams. */
    method OnData(chunk: Chunk)
      modifies this`published
      ensures published == old(published) + [Publication(ctx.projectId, ChunkText(chunk))]
    {
      match chunk
      case Stdout(data) => PublishLog(data);
      case Stderr(data) => PublishLog(ErrorPrefix + data);
    }

    /** The body of the walk's loop for a regular file: log, put, and log
        success; a failed put is swallowed and the walk goes on. */
    method UploadFile(leaf: Leaf)
      modifies this
      ensures published == old(published) + Publications(ctx.projectId, FileTexts(ctx, leaf))
      ensures store == Put(ctx, old(store), leaf)
    {
      PublishLog(UploadingPrefix + leaf.name);
      PublicationsSingle(ctx.projectId, UploadingPrefix + leaf.name);
      var path := FilePath(ctx, leaf);
      var key := StorageKey(ctx.projectId, leaf);
      var contentType := ContentType(ctx, path);
      if ctx.putSucceeds(path) {
        store := store[key := StoredObject(leaf.content, contentType)];
        PublishLog(UploadedPrefix + leaf.name);
        PublicationsSingle(ctx.projectId, UploadedPrefix + leaf.name);
        PublicationsAppend(ctx.projectId, [UploadingPrefix + leaf.name], [UploadedPrefix + leaf.name]);
      } else {
        assert FileTexts(ctx, leaf) == [UploadingPrefix + leaf.name];
      }
    }

    /** uploadFiles: one `Starting to upload`, then every entry in listing
        order, recursing into directories. */
    method UploadFiles(entries: seq<Entry>, dirs: seq<string>)
      modifies this
      decreases entries
      ensures published == old(published) + Publications(ctx.projectId, UploadTexts(ctx, entries, dirs))
      ensures store == Uploaded(ctx, old(store), Leaves(entries, dirs))
      ensures WellFormed(entries) && GoodPath(dirs) ==>
        forall leaf :: FileIn(entries, dirs, leaf) && ctx.putSucceeds(FilePath(ctx, leaf)) ==>
          StorageKey(ctx.projectId, leaf) in store &&
          store[StorageKey(ctx.projectId, leaf)] == StoredObject(leaf.content, ContentType(ctx, FilePath(ctx, leaf)))
    {
      PublishLog(StartUploadText);
      ghost var start := published;
      assert entries[..0] == [];
      var i := 0;
      while i < |entries|
        invariant 0 <= i <= |entries|
        invariant published == start + Publications(ctx.projectId, EntryTexts(ctx, entries[..i], dirs))
        invariant store == Uploaded(ctx, old(store), Leaves(entries[..i], dirs))
        decreases |entries| - i
      {
        ghost var publishedBefore, storeBefore := published, store;
        match entries[i] {
          case Dir(name, children) =>
            UploadFiles(children, dirs + [name]);
          case File(name, content) =>
            UploadFile(Leaf(dirs, name, content));
            UploadedSingle(ctx, storeBefore, Leaf(dirs, name, content));
        }
        WalkLogStep(ctx, entries, i, dirs, start, publishedBefore, published);
        WalkStoreStep(ctx, entries, i, dirs, old(store), storeBefore, store);
        i := i + 1;
      }
      assert entries[..i] == entries;
      PublicationsSingle(ctx.projectId, StartUploadText);
      PublicationsAppend(ctx.projectId, [StartUploadText], EntryTexts(ctx, entries, dirs));
      if WellFormed(entries) && GoodPath(dirs) {
        WalkStoresEveryFile(ctx, old(store), entries, dirs);
      }
    }

    /** The close handler: `Build Complete`, then the `dist` check, the
        walk and `Done`. */
    method OnClose(output: Option<seq<Entry>>) returns (outcome: CloseOutcome)
      modifies this
      ensures published == old(published) + Publications(ctx.projectId, CloseTexts(ctx, output))
      ensures store == CloseStore(ctx, old(store), output)
      ensures outcome == CloseOutcomeOf(output)
    {
      PublishLog(CompleteText);
      PublicationsSingle(ctx.projectId, CompleteText);
      var dist := DistOf(output);
      if !dist.DistDirectory? {
        outcome := if dist.NoDist? then Exited(1) else Aborted;
        assert CloseTexts(ctx, output) == [CompleteText];
      } else {
        UploadFiles(dist.contents, []);
        PublishLog(DoneText);
        outcome := Completed;
        ghost var walk := UploadTexts(ctx, dist.contents, []);
        PublicationsSingle(ctx.projectId, DoneText);
        PublicationsAppend(ctx.projectId, [CompleteText], walk);
        PublicationsAppend(ctx.projectId, [CompleteText] + walk, [DoneText]);
        assert CloseTexts(ctx, output) == [CompleteText] + walk + [DoneText];
      }
    }

    /** The "data" events of the build process's two streams, in the order
        they arrive. */
    method OnOutput(chunks: seq<Chunk>)
      modifies this`published
      ensures published == old(published) + Publications(ctx.projectId, ChunkTexts(chunks))
    {
      var i := 0;
      while i < |chunks|
        invariant 0 <= i <= |chunks|
        invariant published == old(published) + Publications(ctx.projectId, ChunkTexts(chunks[..i]))
      {
        OnData(chunks[i]);
        assert ChunkTexts(chunks[..i + 1]) == ChunkTexts(chunks[..i]) + [ChunkText(chunks[i])];
        PublicationsSingle(ctx.projectId, ChunkText(chunks[i]));
        PublicationsAppend(ctx.projectId, ChunkTexts(chunks[..i]), [ChunkText(chunks[i])]);
        i := i + 1;
      }
      assert chunks[..i] == chunks;
    }

    /** init: `Build Started...`, the build process's output, then the close
        handler. */
    method Init(chunks: seq<Chunk>, output: Option<seq<Entry>>) returns (outcome: CloseOutcome)
      modifies this
      ensures published == old(published) + Publications(ctx.projectId, RunTexts(ctx, chunks, output))
      ensures store == CloseStore(ctx, old(store), output)
      ensures outcome == CloseOutcomeOf(output)
    {
      ghost var texts := RunTexts(ctx, chunks, output);
      PublishLog(StartedText);
      OnOutput(chunks);
      outcome := OnClose(output);
      PublicationsSingle(ctx.projectId, StartedText);
      PublicationsAppend(ctx.projectId, [StartedText], ChunkTexts(chunks));
      PublicationsAppend(ctx.projectId, [StartedText] + ChunkTexts(chunks), CloseTexts(ctx, output));
      assert texts == [StartedText] + ChunkTexts(chunks) + CloseTexts(ctx, output);
    }
  }
}

/** The re-enroll rewrite of `parton.env`: new contents, and the temp-write, fsync, rename, chmod sequence. */
module EnvRewrite {
  import opened Wrappers
  import opened Text
  import opened OrderedMap
  import opened EnvFile

  const HEARTBEAT_URL := "PARTON_HEARTBEAT_URL"
  const ENROLLMENT_TOKEN := "PARTON_ENROLLMENT_TOKEN"
  const AUTHORITY_VERIFY_KEY := "PARTON_AUTHORITY_VERIFY_KEY"
  const NODE_ID := "PARTON_NODE_ID"
  const CELL_ID := "PARTON_CELL_ID"
  const SHARED_TOKEN := "PARTON_SHARED_TOKEN"
  const HEARTBEAT_PATH := "/api/parton/heartbeat"
  const OWNER_ONLY: nat := 384 // octal 600

  datatype RewriteError =
    | EnvUnreadable | NodeIdMissing | CreateFailed | WriteFailed | SyncFailed | RenameFailed | ChmodFailed

  // ---- New contents

  function TrimEndSlashes(s: string): (r: string)
    ensures |r| <= |s| && r == s[..|r|] && (r != "" ==> r[|r| - 1] != '/')
    ensures forall i :: |r| <= i < |s| ==> s[i] == '/'
  {
    if s != "" && s[|s| - 1] == '/' then TrimEndSlashes(s[..|s| - 1]) else s
  }

  function HeartbeatUrl(url: string): string {
    if Contains(url, HEARTBEAT_PATH) then Trim(url) else TrimEndSlashes(url) + HEARTBEAT_PATH
  }

  function NodeIdOf(es: seq<Entry>): string {
    match Get(es, NODE_ID)
    case Some(id) => Trim(id)
    case None => ""
  }

  function CellIdOf(es: seq<Entry>): string {
    match Get(es, CELL_ID)
    case Some(id) => id
    case None => "local-default"
  }

  /** The map that is written, from the map that was read; `None` without a node id. */
  function Updated(es: seq<Entry>, url: string, key: string, token: string): Option<seq<Entry>> {
    if NodeIdOf(es) == "" then None
    else
      var m := Insert(es, HEARTBEAT_URL, HeartbeatUrl(url));
      var m := Insert(m, ENROLLMENT_TOKEN, token);
      var m := Insert(m, AUTHORITY_VERIFY_KEY, Trim(key));
      var m := Insert(m, NODE_ID, NodeIdOf(es));
      var m := Insert(m, CELL_ID, CellIdOf(es));
      match Get(es, SHARED_TOKEN)
      case Some(t) => Some(Insert(m, SHARED_TOKEN, t))
      case None => Some(m)
  }

  /** What each key reads as in the updated map. */
  function Expected(es: seq<Entry>, url: string, key: string, token: string, k: string): Option<string> {
    if k == HEARTBEAT_URL then Some(HeartbeatUrl(url))
    else if k == ENROLLMENT_TOKEN then Some(token)
    else if k == AUTHORITY_VERIFY_KEY then Some(Trim(key))
    else if k == NODE_ID then Some(NodeIdOf(es))
    else if k == CELL_ID then Some(CellIdOf(es))
    else Get(es, k)
  }

  lemma SlashesCut(base: string, slashes: string)
    requires base != "" ==> base[|base| - 1] != '/'
    requires forall i :: 0 <= i < |slashes| ==> slashes[i] == '/'
    ensures TrimEndSlashes(base + slashes) == base
  {
    var s := base + slashes;
    var r := TrimEndSlashes(s);
    assert forall i :: |base| <= i < |s| ==> s[i] == slashes[i - |base|];
    assert base != "" ==> s[|base| - 1] == base[|base| - 1];
    assert |r| == |base|;
  }

  /** A control plane's base URL gets the path behind it, whatever slashes it ends in; a URL with the path is only
    * trimmed. */
  lemma HeartbeatUrlExactly(base: string, slashes: string)
    requires base != "" ==> base[|base| - 1] != '/'
    requires forall i :: 0 <= i < |slashes| ==> slashes[i] == '/'
    ensures HeartbeatUrl(base + slashes) == if Contains(base + slashes, "/api/parton/heartbeat")
                                            then Trim(base + slashes) else base + "/api/parton/heartbeat"
  {
    hide Contains, Trim, TrimEndSlashes;
    SlashesCut(base, slashes);
  }

  lemma KeysDistinct()
    ensures HEARTBEAT_URL != ENROLLMENT_TOKEN && HEARTBEAT_URL != AUTHORITY_VERIFY_KEY && HEARTBEAT_URL != NODE_ID
    ensures HEARTBEAT_URL != CELL_ID && HEARTBEAT_URL != SHARED_TOKEN
    ensures ENROLLMENT_TOKEN != AUTHORITY_VERIFY_KEY && ENROLLMENT_TOKEN != NODE_ID && ENROLLMENT_TOKEN != CELL_ID
    ensures ENROLLMENT_TOKEN != SHARED_TOKEN && AUTHORITY_VERIFY_KEY != NODE_ID && AUTHORITY_VERIFY_KEY != CELL_ID
    ensures AUTHORITY_VERIFY_KEY != SHARED_TOKEN && NODE_ID != CELL_ID && NODE_ID != SHARED_TOKEN
    ensures CELL_ID != SHARED_TOKEN
  {
    assert |HEARTBEAT_URL| == 20 && |ENROLLMENT_TOKEN| == 23 && |AUTHORITY_VERIFY_KEY| == 27;
    assert |NODE_ID| == |CELL_ID| == 14 && |SHARED_TOKEN| == 19 && NODE_ID[7] != CELL_ID[7];
  }

  lemma UpdatedLookup(es: seq<Entry>, url: string, key: string, token: string, k: string)
    requires NodeIdOf(es) != ""
    ensures Get(Updated(es, url, key, token).value, k) == Expected(es, url, key, token, k)
  {
    hide Get, Insert, NodeIdOf, CellIdOf, HeartbeatUrl, Trim, HEARTBEAT_URL, ENROLLMENT_TOKEN, AUTHORITY_VERIFY_KEY,
         NODE_ID, CELL_ID, SHARED_TOKEN;
    KeysDistinct();
    var m0 := Insert(es, HEARTBEAT_URL, HeartbeatUrl(url));
    GetInsert(es, HEARTBEAT_URL, HeartbeatUrl(url), k);
    var m1 := Insert(m0, ENROLLMENT_TOKEN, token);
    GetInsert(m0, ENROLLMENT_TOKEN, token, k);
    var m2 := Insert(m1, AUTHORITY_VERIFY_KEY, Trim(key));
    GetInsert(m1, AUTHORITY_VERIFY_KEY, Trim(key), k);
    var m3 := Insert(m2, NODE_ID, NodeIdOf(es));
    GetInsert(m2, NODE_ID, NodeIdOf(es), k);
    var m4 := Insert(m3, CELL_ID, CellIdOf(es));
    GetInsert(m3, CELL_ID, CellIdOf(es), k);
    if Get(es, SHARED_TOKEN).Some? {
      GetInsert(m4, SHARED_TOKEN, Get(es, SHARED_TOKEN).value, k);
    }
  }

  /**
   * The keys of the agent in the updated map: the node id that the file had, without blanks; its cell, or the default
   * one; its shared token, if any; the new URL, token and key. There is no such map exactly when the node id is
   * missing.
   */
  lemma ManagedKeys(es: seq<Entry>, url: string, key: string, token: string)
    ensures var id := Get(es, "PARTON_NODE_ID");
            Updated(es, url, key, token).None? <==> id.None? || Trim(id.value) == ""
    ensures Updated(es, url, key, token).Some? ==>
              var m := Updated(es, url, key, token).value; var cell := Get(es, "PARTON_CELL_ID");
              && Get(m, "PARTON_NODE_ID") == Some(Trim(Get(es, "PARTON_NODE_ID").value))
              && Get(m, "PARTON_CELL_ID") == (if cell.Some? then cell else Some("local-default"))
              && Get(m, "PARTON_SHARED_TOKEN") == Get(es, "PARTON_SHARED_TOKEN")
              && Get(m, "PARTON_HEARTBEAT_URL") == Some(HeartbeatUrl(url))
              && Get(m, "PARTON_ENROLLMENT_TOKEN") == Some(token)
              && Get(m, "PARTON_AUTHORITY_VERIFY_KEY") == Some(Trim(key))
  {
    KeysDistinct();
    assert Updated(es, url, key, token).Some? <==> NodeIdOf(es) != "";
    hide Trim, HeartbeatUrl, Get, Updated;
    if NodeIdOf(es) != "" {
      UpdatedLookup(es, url, key, token, NODE_ID);
      UpdatedLookup(es, url, key, token, CELL_ID);
      UpdatedLookup(es, url, key, token, SHARED_TOKEN);
      UpdatedLookup(es, url, key, token, HEARTBEAT_URL);
      UpdatedLookup(es, url, key, token, ENROLLMENT_TOKEN);
      UpdatedLookup(es, url, key, token, AUTHORITY_VERIFY_KEY);
    }
  }

  lemma UrlEnd(url: string)
    ensures HeartbeatUrl(url) != "" ==> !IsWhitespace(HeartbeatUrl(url)[|HeartbeatUrl(url)| - 1])
  {
    hide Contains, TrimEndSlashes, Trim, HEARTBEAT_PATH, IsWhitespace;
    PathEnd();
    EndOf(TrimEndSlashes(url), HEARTBEAT_PATH);
  }

  lemma PathEnd()
    ensures HEARTBEAT_PATH != "" && !IsWhitespace(HEARTBEAT_PATH[|HEARTBEAT_PATH| - 1])
  {
    assert HEARTBEAT_PATH[|HEARTBEAT_PATH| - 1] == 't';
  }

  lemma EndOf(a: string, b: string)
    requires b != ""
    ensures (a + b)[|a + b| - 1] == b[|b| - 1]
  {
  }

  lemma KeysStorable()
    ensures StorableKey(HEARTBEAT_URL) && StorableKey(ENROLLMENT_TOKEN) && StorableKey(AUTHORITY_VERIFY_KEY)
    ensures StorableKey(NODE_ID) && StorableKey(CELL_ID) && StorableKey(SHARED_TOKEN)
  {
    hide StorableKey;
    LongKeysStorable();
    ShortKeysStorable();
  }

  lemma LongKeysStorable()
    ensures StorableKey(HEARTBEAT_URL) && StorableKey(ENROLLMENT_TOKEN) && StorableKey(AUTHORITY_VERIFY_KEY)
  {
  }

  lemma ShortKeysStorable()
    ensures StorableKey(NODE_ID) && StorableKey(CELL_ID) && StorableKey(SHARED_TOKEN)
  {
  }

  lemma {:induction false} GetEntry(es: seq<Entry>, k: string)
    requires AllStorable(es) && Get(es, k).Some?
    ensures Storable((k, Get(es, k).value))
  {
    if es[0].0 != k {
      GetEntry(es[1..], k);
    }
  }

  lemma UpdatedSorted(es: seq<Entry>, url: string, key: string, token: string)
    requires Sorted(es) && NodeIdOf(es) != ""
    ensures Sorted(Updated(es, url, key, token).value)
  {
    var m := Insert(es, HEARTBEAT_URL, HeartbeatUrl(url));
    InsertSorted(es, HEARTBEAT_URL, HeartbeatUrl(url));
    InsertSorted(m, ENROLLMENT_TOKEN, token);
    m := Insert(m, ENROLLMENT_TOKEN, token);
    InsertSorted(m, AUTHORITY_VERIFY_KEY, Trim(key));
    m := Insert(m, AUTHORITY_VERIFY_KEY, Trim(key));
    InsertSorted(m, NODE_ID, NodeIdOf(es));
    m := Insert(m, NODE_ID, NodeIdOf(es));
    InsertSorted(m, CELL_ID, CellIdOf(es));
    m := Insert(m, CELL_ID, CellIdOf(es));
    if Get(es, SHARED_TOKEN).Some? {
      InsertSorted(m, SHARED_TOKEN, Get(es, SHARED_TOKEN).value);
    }
  }

  lemma UpdatedStorable(es: seq<Entry>, url: string, key: string, token: string)
    requires AllStorable(es) && Sorted(es) && NodeIdOf(es) != "" && OneLine(token)
    requires Lacks(HeartbeatUrl(url), '\n') && Lacks(Trim(key), '\n')
    ensures AllStorable(Updated(es, url, key, token).value)
  {
    hide HeartbeatUrl, Updated, StorableKey, Trim, Get;
    KeysStorable();
    UrlEnd(url);
    GetEntry(es, NODE_ID);
    TrimLacks(Get(es, NODE_ID).value, '\n');
    if Get(es, CELL_ID).Some? { GetEntry(es, CELL_ID); }
    if Get(es, SHARED_TOKEN).Some? { GetEntry(es, SHARED_TOKEN); }
    InsertAllStorable(es, url, key, token);
  }

  lemma InsertAllStorable(es: seq<Entry>, url: string, key: string, token: string)
    requires AllStorable(es) && NodeIdOf(es) != ""
    requires Storable((HEARTBEAT_URL, HeartbeatUrl(url))) && Storable((ENROLLMENT_TOKEN, token))
    requires Storable((AUTHORITY_VERIFY_KEY, Trim(key))) && Storable((NODE_ID, NodeIdOf(es)))
    requires Storable((CELL_ID, CellIdOf(es)))
    requires Get(es, SHARED_TOKEN).Some? ==> Storable((SHARED_TOKEN, Get(es, SHARED_TOKEN).value))
    ensures AllStorable(Updated(es, url, key, token).value)
  {
    var m := Insert(es, HEARTBEAT_URL, HeartbeatUrl(url));
    InsertStorable(es, HEARTBEAT_URL, HeartbeatUrl(url));
    InsertStorable(m, ENROLLMENT_TOKEN, token);
    m := Insert(m, ENROLLMENT_TOKEN, token);
    InsertStorable(m, AUTHORITY_VERIFY_KEY, Trim(key));
    m := Insert(m, AUTHORITY_VERIFY_KEY, Trim(key));
    InsertStorable(m, NODE_ID, NodeIdOf(es));
    m := Insert(m, NODE_ID, NodeIdOf(es));
    InsertStorable(m, CELL_ID, CellIdOf(es));
    m := Insert(m, CELL_ID, CellIdOf(es));
    if Get(es, SHARED_TOKEN).Some? {
      InsertStorable(m, SHARED_TOKEN, Get(es, SHARED_TOKEN).value);
    }
  }

  /** The text written for a file body. */
  function NewText(body: string, url: string, key: string, token: string): string
    requires NodeIdOf(Parse(body)) != ""
  {
    Render(Updated(Parse(body), url, key, token).value)
  }

  /**
   * Reading the rewritten file: every key reads as expected, and nothing else changed, exactly when
   * the new URL and verify key hold no line feed once normalised (the encoded token never does).
   */
  lemma RereadExactly(body: string, url: string, key: string, token: string)
    requires NodeIdOf(Parse(body)) != "" && OneLine(token)
    ensures (forall k :: Get(Parse(NewText(body, url, key, token)), k) == Expected(Parse(body), url, key, token, k))
            <==> Lacks(HeartbeatUrl(url), '\n') && Lacks(Trim(key), '\n')
  {
    var es := Parse(body);
    var m := Updated(es, url, key, token).value;
    var text := NewText(body, url, key, token);
    ParseStorable(body);
    ParseStorable(text);
    if Lacks(HeartbeatUrl(url), '\n') && Lacks(Trim(key), '\n') {
      UpdatedStorable(es, url, key, token);
      UpdatedSorted(es, url, key, token);
      ParseRender(m);
      forall k ensures Get(Parse(text), k) == Expected(es, url, key, token, k) {
        UpdatedLookup(es, url, key, token, k);
      }
    }
    if forall k :: Get(Parse(text), k) == Expected(es, url, key, token, k) {
      assert Get(Parse(text), HEARTBEAT_URL) == Expected(es, url, key, token, HEARTBEAT_URL);
      assert Get(Parse(text), AUTHORITY_VERIFY_KEY) == Expected(es, url, key, token, AUTHORITY_VERIFY_KEY);
      GetEntry(Parse(text), HEARTBEAT_URL);
      GetEntry(Parse(text), AUTHORITY_VERIFY_KEY);
    }
  }

  /** A line feed inside the URL ends its line: the stored URL is cut there. */
  lemma LineFeedCutsUrl()
    ensures var url := "http://cp\n" + HEARTBEAT_PATH;
            !Lacks(HeartbeatUrl(url), '\n')
  {
    hide Contains, Trim, HEARTBEAT_PATH, HeartbeatUrl, IsWhitespace;
    assert "http://cp\n"[9] == '\n';
    StartsPlain();
    PathEnd();
    KeptUrl("http://cp\n");
    assert ("http://cp\n" + HEARTBEAT_PATH)[9] == "http://cp\n"[9];
  }

  lemma StartsPlain()
    ensures !IsWhitespace("http://cp\n"[0])
  {
    assert "http://cp\n"[0] == 'h';
  }

  /** A URL that ends in the heartbeat path and starts with text is kept as it is. */
  lemma KeptUrl(base: string)
    requires base != "" && !IsWhitespace(base[0])
    ensures HeartbeatUrl(base + HEARTBEAT_PATH) == base + HEARTBEAT_PATH
  {
    hide Trim, HEARTBEAT_PATH, IsWhitespace;
    PathEnd();
    EndOf(base, HEARTBEAT_PATH);
    assert OccursAt(base + HEARTBEAT_PATH, HEARTBEAT_PATH, |base|);
    assert Trimmed(base + HEARTBEAT_PATH);
  }

  // ---- The node id

  /** The keys whose new values may hold a line feed; all of them come before the node id. */
  predicate Replaced(k: string) {
    k == HEARTBEAT_URL || k == ENROLLMENT_TOKEN || k == AUTHORITY_VERIFY_KEY
  }

  lemma ReplacedBelow(k: string)
    requires Replaced(k)
    ensures !Less(NODE_ID, k)
  {
    hide Less;
    LessAt(HEARTBEAT_URL, NODE_ID, 7);
    LessAt(ENROLLMENT_TOKEN, NODE_ID, 7);
    LessAt(AUTHORITY_VERIFY_KEY, NODE_ID, 7);
    LessAsymmetric(k, NODE_ID);
  }

  ghost predicate OthersStorable(es: seq<Entry>) {
    forall i :: 0 <= i < |es| ==> Replaced(es[i].0) || Storable(es[i])
  }

  lemma InsertOthers(es: seq<Entry>, k: string, v: string)
    requires OthersStorable(es) && (Replaced(k) || Storable((k, v)))
    ensures OthersStorable(Insert(es, k, v))
  {
    hide Insert, Replaced, Storable;
    InsertEntries(es, k, v);
  }

  lemma UpdatedOthers(es: seq<Entry>, url: string, key: string, token: string)
    requires AllStorable(es) && NodeIdOf(es) != ""
    ensures OthersStorable(Updated(es, url, key, token).value)
  {
    OwnStorable(es);
    assert Replaced(HEARTBEAT_URL) && Replaced(ENROLLMENT_TOKEN) && Replaced(AUTHORITY_VERIFY_KEY);
    assert OthersStorable(es);
    hide Replaced, Storable, Insert, OthersStorable, AllStorable, NodeIdOf, CellIdOf, HeartbeatUrl, Trim, Get;
    var m := Insert(es, HEARTBEAT_URL, HeartbeatUrl(url));
    InsertOthers(es, HEARTBEAT_URL, HeartbeatUrl(url));
    InsertOthers(m, ENROLLMENT_TOKEN, token);
    m := Insert(m, ENROLLMENT_TOKEN, token);
    InsertOthers(m, AUTHORITY_VERIFY_KEY, Trim(key));
    m := Insert(m, AUTHORITY_VERIFY_KEY, Trim(key));
    InsertOthers(m, NODE_ID, NodeIdOf(es));
    m := Insert(m, NODE_ID, NodeIdOf(es));
    InsertOthers(m, CELL_ID, CellIdOf(es));
    m := Insert(m, CELL_ID, CellIdOf(es));
    if Get(es, SHARED_TOKEN).Some? {
      InsertOthers(m, SHARED_TOKEN, Get(es, SHARED_TOKEN).value);
    }
  }

  /** What the rewrite carries over from the file is storable. */
  lemma OwnStorable(es: seq<Entry>)
    requires AllStorable(es) && NodeIdOf(es) != ""
    ensures Storable((NODE_ID, NodeIdOf(es))) && Storable((CELL_ID, CellIdOf(es)))
    ensures Get(es, SHARED_TOKEN).Some? ==> Storable((SHARED_TOKEN, Get(es, SHARED_TOKEN).value))
  {
    hide StorableKey, Get, Trim;
    KeysStorable();
    GetEntry(es, NODE_ID);
    TrimLacks(Get(es, NODE_ID).value, '\n');
    if Get(es, CELL_ID).Some? { GetEntry(es, CELL_ID); }
    if Get(es, SHARED_TOKEN).Some? { GetEntry(es, SHARED_TOKEN); }
  }

  /** A text whose map holds the node id, with only storable entries after it, reads as that node id. */
  lemma NodeIdRead(m: seq<Entry>, i: nat, id: string)
    requires i < |m| && m[i] == (NODE_ID, id) && Storable(m[i])
    requires forall j :: i < j < |m| ==> Storable(m[j]) && m[j].0 != NODE_ID
    ensures Get(Parse(Render(m)), NODE_ID) == Some(id)
  {
    hide Storable, Lines, ParseLines, Get, Insert, AddLine, NODE_ID, Join, Unlines, RenderEntry, RenderEntries;
    var pre, post := RenderEntries(m[..i]), RenderEntries(m[i + 1..]);
    var line := RenderEntry(m[i]);
    RenderedAt(m, i);
    var read := Lines(Unlines(pre)) + [line];
    assert Lines(Render(m)) == read + post;
    AfterLine(Lines(Unlines(pre)), line);
    AddStored(ParseLines(Lines(Unlines(pre))), m[i]);
    GetInsert(ParseLines(Lines(Unlines(pre))), NODE_ID, id, NODE_ID);
    ParseKeeps(read, m[i + 1..], NODE_ID);
  }

  lemma AfterLine(lines: seq<string>, line: string)
    ensures ParseLines(lines + [line]) == AddLine(ParseLines(lines), line)
  {
    hide AddLine;
    assert (lines + [line])[..|lines|] == lines;
  }

  lemma RenderedAt(m: seq<Entry>, i: nat)
    requires i < |m| && forall j :: i <= j < |m| ==> Storable(m[j])
    ensures Lines(Render(m))
         == Lines(Unlines(RenderEntries(m[..i]))) + [RenderEntry(m[i])] + RenderEntries(m[i + 1..])
  {
    hide Storable, Lines, Unlines, Render, RenderEntry, PlainLine;
    RenderedCut(m, i);
    var pre, rest := RenderEntries(m[..i]), RenderEntries(m[i..]);
    LinesOfUnlines(pre, Unlines(rest));
    forall k | 0 <= k < |rest| ensures PlainLine(rest[k]) {
      RenderedLine(m[i + k]);
    }
    LinesUnlines(rest);
    FirstRendered(m, i);
    PiecesRegroup(Lines(Unlines(pre)), [RenderEntry(m[i])], RenderEntries(m[i + 1..]));
  }

  lemma FirstRendered(m: seq<Entry>, i: nat)
    requires i < |m|
    ensures RenderEntries(m[i..]) == [RenderEntry(m[i])] + RenderEntries(m[i + 1..])
  {
    hide RenderEntry;
  }

  lemma RenderedCut(m: seq<Entry>, i: nat)
    requires i < |m|
    ensures Render(m) == Unlines(RenderEntries(m[..i])) + Unlines(RenderEntries(m[i..]))
  {
    hide Join, Unlines, RenderEntry;
    JoinIsUnlines(RenderEntries(m));
    assert RenderEntries(m) == RenderEntries(m[..i]) + RenderEntries(m[i..]);
    UnlinesAppend(RenderEntries(m[..i]), RenderEntries(m[i..]));
  }

  /** The rewrite never changes the node id, whatever the new URL, key and token hold. */
  lemma NodeIdKept(body: string, url: string, key: string, token: string)
    requires NodeIdOf(Parse(body)) != ""
    ensures NodeIdOf(Parse(NewText(body, url, key, token))) == NodeIdOf(Parse(body))
  {
    var es := Parse(body);
    assert Updated(es, url, key, token).Some?;
    hide Parse, Render, Updated, Get, Trim, HeartbeatUrl, Storable, Replaced, NODE_ID;
    var id, m := NodeIdOf(es), Updated(es, url, key, token).value;
    ParseStorable(body);
    UpdatedSorted(es, url, key, token);
    UpdatedOthers(es, url, key, token);
    UpdatedLookup(es, url, key, token, NODE_ID);
    ExpectedNodeId(es, url, key, token);
    var i := GetAt(m, NODE_ID);
    forall j | i <= j < |m| ensures Storable(m[j]) && (j > i ==> m[j].0 != NODE_ID) {
      AfterNodeId(m, i, j);
    }
    NodeIdRead(m, i, id);
    assert Trim(id) == id;
  }

  lemma ExpectedNodeId(es: seq<Entry>, url: string, key: string, token: string)
    ensures Expected(es, url, key, token, NODE_ID) == Some(NodeIdOf(es))
  {
    KeysDistinct();
    hide NODE_ID, HEARTBEAT_URL, ENROLLMENT_TOKEN, AUTHORITY_VERIFY_KEY, Get, Trim, HeartbeatUrl;
  }

  lemma AfterNodeId(m: seq<Entry>, i: nat, j: nat)
    requires Sorted(m) && OthersStorable(m) && i <= j < |m| && m[i].0 == NODE_ID
    ensures Storable(m[j]) && (j > i ==> m[j].0 != NODE_ID)
  {
    NotReplaced();
    hide Storable, Less, NODE_ID, Replaced;
    if Replaced(m[j].0) {
      ReplacedBelow(m[j].0);
    }
    LessIrreflexive(NODE_ID);
  }

  lemma NotReplaced()
    ensures !Replaced(NODE_ID)
  {
    KeysDistinct();
  }

  // ---- The file system

  /** A file: what was written to it, whether that has been fsynced, and its permission bits. */
  datatype Inode = Inode(text: string, synced: bool, mode: nat)

  /**
   * `target` and `tmp` are what the running system sees at `parton.env` and at the temp path.
   * `undone` are the files a crash may bring back at `parton.env`, a rename not yet being on disk.
   */
  datatype Disk = Disk(target: Option<Inode>, tmp: Option<Inode>, undone: set<Inode>)

  /** Texts a crash may leave in a file: all of it once synced, else any part written so far. */
  ghost predicate InodeAfterCrash(i: Inode, text: string) {
    text == i.text || (!i.synced && text <= i.text)
  }

  ghost predicate AfterCrash(d: Disk, text: string) {
    (d.target.Some? && InodeAfterCrash(d.target.value, text)) || exists i :: i in d.undone && InodeAfterCrash(i, text)
  }

  /** Which calls fail, how much a failing write got through, and the umask-given mode of a created file. */
  datatype Faults = Faults(readOk: bool, createOk: bool, writeOk: bool, written: nat, syncOk: bool, renameOk: bool,
                           chmodOk: bool, createMode: nat)

  function Created(d: Disk, mode: nat): Disk {
    d.(tmp := Some(Inode("", false, mode)))
  }

  function Wrote(d: Disk, text: string): Disk {
    match d.tmp
    case Some(i) => d.(tmp := Some(Inode(text, false, i.mode)))
    case None => d
  }

  function Synced(d: Disk): Disk {
    match d.tmp
    case Some(i) => d.(tmp := Some(i.(synced := true)))
    case None => d
  }

  function Renamed(d: Disk): Disk {
    if d.tmp.None? then d
    else Disk(d.tmp, None, d.undone + (if d.target.Some? then {d.target.value} else {}))
  }

  function Chmodded(d: Disk): Disk {
    match d.target
    case Some(i) => d.(target := Some(i.(mode := OWNER_ONLY)))
    case None => d
  }

  function Prefix(text: string, n: nat): string {
    if n < |text| then text[..n] else text
  }

  /** The disk after each step of replacing the file by `text`, up to the step that fails. */
  function Steps(d: Disk, text: string, f: Faults): seq<Disk> {
    var d1 := Created(d, f.createMode);
    var d2 := Wrote(d1, text);
    var d3 := Synced(d2);
    var d4 := Renamed(d3);
    if !f.createOk then []
    else if !f.writeOk then [d1, Wrote(d1, Prefix(text, f.written))]
    else if !f.syncOk then [d1, d2]
    else if !f.renameOk then [d1, d2, d3]
    else if !f.chmodOk then [d1, d2, d3, d4]
    else [d1, d2, d3, d4, Chmodded(d4)]
  }

  function Fault(f: Faults): Option<RewriteError> {
    if !f.createOk then Some(CreateFailed)
    else if !f.writeOk then Some(WriteFailed)
    else if !f.syncOk then Some(SyncFailed)
    else if !f.renameOk then Some(RenameFailed)
    else if !f.chmodOk then Some(ChmodFailed)
    else None
  }

  function Last(d: Disk, ds: seq<Disk>): Disk {
    if ds == [] then d else ds[|ds| - 1]
  }

  /**
   * After any prefix of the steps, whatever fails: the running system sees the old file or the complete
   * new text, and a crash leaves a text it could have left before, or the complete new text.
   */
  lemma OldOrNew(d: Disk, text: string, f: Faults, n: nat, survivor: string)
    requires n < |Steps(d, text, f)|
    ensures var now := Steps(d, text, f)[n];
            && (now.target == d.target || (now.target.Some? && now.target.value.text == text))
            && (AfterCrash(now, survivor) ==> AfterCrash(d, survivor) || survivor == text)
  {
    var now := Steps(d, text, f)[n];
    if AfterCrash(now, survivor) && !(now.target.Some? && InodeAfterCrash(now.target.value, survivor)) {
      var i :| i in now.undone && InodeAfterCrash(i, survivor);
    }
  }

  /** The rewrite reports success exactly when it replaced the file and closed its permissions. */
  lemma CompleteExactly(d: Disk, text: string, f: Faults)
    ensures Fault(f).None? <==> f.createOk && f.writeOk && f.syncOk && f.renameOk && f.chmodOk
    ensures Fault(f) == Some(CreateFailed) <==> !f.createOk
    ensures Fault(f) == Some(WriteFailed) <==> f.createOk && !f.writeOk
    ensures Fault(f) == Some(SyncFailed) <==> f.createOk && f.writeOk && !f.syncOk
    ensures Fault(f) == Some(RenameFailed) <==> f.createOk && f.writeOk && f.syncOk && !f.renameOk
    ensures Fault(f) == Some(ChmodFailed) <==> f.createOk && f.writeOk && f.syncOk && f.renameOk && !f.chmodOk
    ensures Fault(f).None? ==> Last(d, Steps(d, text, f)).target == Some(Inode(text, true, 6 * 8 * 8))
    ensures Fault(f).Some? && Fault(f) != Some(ChmodFailed) ==> Last(d, Steps(d, text, f)).target == d.target
    ensures Fault(f) == Some(ChmodFailed) ==>
              Last(d, Steps(d, text, f)).target == Some(Inode(text, true, f.createMode))
  {
  }

  /** The directory holding `parton.env`, with every disk state it went through. */
  class EnvDir {
    var disk: Disk
    ghost var trail: seq<Disk>

    constructor (d: Disk)
      ensures disk == d && trail == []
    {
      disk, trail := d, [];
    }

    method Become(d: Disk)
      modifies this
      ensures disk == d && trail == old(trail) + [d]
    {
      disk, trail := d, trail + [d];
    }

    method Replace(text: string, f: Faults) returns (err: Option<RewriteError>)
      modifies this
      ensures trail == old(trail) + Steps(old(disk), text, f)
      ensures disk == Last(old(disk), Steps(old(disk), text, f)) && err == Fault(f)
    {
      if !f.createOk { return Some(CreateFailed); }
      Become(Created(disk, f.createMode));
      if !f.writeOk {
        Become(Wrote(disk, Prefix(text, f.written)));
        return Some(WriteFailed);
      }
      Become(Wrote(disk, text));
      if !f.syncOk { return Some(SyncFailed); }
      Become(Synced(disk));
      if !f.renameOk { return Some(RenameFailed); }
      Become(Renamed(disk));
      if !f.chmodOk { return Some(ChmodFailed); }
      Become(Chmodded(disk));
      return None;
    }

    method Read(ok: bool) returns (body: Option<string>)
      ensures body == Readable(disk, ok)
    {
      if ok && disk.target.Some? { return Some(disk.target.value.text); }
      return None;
    }

    /** `apply_reenroll_env_unix`. */
    method ApplyReenrollEnv(url: string, key: string, token: string, f: Faults) returns (err: Option<RewriteError>)
      modifies this
      ensures err == Rewrite(old(disk), url, key, token, f).error
      ensures trail == old(trail) + Rewrite(old(disk), url, key, token, f).steps
      ensures disk == Last(old(disk), Rewrite(old(disk), url, key, token, f).steps)
    {
      var body := Read(f.readOk);
      if body.None? { return Some(EnvUnreadable); }
      var es := ParseEnvFile(body.value);
      var found := Get(es, NODE_ID);
      var nodeId := if found.Some? then Trim(found.value) else "";
      if nodeId == "" { return Some(NodeIdMissing); }
      var cell := Get(es, CELL_ID);
      var cellId := if cell.Some? then cell.value else "local-default";
      var shared := Get(es, SHARED_TOKEN);
      var hbUrl := if Contains(url, HEARTBEAT_PATH) then Trim(url) else TrimEndSlashes(url) + HEARTBEAT_PATH;
      es := Insert(es, HEARTBEAT_URL, hbUrl);
      es := Insert(es, ENROLLMENT_TOKEN, token);
      es := Insert(es, AUTHORITY_VERIFY_KEY, Trim(key));
      es := Insert(es, NODE_ID, nodeId);
      es := Insert(es, CELL_ID, cellId);
      if shared.Some? {
        es := Insert(es, SHARED_TOKEN, shared.value);
      }
      err := Replace(Render(es), f);
    }
  }

  function Readable(d: Disk, ok: bool): Option<string> {
    if ok && d.target.Some? then Some(d.target.value.text) else None
  }

  datatype RewriteOutcome = RewriteOutcome(steps: seq<Disk>, error: Option<RewriteError>)

  /** What the rewrite does to a disk. */
  function Rewrite(d: Disk, url: string, key: string, token: string, f: Faults): RewriteOutcome {
    match Readable(d, f.readOk)
    case None => RewriteOutcome([], Some(EnvUnreadable))
    case Some(body) =>
      if NodeIdOf(Parse(body)) == "" then RewriteOutcome([], Some(NodeIdMissing))
      else
        var text := NewText(body, url, key, token);
        RewriteOutcome(Steps(d, text, f), Fault(f))
  }

  /**
   * A rewrite that cannot read the file, or finds no node id in it, takes no step; any other goes through the steps of
   * writing the updated map, as far as nothing fails.
   */
  lemma RewriteExactly(d: Disk, url: string, key: string, token: string, f: Faults)
    ensures var r := Rewrite(d, url, key, token, f); var readable := f.readOk && d.target.Some?;
            && (r.error == Some(EnvUnreadable) <==> !readable) && (!readable ==> r.steps == [])
            && (readable ==>
                  var m := Updated(Parse(d.target.value.text), url, key, token);
                  && (r.error == Some(NodeIdMissing) <==> m.None?) && (m.None? ==> r.steps == [])
                  && (m.Some? ==> r.error == Fault(f) && r.steps == Steps(d, Render(m.value), f)))
  {
    hide Parse, Render, Steps, Insert, Get, Trim, HeartbeatUrl;
  }
}

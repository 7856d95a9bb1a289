/**
 A node's own state as its request handler keeps it (request_handler.rs,
 `handle_event`): the provided-files table, the keys provided on the DHT, the
 proxy's event sender and the stored proxy configuration.
 */
module NodeState {
  import opened Options

  // ---- Namespaced keys (common/utils.rs) ----

  const NAMESPACE: string := "/orcanet"

  const PROXY_PROVIDER_KEY: string := "http_proxy_providers"

  predicate IsNamespaced(key: string) { NAMESPACE <= key }

  function WithNamespace(key: string): string {
    if IsNamespaced(key) then key else NAMESPACE + "/" + key
  }

  predicate IsHex(s: string) {
    forall i :: 0 <= i < |s| ==> '0' <= s[i] <= '9' || 'a' <= s[i] <= 'f'
  }

  lemma NamespaceIsIdempotent(key: string)
    ensures IsNamespaced(WithNamespace(key)) && WithNamespace(WithNamespace(key)) == WithNamespace(key)
  {
    assert NAMESPACE <= NAMESPACE + "/" + key;
  }

  /** Different un-namespaced keys never meet; a namespaced and a plain one do exactly when one is the other's form. */
  lemma NamespaceIsInjective(j: string, k: string)
    ensures !IsNamespaced(j) && !IsNamespaced(k) ==> (WithNamespace(j) == WithNamespace(k) <==> j == k)
    ensures IsNamespaced(j) && !IsNamespaced(k) ==> (WithNamespace(j) == WithNamespace(k) <==> j == NAMESPACE + "/" + k)
  {
    if !IsNamespaced(j) && !IsNamespaced(k) && WithNamespace(j) == WithNamespace(k) {
      assert (NAMESPACE + "/" + j)[9..] == j && (NAMESPACE + "/" + k)[9..] == k;
    }
  }

  lemma HexKeys(id: string)
    requires IsHex(id)
    ensures !IsNamespaced(id) && WithNamespace(id) != WithNamespace(PROXY_PROVIDER_KEY)
  {
    assert NAMESPACE[0] == '/' && PROXY_PROVIDER_KEY[0] == 'h';
    NamespaceIsInjective(id, PROXY_PROVIDER_KEY);
  }

  // ---- The node ----

  datatype FileRow = FileRow(path: string, active: bool)

  datatype Mode = Provider | Client(sessionId: string)

  datatype Node = Node(
    files: map<string, FileRow>, dht: set<string>,
    sender: bool, config: Option<Mode>,
    spawned: nat, stopped: nat, panicked: bool)

  /** `db`: the statement is executed; `saved`: the configuration file could be written. */
  datatype Event =
    | ProvideFile(fileId: string, path: string, present: bool, db: bool)
    | StopProvidingFile(fileId: string, permanent: bool, db: bool)
    | ResumeFile(fileId: string, db: bool)
    | AdvertiseFiles(db: bool)
    | StartProxy(mode: Mode, saved: bool)
    | StopProxy(saved: bool)

  predicate PathTaken(files: map<string, FileRow>, path: string) {
    exists k :: k in files && files[k].path == path
  }

  ghost function ActiveKeys(files: map<string, FileRow>): set<string> {
    set id | id in files && files[id].active :: WithNamespace(id)
  }

  function SetActive(files: map<string, FileRow>, id: string, active: bool): map<string, FileRow> {
    if id in files then files[id := files[id].(active := active)] else files
  }

  ghost function OnFileEvent(n: Node, e: Event): Node
    requires !e.StartProxy? && !e.StopProxy?
  {
    match e
    case ProvideFile(id, path, present, db) =>
      if present && db && id !in n.files && !PathTaken(n.files, path)
      then n.(files := n.files[id := FileRow(path, true)], dht := n.dht + {WithNamespace(id)}) else n
    case StopProvidingFile(id, permanent, db) =>
      n.(files := if !db then n.files else if permanent then n.files - {id} else SetActive(n.files, id, false),
         dht := n.dht - {WithNamespace(id)})
    case ResumeFile(id, db) =>
      if db && id in n.files
      then n.(files := SetActive(n.files, id, true), dht := n.dht + {WithNamespace(id)}) else n
    case AdvertiseFiles(db) => if db then n.(dht := n.dht + ActiveKeys(n.files)) else n
  }

  ghost function OnEvent(n: Node, e: Event): Node {
    if n.panicked then n else
    match e
    case StartProxy(mode, saved) =>
      if n.sender then n
      else n.(sender := true, spawned := n.spawned + 1,
              dht := if mode.Provider? then n.dht + {WithNamespace(PROXY_PROVIDER_KEY)} else n.dht,
              config := if saved then Some(mode) else n.config, panicked := !saved)
    case StopProxy(saved) =>
      if n.config.None? then n.(panicked := true)
      else n.(sender := false, stopped := if n.sender then n.stopped + 1 else n.stopped,
              dht := if n.config.value.Provider? then n.dht - {WithNamespace(PROXY_PROVIDER_KEY)} else n.dht,
              config := if saved then None else n.config, panicked := !saved)
    case _ => OnFileEvent(n, e)
  }

  // ---- What one event does, event by event ----

  /** All rows but that of `id` are the same. */
  ghost predicate OtherRowsStay(before: map<string, FileRow>, after: map<string, FileRow>, id: string) {
    && (forall k :: k != id ==> (k in after <==> k in before))
    && (forall k :: k != id && k in before && k in after ==> after[k] == before[k])
  }

  /** A file event leaves the proxy alone. */
  predicate ProxyStays(before: Node, after: Node) {
    && after.sender == before.sender && after.config == before.config && after.panicked == before.panicked
    && after.spawned == before.spawned && after.stopped == before.stopped
  }

  /**
   A permanent stop deletes the row, a temporary one keeps it inactive with its path;
   either takes the key off the DHT even when the table could not be changed.
   */
  lemma StopEffect(n: Node, id: string, permanent: bool, db: bool)
    requires !n.panicked
    ensures var after := OnEvent(n, StopProvidingFile(id, permanent, db));
            && after.dht == n.dht - {WithNamespace(id)} && ProxyStays(n, after)
            && OtherRowsStay(n.files, after.files, id)
            && (!db ==> after.files == n.files)
            && (db && permanent ==> id !in after.files)
            && (db && !permanent ==>
                  && (id in after.files <==> id in n.files)
                  && (id in n.files ==> after.files[id].path == n.files[id].path && !after.files[id].active))
  {}

  /**
   A file that exists is provided exactly when its row could be inserted: neither its
   id nor its path is in the table. Then the row is active and the key provided.
   */
  lemma ProvideEffect(n: Node, id: string, path: string, present: bool, db: bool)
    requires !n.panicked
    ensures var after := OnEvent(n, ProvideFile(id, path, present, db));
            var inserted := present && db && id !in n.files && forall k :: k in n.files ==> n.files[k].path != path;
            && (!inserted ==> after == n)
            && (inserted ==>
                  && ProxyStays(n, after) && OtherRowsStay(n.files, after.files, id)
                  && id in after.files && after.files[id].path == path && after.files[id].active
                  && after.dht == n.dht + {WithNamespace(id)})
  {}

  /** Resuming needs a row, makes it active and provides its key. */
  lemma ResumeEffect(n: Node, id: string, db: bool)
    requires !n.panicked
    ensures var after := OnEvent(n, ResumeFile(id, db));
            && (!db || id !in n.files ==> after == n)
            && (db && id in n.files ==>
                  && ProxyStays(n, after) && OtherRowsStay(n.files, after.files, id)
                  && id in after.files && after.files[id].path == n.files[id].path && after.files[id].active
                  && after.dht == n.dht + {WithNamespace(id)})
  {}

  /** A temporary stop is undone by resuming: table and key are as before if the row was active and provided. */
  lemma ResumeUndoesStop(n: Node, id: string)
    requires !n.panicked && id in n.files && n.files[id].active && WithNamespace(id) in n.dht
    ensures OnEvent(OnEvent(n, StopProvidingFile(id, false, true)), ResumeFile(id, true)) == n
  {
    var back := OnEvent(OnEvent(n, StopProvidingFile(id, false, true)), ResumeFile(id, true));
    assert back.files == n.files && back.dht == n.dht;
  }

  /** Advertising adds the key of every active row, nothing else, and changes no row. */
  lemma AdvertiseEffect(n: Node, db: bool, key: string)
    requires !n.panicked
    ensures var after := OnEvent(n, AdvertiseFiles(db));
            && ProxyStays(n, after) && after.files == n.files
            && (key in after.dht <==>
                  key in n.dht || (db && exists id :: id in n.files && n.files[id].active && WithNamespace(id) == key))
  {}

  /**
   Starting a proxy that runs changes nothing; otherwise it holds a sender, stores the
   mode it was given and provides the key exactly for a provider. Stopping undoes
   that by the stored mode, whether or not a sender was held.
   */
  lemma ProxyEffect(n: Node, mode: Mode, saved: bool)
    requires !n.panicked
    ensures var started, key := OnEvent(n, StartProxy(mode, saved)), WithNamespace(PROXY_PROVIDER_KEY);
            && (n.sender ==> started == n)
            && (!n.sender ==>
                  && started.sender && started.spawned == n.spawned + 1 && started.stopped == n.stopped
                  && started.files == n.files && started.panicked == !saved
                  && started.config == (if saved then Some(mode) else n.config)
                  && started.dht == (if mode == Provider then n.dht + {key} else n.dht))
    ensures var stopped, key := OnEvent(n, StopProxy(saved)), WithNamespace(PROXY_PROVIDER_KEY);
            && (n.config.None? ==> stopped == n.(panicked := true))
            && (n.config.Some? ==>
                  && !stopped.sender && stopped.spawned == n.spawned
                  && stopped.stopped == n.stopped + (if n.sender then 1 else 0)
                  && stopped.files == n.files && stopped.panicked == !saved
                  && stopped.config == (if saved then None else n.config)
                  && stopped.dht == (if n.config == Some(Provider) then n.dht - {key} else n.dht))
  {}

  // ---- The handler as code ----

  class RequestHandlerLoop {
    var files: map<string, FileRow>
    var dht: set<string>
    var proxyEventSender: bool
    var proxyConfig: Option<Mode>
    var spawned: nat
    var stopped: nat
    var panicked: bool

    ghost function State(): Node
      reads this
    {
      Node(files, dht, proxyEventSender, proxyConfig, spawned, stopped, panicked)
    }

    constructor (files: map<string, FileRow>, config: Option<Mode>)
      ensures State() == Node(files, {}, false, config, 0, 0, false)
    {
      this.files, dht, proxyEventSender, proxyConfig := files, {}, false, config;
      spawned, stopped, panicked := 0, 0, false;
    }

    method StartProviding(key: string)
      modifies `dht
      ensures dht == old(dht) + {WithNamespace(key)}
    {
      dht := dht + {WithNamespace(key)};
    }

    method StopProviding(key: string)
      modifies `dht
      ensures dht == old(dht) - {WithNamespace(key)}
    {
      dht := dht - {WithNamespace(key)};
    }

    /** Loops over the rows in any order. */
    method AdvertiseProvidedFiles(db: bool)
      modifies `dht
      ensures dht == if db then old(dht) + ActiveKeys(files) else old(dht)
    {
      if !db { return; }
      var todo := files.Keys;
      while todo != {}
        invariant todo <= files.Keys
        invariant dht == old(dht) + set id | id in files && id !in todo && files[id].active :: WithNamespace(id)
        decreases |todo|
      {
        var id :| id in todo;
        if files[id].active {
          StartProviding(id);
        }
        todo := todo - {id};
      }
    }

    method HandleEvent(e: Event)
      requires !panicked
      modifies this
      ensures State() == OnEvent(old(State()), e)
    {
      match e {
        case ProvideFile(id, path, present, db) =>
          if present {
            if db && id !in files && !PathTaken(files, path) {
              files := files[id := FileRow(path, true)];
              StartProviding(id);
            }
          }
        case StopProvidingFile(id, permanent, db) =>
          if db {
            files := if permanent then files - {id} else SetActive(files, id, false);
          }
          StopProviding(id);
        case ResumeFile(id, db) =>
          if db && id in files {
            files := SetActive(files, id, true);
            StartProviding(id);
          }
        case AdvertiseFiles(db) => AdvertiseProvidedFiles(db);
        case StartProxy(mode, saved) =>
          if proxyEventSender { return; }
          proxyEventSender, spawned := true, spawned + 1;
          if mode.Provider? { StartProviding(PROXY_PROVIDER_KEY); }
          if !saved { panicked := true; return; }
          proxyConfig := Some(mode);
        case StopProxy(saved) =>
          if proxyConfig.None? { panicked := true; return; }
          var mode := proxyConfig.value;
          if proxyEventSender { stopped := stopped + 1; }
          proxyEventSender := false;
          if mode.Provider? { StopProviding(PROXY_PROVIDER_KEY); }
          if !saved { panicked := true; return; }
          proxyConfig := None;
      }
    }
  }

  // ---- Runs ----

  ghost function Exec(n: Node, events: seq<Event>): Node
    decreases |events|
  {
    if events == [] then n else Exec(OnEvent(n, events[0]), events[1..])
  }

  /**
   A file is provided under the hex digest of its content. A stop or a resume
   names any id at all: its endpoint passes on what stands in the URL.
   */
  predicate HashedIds(events: seq<Event>) {
    forall i :: 0 <= i < |events| ==> Hashed(events[i])
  }

  predicate Hashed(e: Event) { e.ProvideFile? ==> IsHex(e.fileId) }

  predicate HexRows(files: map<string, FileRow>) { forall id :: id in files ==> IsHex(id) }

  function ProxyKey(): string { WithNamespace(PROXY_PROVIDER_KEY) }

  lemma FileKeysAreNotProxyKey(files: map<string, FileRow>)
    requires HexRows(files)
    ensures forall id :: id in files ==> WithNamespace(id) != ProxyKey()
  {
    forall id | id in files
      ensures WithNamespace(id) != ProxyKey()
    {
      HexKeys(id);
    }
  }

  // ---- The DHT agrees with the table ----

  /** Every provided key is the proxy key or the namespaced id of an active row. */
  ghost predicate KeysAreActive(n: Node) {
    HexRows(n.files) && n.dht - {ProxyKey()} <= ActiveKeys(n.files)
  }

  lemma ActiveUpdate(files: map<string, FileRow>, id: string, row: FileRow)
    requires HexRows(files) && IsHex(id)
    ensures forall k :: k != WithNamespace(id) ==> (k in ActiveKeys(files[id := row]) <==> k in ActiveKeys(files))
    ensures row.active ==> WithNamespace(id) in ActiveKeys(files[id := row])
    ensures ActiveKeys(files - {id}) == ActiveKeys(files) - {WithNamespace(id)}
  {
    HexKeys(id);
    forall k | k in files && k != id
      ensures WithNamespace(k) != WithNamespace(id)
    {
      HexKeys(k);
      NamespaceIsInjective(k, id);
    }
  }

  lemma EventKeepsKeysActive(n: Node, e: Event)
    requires KeysAreActive(n) && Hashed(e)
    ensures KeysAreActive(OnEvent(n, e))
  {
    var after := OnEvent(n, e);
    if !n.panicked && (e.ProvideFile? || e.StopProvidingFile? || e.ResumeFile?) {
      var id := e.fileId;
      var row := if e.ProvideFile? then FileRow(e.path, true)
                 else if id in n.files then n.files[id].(active := e.ResumeFile?) else FileRow("", false);
      assert after.files in {n.files, n.files - {id}, n.files[id := row]};
      if id in n.files || e.ProvideFile? {
        ActiveUpdate(n.files, id, row);
      } else {
        assert n.files - {id} == n.files && after.files == n.files;
      }
      forall k | k in after.dht - {ProxyKey()}
        ensures k in ActiveKeys(after.files)
      {
        if k != WithNamespace(id) {
          assert k in n.dht - {ProxyKey()};
        }
      }
    }
  }

  /**
   In every run, whatever database calls fail and whatever ids are stopped: each
   provided file key is the namespaced id of an active row, and after a successful
   advertising step the provided file keys are exactly those of the active rows.
   */
  lemma {:induction false} ProvidedKeysAreActiveRows(n: Node, events: seq<Event>)
    requires KeysAreActive(n) && HashedIds(events)
    ensures var after := Exec(n, events);
            && KeysAreActive(after)
            && (!after.panicked ==>
                  OnEvent(after, AdvertiseFiles(true)).dht - {ProxyKey()} == ActiveKeys(after.files))
    decreases |events|
  {
    if events == [] {
      FileKeysAreNotProxyKey(n.files);
    } else {
      EventKeepsKeysActive(n, events[0]);
      ProvidedKeysAreActiveRows(OnEvent(n, events[0]), events[1..]);
    }
  }

  // ---- Proxy lifecycle ----

  /** Sender and configuration tell the same story, and spawns minus effective stops is 0 or 1. */
  ghost predicate SenderInStep(n: Node) {
    (n.sender <==> n.config.Some?) && n.spawned == n.stopped + (if n.sender then 1 else 0)
  }

  /** So does the DHT key. */
  ghost predicate InStep(n: Node) {
    SenderInStep(n) && (ProxyKey() in n.dht <==> n.config == Some(Provider))
  }

  /** Restarted with a stored mode whose StartProxy is still queued. */
  ghost predicate BeforeBoot(n: Node) {
    !n.sender && n.config.Some? && ProxyKey() !in n.dht && n.spawned == n.stopped
  }

  /** A stop of the proxy's own key, as if it were a file, while the provider runs. */
  predicate WithdrawsKey(n: Node, e: Event) {
    n.sender && n.config == Some(Provider) && e.StopProvidingFile? && WithNamespace(e.fileId) == ProxyKey()
  }

  /** The key was withdrawn in this way and the proxy has not been stopped since. */
  ghost predicate KeyWithdrawn(n: Node, events: seq<Event>, already: bool)
    decreases |events|
  {
    if events == [] then already
    else KeyWithdrawn(OnEvent(n, events[0]), events[1..],
                      WithdrawsKey(n, events[0]) || (already && !events[0].StopProxy?))
  }

  /** In step but for a withdrawn key. */
  ghost predicate InStepBut(n: Node, withdrawn: bool) {
    && SenderInStep(n)
    && (withdrawn ==> n.config == Some(Provider))
    && (ProxyKey() in n.dht <==> n.config == Some(Provider) && !withdrawn)
  }

  lemma EventTracksKey(n: Node, e: Event, withdrawn: bool)
    requires HexRows(n.files) && Hashed(e)
    ensures var after := OnEvent(n, e);
            var next := WithdrawsKey(n, e) || (withdrawn && !e.StopProxy?);
            && HexRows(after.files)
            && (n.panicked ==> after.panicked)
            && (!after.panicked && InStepBut(n, withdrawn) ==> InStepBut(after, next))
            && (!after.panicked && BeforeBoot(n) && !withdrawn ==>
                  InStepBut(after, next) || (BeforeBoot(after) && !next && !e.StartProxy?))
  {
    FileKeysAreNotProxyKey(n.files);
    if e.ProvideFile? {
      HexKeys(e.fileId);
    }
  }

  lemma {:induction false} RunTracksKey(n: Node, events: seq<Event>, withdrawn: bool)
    requires HexRows(n.files) && HashedIds(events)
    ensures var after := Exec(n, events);
            var end := KeyWithdrawn(n, events, withdrawn);
            && HexRows(after.files)
            && (n.panicked ==> after.panicked)
            && (!after.panicked && InStepBut(n, withdrawn) ==> InStepBut(after, end))
            && (!after.panicked && BeforeBoot(n) && !withdrawn ==> InStepBut(after, end) || (BeforeBoot(after) && !end))
    decreases |events|
  {
    if events != [] {
      EventTracksKey(n, events[0], withdrawn);
      RunTracksKey(OnEvent(n, events[0]), events[1..],
                   WithdrawsKey(n, events[0]) || (withdrawn && !events[0].StopProxy?));
    }
  }

  lemma {:induction false} RunConcat(n: Node, xs: seq<Event>, ys: seq<Event>, withdrawn: bool)
    ensures Exec(n, xs + ys) == Exec(Exec(n, xs), ys)
    ensures KeyWithdrawn(n, xs + ys, withdrawn) == KeyWithdrawn(Exec(n, xs), ys, KeyWithdrawn(n, xs, withdrawn))
    decreases |xs|
  {
    if xs == [] {
      assert xs + ys == ys;
    } else {
      assert (xs + ys)[1..] == xs[1..] + ys;
      RunConcat(OnEvent(n, xs[0]), xs[1..], ys, WithdrawsKey(n, xs[0]) || (withdrawn && !xs[0].StopProxy?));
    }
  }

  /** The node when it comes up with what the configuration file and the table hold. */
  function Booting(files: map<string, FileRow>, config: Option<Mode>): Node {
    Node(files, {}, false, config, 0, 0, false)
  }

  /** A stored mode is started again by an event that may be handled after others. */
  function BootRun(config: Option<Mode>, before: seq<Event>, saved: bool, after: seq<Event>): seq<Event> {
    before + (if config.Some? then [StartProxy(config.value, saved)] else []) + after
  }

  /**
   With or without a stored mode, whatever is handled before the boot StartProxy
   and after it, with endpoint checks stale or not: a sender is held exactly when
   a mode is configured and spawns minus effective stops is 0 or 1; and the proxy
   key is provided exactly when that mode is provider if and only if the key was
   not withdrawn through a file stop.
   */
  lemma ProxyStaysInStep(files: map<string, FileRow>, config: Option<Mode>, before: seq<Event>, saved: bool,
                         after: seq<Event>)
    requires HexRows(files) && HashedIds(before) && HashedIds(after)
    ensures var start, events := Booting(files, config), BootRun(config, before, saved, after);
            var end := Exec(start, events);
            !end.panicked ==>
              && SenderInStep(end)
              && (InStep(end) <==> !KeyWithdrawn(start, events, false))
  {
    var start := Booting(files, config);
    var boot := if config.Some? then [StartProxy(config.value, saved)] else [];
    assert HashedIds(boot);
    RunTracksKey(start, before, false);
    var ready, withdrawn := Exec(start, before), KeyWithdrawn(start, before, false);
    BootTracksKey(ready, config, saved, withdrawn);
    RunConcat(start, before, boot, false);
    var booted := Exec(ready, boot);
    RunTracksKey(booted, after, KeyWithdrawn(ready, boot, withdrawn));
    RunConcat(start, before + boot, after, false);
  }

  lemma BootTracksKey(ready: Node, config: Option<Mode>, saved: bool, withdrawn: bool)
    requires HexRows(ready.files)
    requires !ready.panicked ==>
               InStepBut(ready, withdrawn) || (config.Some? && BeforeBoot(ready) && !withdrawn)
    ensures var boot := if config.Some? then [StartProxy(config.value, saved)] else [];
            var booted := Exec(ready, boot);
            && HexRows(booted.files)
            && (ready.panicked ==> booted.panicked)
            && (!booted.panicked ==> InStepBut(booted, KeyWithdrawn(ready, boot, withdrawn)))
  {
    if config.Some? {
      var boot := [StartProxy(config.value, saved)];
      EventTracksKey(ready, boot[0], withdrawn);
      assert boot[1..] == [];
      assert Exec(ready, boot) == OnEvent(ready, boot[0]);
      assert KeyWithdrawn(ready, boot, withdrawn) == withdrawn;
    }
  }

  lemma {:induction false} UnnamedKeyIsKept(n: Node, events: seq<Event>)
    requires forall i :: 0 <= i < |events| && events[i].StopProvidingFile? ==>
               WithNamespace(events[i].fileId) != ProxyKey()
    ensures !KeyWithdrawn(n, events, false)
    decreases |events|
  {
    if events != [] {
      UnnamedKeyIsKept(OnEvent(n, events[0]), events[1..]);
    }
  }

  /** In particular nothing goes out of step when no stop names the proxy key, in either of its two forms. */
  lemma FileEventsKeepStep(files: map<string, FileRow>, config: Option<Mode>, before: seq<Event>, saved: bool,
                           after: seq<Event>)
    requires HexRows(files) && HashedIds(before) && HashedIds(after)
    requires forall e :: e in before + after && e.StopProvidingFile? ==>
               e.fileId != PROXY_PROVIDER_KEY && e.fileId != NAMESPACE + "/" + PROXY_PROVIDER_KEY
    ensures var end := Exec(Booting(files, config), BootRun(config, before, saved, after));
            !end.panicked ==> InStep(end)
  {
    var events := BootRun(config, before, saved, after);
    forall i | 0 <= i < |events| && events[i].StopProvidingFile?
      ensures WithNamespace(events[i].fileId) != ProxyKey()
    {
      assert events[i] in before + after;
      NamespaceIsInjective(events[i].fileId, PROXY_PROVIDER_KEY);
    }
    UnnamedKeyIsKept(Booting(files, config), events);
    ProxyStaysInStep(files, config, before, saved, after);
  }

  /**
   The one event that breaks the agreement, decided before it is handled: from any
   state in step, a file stop keeps it unless it names a running provider's key.
   */
  lemma FileStopKeepsStepIff(n: Node, id: string, permanent: bool, db: bool)
    requires InStep(n) && !n.panicked
    ensures InStep(OnEvent(n, StopProvidingFile(id, permanent, db)))
            <==> !(n.config == Some(Provider) && WithNamespace(id) == ProxyKey())
  {}

  /** It can happen on every node: start the proxy, then stop providing a file named like its key. */
  lemma StoppedKeyLeavesProxyRunning(files: map<string, FileRow>, permanent: bool, db: bool)
    ensures var end := Exec(Booting(files, None),
                            [StartProxy(Provider, true), StopProvidingFile(PROXY_PROVIDER_KEY, permanent, db)]);
            && !end.panicked && end.sender && end.config == Some(Provider)
            && ProxyKey() !in end.dht && !InStep(end)
  {
    var events := [StartProxy(Provider, true), StopProvidingFile(PROXY_PROVIDER_KEY, permanent, db)];
    var started := OnEvent(Booting(files, None), events[0]);
    assert Exec(Booting(files, None), events) == Exec(started, events[1..]);
    assert events[1..][0] == events[1] && events[1..][1..] == [];
    assert Exec(started, events[1..]) == OnEvent(started, events[1]);
  }

  /**
   The handler panics on a stop exactly when no mode is configured or the
   configuration cannot be written: two stops that both passed the endpoint's
   check are enough.
   */
  lemma StopPanicsIff(n: Node, saved: bool)
    requires !n.panicked
    ensures OnEvent(n, StopProxy(saved)).panicked <==> n.config.None? || !saved
    ensures OnEvent(OnEvent(n, StopProxy(saved)), StopProxy(saved)).panicked
  {}
}

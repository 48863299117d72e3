/**
 The release registry: a copy-on-write document on a permanent, content-addressed store.

 A put runs under one promise-chain lock, in segments between awaits: learn the current transaction id,
 load that document through the cache tiers, upload the extended copy, record the new id.  Other uploads,
 other reads, the clock and loss of cached files interleave freely.
 */
module ReleaseStorage {
  import opened Wrappers
  import T = Text
  import L = PromiseLock

  const UPLOAD_CACHE_TTL_MS: int := 10 * 60 * 1000

  type Tx = string

  /** SHA-256 of a JSON array of strings: a free, hence injective, constructor. */
  datatype Digest = Sha256(parts: seq<string>)

  /** What a stored text parses to: a JSON object, or text that is no object (possibly empty). */
  datatype Document = Object(entries: map<Digest, string>) | Unparsable(chars: string)

  datatype Cached = Cached(data: Document, ts: int)

  // ----- Keys -----

  function PlanPart(planId: Option<string>): string {
    if planId.Some? then T.Trim(planId.value) else ""
  }

  function RegistryKey(wallet: string, authority: string, planId: Option<string>): Digest {
    Sha256([T.Lower(T.Trim(wallet)), T.Trim(authority), PlanPart(planId)])
  }

  function RegistryKeyLegacy(wallet: string, authority: string): Digest {
    Sha256([T.Lower(T.Trim(wallet)), T.Trim(authority)])
  }

  function ManifestKey(wallet: string, authority: string, recipient: string, planId: Option<string>): Digest {
    Sha256([T.Lower(T.Trim(wallet)), T.Trim(authority), recipient, PlanPart(planId)])
  }

  // ----- The store and its cache tiers -----

  /** `uploads` is the permanent store; `recent` and `disk` are the two local tiers. */
  datatype Store = Store(clock: int, uploads: map<Tx, Document>, recent: map<Tx, Cached>, disk: map<Tx, Document>)

  predicate Falsy(d: Document) {
    d == Unparsable("")
  }

  /** Memory, then disk (re-populating memory), then whichever gateway answers, if one does. */
  function FetchResult(s: Store, tx: Tx, reachable: bool): Option<Document> {
    if tx in s.recent && s.clock - s.recent[tx].ts < UPLOAD_CACHE_TTL_MS then Some(s.recent[tx].data)
    else if tx in s.disk && !Falsy(s.disk[tx]) then Some(s.disk[tx])
    else if reachable && tx in s.uploads then Some(s.uploads[tx])
    else None
  }

  function AfterFetch(s: Store, tx: Tx): Store {
    if tx in s.recent && s.clock - s.recent[tx].ts < UPLOAD_CACHE_TTL_MS then s
    else if tx in s.disk && !Falsy(s.disk[tx]) then s.(recent := s.recent[tx := Cached(s.disk[tx], s.clock)])
    else s.(recent := s.recent - {tx})
  }

  /** An id names one content for ever; a transaction may be posted again, never replaced. */
  predicate CanUpload(s: Store, tx: Tx, d: Document) {
    tx in s.uploads ==> s.uploads[tx] == d
  }

  function AfterUpload(s: Store, tx: Tx, d: Document, diskOk: bool): Store {
    s.(uploads := s.uploads[tx := d],
       recent := s.recent[tx := Cached(d, s.clock)],
       disk := if diskOk then s.disk[tx := d] else s.disk)
  }

  /** How a payload replacement reads the old manifest: a local copy of any age, else a fetch. */
  function ManifestText(s: Store, tx: Tx, reachable: bool): Option<Document> {
    if tx in s.recent && !Falsy(s.recent[tx].data) then Some(s.recent[tx].data)
    else if tx !in s.recent && tx in s.disk && !Falsy(s.disk[tx]) then Some(s.disk[tx])
    else FetchResult(s, tx, reachable)
  }

  /** Reading the old manifest touches the caches only if it has to be fetched. */
  function AfterManifestText(s: Store, tx: Tx): Store {
    if tx in s.recent && !Falsy(s.recent[tx].data) then s
    else if tx !in s.recent && tx in s.disk && !Falsy(s.disk[tx]) then s
    else AfterFetch(s, tx)
  }

  ghost predicate Coherent(s: Store) {
    && (forall tx :: tx in s.recent ==> tx in s.uploads && s.recent[tx].data == s.uploads[tx])
    && (forall tx :: tx in s.disk ==> tx in s.uploads && s.disk[tx] == s.uploads[tx])
  }

  ghost predicate Extends(s: Store, s': Store) {
    forall tx :: tx in s.uploads ==> tx in s'.uploads && s'.uploads[tx] == s.uploads[tx]
  }

  // ----- The interleaved registry -----

  datatype Put = Put(key: Digest, manifest: string)

  datatype Phase =
    | Queued
    | Granted
    | Located(id: Option<Tx>)                     // current registry id known
    | Loaded(entries: map<Digest, string>, read: bool) // current document parsed, if it could be read
    | Uploaded(tx: Tx, read: bool)                // extended copy is on the store
    | Leaving(result: Option<Tx>)
    | Done(result: Option<Tx>)

  datatype Task = Task(put: Put, ticket: nat, phase: Phase)

  /** A put that was saved, its lock ticket, and whether it could read the document it was to extend. */
  datatype SavedPut = SavedPut(ticket: nat, put: Put, read: bool)

  /** `row` is the id kept in the database, `env` the configured fallback; `log` is history. */
  datatype State = State(store: Store, row: Option<Tx>, env: Option<Tx>, lock: L.Queue, tasks: map<nat, Task>,
                         log: seq<SavedPut>)

  function Init(store: Store, row: Option<Tx>, env: Option<Tx>): State {
    State(store, row, env, L.Empty(L.TailIsNext), map[], [])
  }

  function CurrentId(s: State): Option<Tx> {
    if s.row.Some? then s.row else s.env
  }

  function Entries(d: Option<Document>): map<Digest, string> {
    if d.Some? && d.value.Object? then d.value.entries else map[]
  }

  /** The registry the program would recover from the current id with everything readable. */
  function CurrentDoc(s: State): map<Digest, string> {
    var id := CurrentId(s);
    if id.Some? && id.value in s.store.uploads then Entries(Some(s.store.uploads[id.value])) else map[]
  }

  datatype Event =
    | Tick(to: int)
    | Call(t: nat, put: Put)
    | Enter(t: nat)
    | Locate(t: nat)
    | Load(t: nat, reachable: bool)
    | Upload(t: nat, tx: Tx, accepted: bool, diskOk: bool)
    | Save(t: nat, written: bool)
    | Leave(t: nat)
    | OtherUpload(tx: Tx, d: Document, diskOk: bool)
    | OtherFetch(tx: Tx)
    | LoseCachedFile(tx: Tx)

  function Move(s: State, t: nat, phase: Phase): State
    requires t in s.tasks
  {
    s.(tasks := s.tasks[t := s.tasks[t].(phase := phase)])
  }

  function Step(s: State, e: Event): State {
    match e
    case Tick(to) => if to >= s.store.clock then s.(store := s.store.(clock := to)) else s
    case OtherUpload(tx, d, diskOk) => if CanUpload(s.store, tx, d) then s.(store := AfterUpload(s.store, tx, d, diskOk)) else s
    case OtherFetch(tx) => s.(store := AfterFetch(s.store, tx))
    case LoseCachedFile(tx) => s.(store := s.store.(disk := s.store.disk - {tx}))
    case Call(t, put) =>
      if t in s.tasks then s
      else s.(lock := L.Acquire(s.lock), tasks := s.tasks[t := Task(put, |s.lock.tickets|, Queued)])
    case Enter(t) =>
      if t in s.tasks && s.tasks[t].phase.Queued? && L.CanGrant(s.lock, s.tasks[t].ticket)
      then Move(s.(lock := L.Grant(s.lock, s.tasks[t].ticket)), t, Granted)
      else s
    case Locate(t) =>
      if t in s.tasks && s.tasks[t].phase.Granted? then Move(s, t, Located(CurrentId(s))) else s
    case Load(t, reachable) =>
      if t !in s.tasks || !s.tasks[t].phase.Located? then s
      else
        var id := s.tasks[t].phase.id;
        if id.None? then Move(s, t, Loaded(map[], true))
        else
          var found := FetchResult(s.store, id.value, reachable);
          Move(s.(store := AfterFetch(s.store, id.value)), t, Loaded(Entries(found), found.Some?))
    case Upload(t, tx, accepted, diskOk) =>
      if t !in s.tasks || !s.tasks[t].phase.Loaded? then s
      else
        var k := s.tasks[t];
        var d := Object(k.phase.entries[k.put.key := k.put.manifest]);
        if !accepted then Move(s, t, Leaving(None))
        else if CanUpload(s.store, tx, d) then Move(s.(store := AfterUpload(s.store, tx, d, diskOk)), t, Uploaded(tx, k.phase.read))
        else s
    case Save(t, written) =>
      if t !in s.tasks || !s.tasks[t].phase.Uploaded? then s
      else
        var k := s.tasks[t];
        if written then Move(s.(row := Some(k.phase.tx), log := s.log + [SavedPut(k.ticket, k.put, k.phase.read)]), t, Leaving(Some(k.phase.tx)))
        else Move(s, t, Leaving(None))
    case Leave(t) =>
      if t in s.tasks && s.tasks[t].phase.Leaving?
      then Move(s.(lock := L.Release(s.lock, s.tasks[t].ticket)), t, Done(s.tasks[t].phase.result))
      else s
  }

  function Run(s: State, es: seq<Event>): State {
    if es == [] then s else Step(Run(s, es[..|es| - 1]), es[|es| - 1])
  }

  /**
   The map the registry stands for: later puts win, and a put that could not read the document starts from
   an empty one.
   */
  function Fold(doc: map<Digest, string>, log: seq<SavedPut>): map<Digest, string> {
    if log == [] then doc
    else
      var last := log[|log| - 1];
      (if last.read then Fold(doc, log[..|log| - 1]) else map[])[last.put.key := last.put.manifest]
  }

  // ----- Invariant -----

  predicate Inside(p: Phase) {
    !p.Queued? && !p.Done?
  }

  predicate Unsaved(p: Phase) {
    !p.Leaving? && !p.Done?
  }

  predicate Saved(p: Phase) {
    (p.Leaving? || p.Done?) && p.result.Some?
  }

  ghost predicate Informed(s: State, k: Task) {
    match k.phase
    case Located(id) => id == CurrentId(s)
    case Loaded(entries, read) => entries == if read then CurrentDoc(s) else map[]
    case Uploaded(tx, read) =>
      tx in s.store.uploads && s.store.uploads[tx] == Object((if read then CurrentDoc(s) else map[])[k.put.key := k.put.manifest])
    case _ => true
  }

  ghost predicate Logged(s: State, ticket: nat) {
    exists i :: 0 <= i < |s.log| && s.log[i].ticket == ticket
  }

  ghost predicate TaskOk(s: State, t: nat)
    requires t in s.tasks
  {
    var k := s.tasks[t];
    && k.ticket < |s.lock.tickets|
    && (k.phase.Queued? ==> !s.lock.tickets[k.ticket].granted)
    && (Inside(k.phase) ==> L.Holding(s.lock, k.ticket))
    && (Logged(s, k.ticket) <==> Saved(k.phase))
    && Informed(s, k)
  }

  ghost predicate TasksOk(s: State) {
    && (forall t {:trigger TaskOk(s, t)} :: t in s.tasks ==> TaskOk(s, t))
    && (forall t, t' :: t in s.tasks && t' in s.tasks && t != t' ==> s.tasks[t].ticket != s.tasks[t'].ticket)
  }

  /** Saved puts follow one another in the order in which the lock was granted. */
  ghost predicate LogInOrder(s: State) {
    && (forall i :: 0 <= i < |s.log| ==> s.log[i].ticket < |s.lock.tickets| && s.lock.tickets[s.log[i].ticket].granted)
    && (forall i, j :: 0 <= i < j < |s.log| ==> s.log[i].ticket < s.log[j].ticket)
  }

  ghost predicate StoreOk(s: State) {
    Coherent(s.store) && (CurrentId(s).Some? ==> CurrentId(s).value in s.store.uploads)
  }

  ghost predicate Inv(doc0: map<Digest, string>, s: State) {
    && L.Inv(s.lock) && StoreOk(s) && TasksOk(s) && LogInOrder(s)
    && CurrentDoc(s) == Fold(doc0, s.log)
  }

  // ----- The tiers tell the truth -----

  /** Whichever tier answers, the answer is exactly what was uploaded under that id. */
  lemma FetchReturnsUpload(s: Store, tx: Tx, reachable: bool)
    requires Coherent(s)
    ensures FetchResult(s, tx, reachable).Some? ==> tx in s.uploads && FetchResult(s, tx, reachable).value == s.uploads[tx]
    ensures reachable && tx in s.uploads ==> FetchResult(s, tx, reachable).Some?
    ensures Coherent(AfterFetch(s, tx)) && AfterFetch(s, tx).uploads == s.uploads
  {
  }

  /** For ten minutes after an upload its text is readable with no gateway at all, and from disk at any time. */
  lemma FreshUploadIsReadable(s: Store, tx: Tx, d: Document, diskOk: bool, now: int)
    requires s.clock <= now < s.clock + 600_000 || (diskOk && d != Unparsable(""))
    ensures FetchResult(AfterUpload(s, tx, d, diskOk).(clock := now), tx, false) == Some(d)
  {
  }

  /** And no longer: without disk and gateway an older upload is out of reach. */
  lemma StaleUploadIsNot(s: Store, tx: Tx, d: Document, now: int)
    requires tx !in s.disk && now >= s.clock + 600_000
    ensures FetchResult(AfterUpload(s, tx, d, false).(clock := now), tx, false) == None
  {
  }

  /** A read answered from disk puts the text back in memory, for ten minutes more. */
  lemma DiskReadRefillsMemory(s: Store, tx: Tx, now: int)
    requires tx in s.disk && s.disk[tx] != Unparsable("") && (tx in s.recent ==> s.clock >= s.recent[tx].ts + 600_000)
    requires s.clock <= now < s.clock + 600_000
    ensures FetchResult(AfterFetch(s, tx).(clock := now, disk := map[]), tx, false) == Some(s.disk[tx])
  {
  }

  /** An empty file on disk is no answer: the gateways are asked. */
  lemma EmptyFileIsNoAnswer(s: Store, tx: Tx, reachable: bool)
    requires tx !in s.recent && tx in s.disk && s.disk[tx] == Unparsable("")
    ensures FetchResult(s, tx, reachable) == if reachable && tx in s.uploads then Some(s.uploads[tx]) else None
  {
  }

  /** A manifest is read from memory, at any age, or from disk, touching nothing; otherwise it is fetched. */
  lemma ManifestIsReadLocally(s: Store, tx: Tx, reachable: bool)
    ensures tx in s.recent && s.recent[tx].data != Unparsable("") ==>
      ManifestText(s, tx, reachable) == Some(s.recent[tx].data) && AfterManifestText(s, tx) == s
    ensures tx !in s.recent && tx in s.disk && s.disk[tx] != Unparsable("") ==>
      ManifestText(s, tx, reachable) == Some(s.disk[tx]) && AfterManifestText(s, tx) == s
    ensures (tx in s.recent && s.recent[tx].data == Unparsable("")) || (tx !in s.recent && (tx !in s.disk || s.disk[tx] == Unparsable(""))) ==>
      ManifestText(s, tx, reachable) == FetchResult(s, tx, reachable) && AfterManifestText(s, tx) == AfterFetch(s, tx)
  {
  }

  /** Without a recorded id the configured one names the registry; once a put is saved, its id does. */
  lemma RecordedIdWins(store: Store, env: Option<Tx>, tx: Tx)
    ensures env.Some? && env.value in store.uploads ==>
      CurrentDoc(Init(store, None, env)) == Entries(Some(store.uploads[env.value]))
    ensures tx in store.uploads ==> CurrentDoc(Init(store, Some(tx), env)) == Entries(Some(store.uploads[tx]))
    ensures env.None? ==> CurrentDoc(Init(store, None, env)) == map[]
  {
  }

  /** A refused upload changes nothing and ends the put; an accepted one is stored, on disk too if that works. */
  lemma UploadOutcome(s: State, t: nat, tx: Tx, diskOk: bool)
    requires t in s.tasks && s.tasks[t].phase.Loaded? && tx !in s.store.uploads
    ensures var refused := Step(s, Upload(t, tx, false, diskOk));
      refused.store == s.store && refused.tasks[t].phase == Leaving(None)
    ensures var k := s.tasks[t];
      var accepted := Step(s, Upload(t, tx, true, diskOk));
      var d := Object(k.phase.entries[k.put.key := k.put.manifest]);
      && accepted.tasks[t].phase == Uploaded(tx, k.phase.read)
      && accepted.store.uploads == s.store.uploads[tx := d]
      && accepted.store.disk == if diskOk then s.store.disk[tx := d] else s.store.disk
  {
  }

  // ----- Steps keep the invariant -----

  lemma FrameTask(s: State, s': State, t: nat)
    requires t in s.tasks && TaskOk(s, t) && t in s'.tasks && s'.tasks[t] == s.tasks[t]
    requires s'.lock == s.lock && s'.log == s.log && s'.row == s.row && s'.env == s.env
    requires StoreOk(s) && Extends(s.store, s'.store)
    ensures TaskOk(s', t) && CurrentDoc(s') == CurrentDoc(s)
  {
    assert Logged(s', s.tasks[t].ticket) <==> Logged(s, s.tasks[t].ticket);
  }

  /** Segments that leave the lock, the log and the recorded id alone. */
  lemma LocalKeepsInv(doc0: map<Digest, string>, s: State, s': State, t: Option<nat>)
    requires Inv(doc0, s)
    requires s'.lock == s.lock && s'.log == s.log && s'.row == s.row && s'.env == s.env
    requires Extends(s.store, s'.store) && Coherent(s'.store)
    requires s'.tasks.Keys == s.tasks.Keys
    requires forall u :: u in s.tasks && Some(u) != t ==> s'.tasks[u] == s.tasks[u]
    requires t.Some? ==> t.value in s.tasks && s'.tasks[t.value] == s.tasks[t.value].(phase := s'.tasks[t.value].phase)
    requires t.Some? ==> Inside(s.tasks[t.value].phase) && Unsaved(s.tasks[t.value].phase) && Inside(s'.tasks[t.value].phase)
    requires t.Some? ==> !Saved(s'.tasks[t.value].phase) && Informed(s', s'.tasks[t.value])
    ensures Inv(doc0, s')
  {
    assert CurrentDoc(s') == CurrentDoc(s);
    forall u | u in s'.tasks ensures TaskOk(s', u) {
      assert TaskOk(s, u);
      if Some(u) != t {
        FrameTask(s, s', u);
      } else {
        assert Logged(s', s.tasks[u].ticket) <==> Logged(s, s.tasks[u].ticket);
      }
    }
  }

  lemma LockStepKeepsTask(s: State, s': State, e: L.Event, t: nat)
    requires L.Inv(s.lock) && t in s.tasks && TaskOk(s, t) && t in s'.tasks && s'.tasks[t] == s.tasks[t]
    requires s'.lock == L.Step(s.lock, e) && s'.(lock := s.lock, tasks := s.tasks) == s
    requires e != L.EvGrant(s.tasks[t].ticket) && e != L.EvRelease(s.tasks[t].ticket)
    ensures TaskOk(s', t)
  {
    L.ReleasedAfter(s.lock, e, s.tasks[t].ticket);
    assert Logged(s', s.tasks[t].ticket) <==> Logged(s, s.tasks[t].ticket);
  }

  lemma LogStaysInOrder(s: State, s': State, e: L.Event)
    requires L.Inv(s.lock) && LogInOrder(s) && s'.lock == L.Step(s.lock, e) && s'.log == s.log
    ensures LogInOrder(s')
  {
    forall i | 0 <= i < |s.log| ensures s.log[i].ticket < |s'.lock.tickets| && s'.lock.tickets[s.log[i].ticket].granted {
      L.ReleasedAfter(s.lock, e, s.log[i].ticket);
    }
  }

  lemma CallKeepsInv(doc0: map<Digest, string>, s: State, t: nat, put: Put)
    requires Inv(doc0, s)
    ensures Inv(doc0, Step(s, Call(t, put)))
  {
    hide L.Inv, Fold;
    if t !in s.tasks {
      var s' := Step(s, Call(t, put));
      L.StepKeepsInv(s.lock, L.EvAcquire);
      LogStaysInOrder(s, s', L.EvAcquire);
      forall u | u in s'.tasks ensures TaskOk(s', u) {
        if u != t {
          assert TaskOk(s, u);
          LockStepKeepsTask(s, s', L.EvAcquire, u);
        }
      }
      forall u | u in s.tasks ensures s.tasks[u].ticket != s'.tasks[t].ticket { assert TaskOk(s, u); }
    }
  }

  lemma EnterKeepsInv(doc0: map<Digest, string>, s: State, t: nat)
    requires Inv(doc0, s)
    ensures Inv(doc0, Step(s, Enter(t)))
  {
    if t in s.tasks && s.tasks[t].phase.Queued? && L.CanGrant(s.lock, s.tasks[t].ticket) {
      var k := s.tasks[t].ticket;
      var s' := Step(s, Enter(t));
      L.StepKeepsInv(s.lock, L.EvGrant(k));
      LogStaysInOrder(s, s', L.EvGrant(k));
      assert TaskOk(s, t);
      forall u | u in s'.tasks ensures TaskOk(s', u) {
        if u != t {
          assert TaskOk(s, u);
          LockStepKeepsTask(s, s', L.EvGrant(k), u);
        } else {
          assert L.InOrder(s.lock, k);
          L.ReleasedAfter(s.lock, L.EvGrant(k), k);
          assert Logged(s', k) <==> Logged(s, k);
        }
      }
    }
  }

  lemma LeaveKeepsInv(doc0: map<Digest, string>, s: State, t: nat)
    requires Inv(doc0, s)
    ensures Inv(doc0, Step(s, Leave(t)))
  {
    hide L.Inv, Fold;
    if t in s.tasks && s.tasks[t].phase.Leaving? {
      var k := s.tasks[t].ticket;
      var s' := Step(s, Leave(t));
      L.StepKeepsInv(s.lock, L.EvRelease(k));
      LogStaysInOrder(s, s', L.EvRelease(k));
      assert TaskOk(s, t);
      forall u | u in s'.tasks ensures TaskOk(s', u) {
        if u != t {
          assert TaskOk(s, u);
          LockStepKeepsTask(s, s', L.EvRelease(k), u);
        } else {
          L.ReleasedAfter(s.lock, L.EvRelease(k), k);
          assert Logged(s', k) <==> Logged(s, k);
        }
      }
    }
  }

  /** The holder's save is the put's linearisation point. */
  lemma SaveKeepsInv(doc0: map<Digest, string>, s: State, t: nat)
    requires Inv(doc0, s) && t in s.tasks && s.tasks[t].phase.Uploaded?
    ensures Inv(doc0, Step(s, Save(t, true)))
  {
    hide L.Chained;
    var s' := Step(s, Save(t, true));
    var k := s.tasks[t];
    assert TaskOk(s, t);
    assert s'.log[..|s.log|] == s.log;
    assert s'.log[|s.log|].ticket == k.ticket;
    forall i | 0 <= i < |s.log| ensures s.log[i].ticket < k.ticket {
      assert L.InOrder(s.lock, s.log[i].ticket) && L.InOrder(s.lock, k.ticket);
      assert Logged(s, s.log[i].ticket);
    }
    forall u | u in s'.tasks ensures TaskOk(s', u) {
      assert TaskOk(s, u);
      LoggedAfterSave(s, s', s.tasks[u].ticket, k.ticket);
      if u != t && Inside(s.tasks[u].phase) {
        L.HoldersAgree(s.lock, s.tasks[u].ticket, k.ticket);
      }
    }
  }

  lemma LoggedAfterSave(s: State, s': State, ticket: nat, added: nat)
    requires |s'.log| == |s.log| + 1 && s'.log[..|s.log|] == s.log && s'.log[|s.log|].ticket == added
    ensures Logged(s', ticket) <==> Logged(s, ticket) || ticket == added
  {
    if Logged(s, ticket) {
      var i :| 0 <= i < |s.log| && s.log[i].ticket == ticket;
      assert s'.log[i] == s'.log[..|s.log|][i];
    }
    if Logged(s', ticket) && ticket != added {
      var i :| 0 <= i < |s'.log| && s'.log[i].ticket == ticket;
      assert s.log[i] == s'.log[..|s.log|][i];
    }
  }

  lemma LoadKeepsInv(doc0: map<Digest, string>, s: State, t: nat, reachable: bool)
    requires Inv(doc0, s)
    ensures Inv(doc0, Step(s, Load(t, reachable)))
  {
    hide L.Chained;
    if t in s.tasks && s.tasks[t].phase.Located? {
      assert TaskOk(s, t);
      var id := s.tasks[t].phase.id;
      if id.Some? { FetchReturnsUpload(s.store, id.value, reachable); }
      LocalKeepsInv(doc0, s, Step(s, Load(t, reachable)), Some(t));
    }
  }

  lemma UploadKeepsInv(doc0: map<Digest, string>, s: State, t: nat, tx: Tx, accepted: bool, diskOk: bool)
    requires Inv(doc0, s)
    ensures Inv(doc0, Step(s, Upload(t, tx, accepted, diskOk)))
  {
    hide L.Chained;
    var s' := Step(s, Upload(t, tx, accepted, diskOk));
    if s' != s {
      assert TaskOk(s, t);
      LocalKeepsInv(doc0, s, s', Some(t));
    }
  }

  /** The clock, other uploads and reads, and lost cache files. */
  lemma OtherKeepsInv(doc0: map<Digest, string>, s: State, e: Event)
    requires Inv(doc0, s) && (e.Tick? || e.OtherUpload? || e.OtherFetch? || e.LoseCachedFile?)
    ensures Inv(doc0, Step(s, e))
  {
    hide L.Chained;
    if e.OtherFetch? { FetchReturnsUpload(s.store, e.tx, false); }
    LocalKeepsInv(doc0, s, Step(s, e), None);
  }

  lemma LocateKeepsInv(doc0: map<Digest, string>, s: State, t: nat)
    requires Inv(doc0, s)
    ensures Inv(doc0, Step(s, Locate(t)))
  {
    if t in s.tasks && s.tasks[t].phase.Granted? { LocalKeepsInv(doc0, s, Step(s, Locate(t)), Some(t)); }
  }

  lemma UnsavedKeepsInv(doc0: map<Digest, string>, s: State, t: nat)
    requires Inv(doc0, s)
    ensures Inv(doc0, Step(s, Save(t, false)))
  {
    if t in s.tasks && s.tasks[t].phase.Uploaded? { LocalKeepsInv(doc0, s, Step(s, Save(t, false)), Some(t)); }
  }

  lemma StepKeepsInv(doc0: map<Digest, string>, s: State, e: Event)
    requires Inv(doc0, s)
    ensures Inv(doc0, Step(s, e))
  {
    match e
    case Tick(_) => OtherKeepsInv(doc0, s, e);
    case OtherUpload(_, _, _) => OtherKeepsInv(doc0, s, e);
    case OtherFetch(_) => OtherKeepsInv(doc0, s, e);
    case LoseCachedFile(_) => OtherKeepsInv(doc0, s, e);
    case Call(t, put) => CallKeepsInv(doc0, s, t, put);
    case Enter(t) => EnterKeepsInv(doc0, s, t);
    case Locate(t) => LocateKeepsInv(doc0, s, t);
    case Load(t, reachable) => LoadKeepsInv(doc0, s, t, reachable);
    case Upload(t, tx, accepted, diskOk) => UploadKeepsInv(doc0, s, t, tx, accepted, diskOk);
    case Save(t, written) =>
      if !written { UnsavedKeepsInv(doc0, s, t); }
      else if t in s.tasks && s.tasks[t].phase.Uploaded? { SaveKeepsInv(doc0, s, t); }
    case Leave(t) => LeaveKeepsInv(doc0, s, t);
  }

  lemma {:induction false} RunKeepsInv(doc0: map<Digest, string>, s: State, es: seq<Event>)
    requires Inv(doc0, s)
    ensures Inv(doc0, Run(s, es))
    decreases |es|
  {
    if es != [] {
      RunKeepsInv(doc0, s, es[..|es| - 1]);
      StepKeepsInv(doc0, Run(s, es[..|es| - 1]), es[|es| - 1]);
    }
  }

  // ----- Main results -----

  ghost predicate ValidStart(store: Store, row: Option<Tx>, env: Option<Tx>) {
    StoreOk(Init(store, row, env))
  }

  /**
   Refinement of an atomic map: in every interleaving the registry is the initial document with exactly the
   saved puts applied in lock order, each to what the puts before it left, or to nothing if it could not
   read that.  A task's put is among them exactly when that task reports a transaction id.
   */
  lemma RegistryIsFoldOfPuts(store: Store, row: Option<Tx>, env: Option<Tx>, es: seq<Event>)
    requires ValidStart(store, row, env)
    ensures var s := Run(Init(store, row, env), es);
      && CurrentDoc(s) == Fold(CurrentDoc(Init(store, row, env)), s.log)
      && (forall i, j :: 0 <= i < j < |s.log| ==> s.log[i].ticket < s.log[j].ticket)
      && (forall t :: t in s.tasks ==> (Logged(s, s.tasks[t].ticket) <==> Saved(s.tasks[t].phase)))
  {
    var doc0 := CurrentDoc(Init(store, row, env));
    RunKeepsInv(doc0, Init(store, row, env), es);
    var s := Run(Init(store, row, env), es);
    forall t | t in s.tasks ensures Logged(s, s.tasks[t].ticket) <==> Saved(s.tasks[t].phase) {
      assert TaskOk(s, t);
    }
  }

  // ----- What is lost over a run -----

  /** Every saved put applied, whatever it could read: the map the callers meant. */
  function Puts(doc: map<Digest, string>, log: seq<SavedPut>): map<Digest, string> {
    if log == [] then doc
    else
      var last := log[|log| - 1];
      Puts(doc, log[..|log| - 1])[last.put.key := last.put.manifest]
  }

  ghost predicate PutFrom(log: seq<SavedPut>, i: nat, key: Digest) {
    exists j :: i <= j < |log| && log[j].put.key == key
  }

  /** Each put that could not read the registry was, or was followed by, a put of this key, if it had a value. */
  ghost predicate Kept(doc: map<Digest, string>, log: seq<SavedPut>, key: Digest) {
    forall i :: 0 <= i < |log| && !log[i].read && key in Puts(doc, log[..i]) ==> PutFrom(log, i, key)
  }

  function At(doc: map<Digest, string>, key: Digest): Option<string> {
    if key in doc then Some(doc[key]) else None
  }

  lemma {:induction false} PutsOnlyAdd(doc: map<Digest, string>, log: seq<SavedPut>, i: nat)
    requires i <= |log|
    ensures Puts(doc, log[..i]).Keys <= Puts(doc, log).Keys
    decreases |log|
  {
    if i < |log| {
      var n := |log| - 1;
      assert log[..n][..i] == log[..i];
      PutsOnlyAdd(doc, log[..n], i);
    } else {
      assert log[..i] == log;
    }
  }

  lemma KeptBefore(doc: map<Digest, string>, log: seq<SavedPut>, key: Digest)
    requires log != [] && log[|log| - 1].put.key != key
    ensures var n := |log| - 1;
      Kept(doc, log, key) <==> Kept(doc, log[..n], key) && (log[n].read || key !in Puts(doc, log[..n]))
  {
    hide Puts;
    var n := |log| - 1;
    var init := log[..n];
    forall i: nat | i <= n ensures PutFrom(log, i, key) <==> PutFrom(init, i, key) {
      if PutFrom(log, i, key) {
        var j :| i <= j < |log| && log[j].put.key == key;
        assert init[j].put.key == key;
      }
      if PutFrom(init, i, key) {
        var j :| i <= j < n && init[j].put.key == key;
        assert log[j].put.key == key;
      }
    }
    assert !PutFrom(log, n, key);
    assert forall i {:trigger log[i]} {:trigger init[i]} :: 0 <= i < n ==> init[i] == log[i] && init[..i] == log[..i];
  }

  /** An entry is as the callers meant it exactly when no unread put came after its last one. */
  lemma {:induction false} KeptIff(doc: map<Digest, string>, log: seq<SavedPut>, key: Digest)
    ensures At(Fold(doc, log), key) == At(Puts(doc, log), key) <==> Kept(doc, log, key)
    decreases |log|
  {
    if log != [] {
      hide Kept;
      var n := |log| - 1;
      if log[n].put.key == key {
        assert Kept(doc, log, key) by { PutLastIsKept(doc, log, key); }
      } else {
        KeptIff(doc, log[..n], key);
        KeptBefore(doc, log, key);
        if !log[n].read && key !in Puts(doc, log[..n]) {
          assert Kept(doc, log[..n], key) by { NeverPutIsKept(doc, log[..n], key); }
        }
      }
    } else {
      assert Kept(doc, log, key);
    }
  }

  lemma PutLastIsKept(doc: map<Digest, string>, log: seq<SavedPut>, key: Digest)
    requires log != [] && log[|log| - 1].put.key == key
    ensures Kept(doc, log, key)
  {
    forall i | 0 <= i < |log| ensures PutFrom(log, i, key) {
      assert i <= |log| - 1;
    }
  }

  lemma NeverPutIsKept(doc: map<Digest, string>, log: seq<SavedPut>, key: Digest)
    requires key !in Puts(doc, log)
    ensures Kept(doc, log, key)
  {
    hide Puts;
    forall i | 0 <= i < |log| ensures key !in Puts(doc, log[..i]) {
      PutsOnlyAdd(doc, log, i);
    }
  }

  /**
   Over any run no saved put and no initial entry is lost exactly when each put that could not read the
   registry was, or was later followed by, a put of every key that had a value before it.
   */
  lemma NothingLostIff(store: Store, row: Option<Tx>, env: Option<Tx>, es: seq<Event>)
    requires ValidStart(store, row, env)
    ensures var s := Run(Init(store, row, env), es);
      var doc0 := CurrentDoc(Init(store, row, env));
      && (CurrentDoc(s) == Puts(doc0, s.log) <==> forall key :: Kept(doc0, s.log, key))
      && (forall key :: At(CurrentDoc(s), key) == At(Puts(doc0, s.log), key) <==> Kept(doc0, s.log, key))
  {
    hide Run, Puts, Fold, Kept;
    RegistryIsFoldOfPuts(store, row, env, es);
    var s := Run(Init(store, row, env), es);
    var doc0 := CurrentDoc(Init(store, row, env));
    forall key ensures At(CurrentDoc(s), key) == At(Puts(doc0, s.log), key) <==> Kept(doc0, s.log, key) {
      KeptIff(doc0, s.log, key);
    }
    if forall key :: Kept(doc0, s.log, key) {
      forall key ensures At(CurrentDoc(s), key) == At(Puts(doc0, s.log), key) {
        assert Kept(doc0, s.log, key);
      }
      SameEntries(CurrentDoc(s), Puts(doc0, s.log));
    }
  }

  lemma SameEntries(d: map<Digest, string>, e: map<Digest, string>)
    requires forall key :: At(d, key) == At(e, key)
    ensures d == e
  {
    forall key ensures key in d <==> key in e { assert At(d, key) == At(e, key); }
    forall key | key in d ensures d[key] == e[key] { assert At(d, key) == At(e, key); }
  }

  lemma StepExtendsStore(s: State, e: Event)
    ensures Extends(s.store, Step(s, e).store)
  {
    hide L.Acquire, L.Grant, L.Release, L.CanGrant;
  }

  lemma {:induction false} RunExtendsStore(s: State, es: seq<Event>)
    ensures Extends(s.store, Run(s, es).store)
    decreases |es|
  {
    if es != [] {
      RunExtendsStore(s, es[..|es| - 1]);
      StepExtendsStore(Run(s, es[..|es| - 1]), es[|es| - 1]);
    }
  }

  /**
   A reader that learned the id in one state and fetches in any later state gets exactly the document
   that was current when it learned the id: lookups need no lock.
   */
  lemma ReaderSeesTheRegistryItLocated(store: Store, row: Option<Tx>, env: Option<Tx>, es: seq<Event>, later: seq<Event>, reachable: bool)
    requires ValidStart(store, row, env)
    requires CurrentId(Run(Init(store, row, env), es)).Some?
    ensures var s := Run(Init(store, row, env), es);
      var found := FetchResult(Run(s, later).store, CurrentId(s).value, reachable);
      (found.Some? ==> Entries(found) == CurrentDoc(s)) && (reachable ==> found.Some?)
  {
    var doc0 := CurrentDoc(Init(store, row, env));
    RunKeepsInv(doc0, Init(store, row, env), es);
    var s := Run(Init(store, row, env), es);
    RunKeepsInv(doc0, s, later);
    RunExtendsStore(s, later);
    FetchReturnsUpload(Run(s, later).store, CurrentId(s).value, reachable);
  }

  // ----- Looking a manifest up -----

  function ValueOr(doc: map<Digest, string>, key: Digest): string {
    if key in doc then doc[key] else ""
  }

  /** The scoped key, then the pre-plan key, then the empty-plan key; an empty value counts as absent. */
  function Lookup(doc: map<Digest, string>, wallet: string, authority: string, planId: Option<string>): Option<string> {
    var key := RegistryKey(wallet, authority, planId);
    if ValueOr(doc, key) != "" then Some(doc[key])
    else if planId.None? || planId.value == "" then None
    else if ValueOr(doc, RegistryKeyLegacy(wallet, authority)) != "" then Some(doc[RegistryKeyLegacy(wallet, authority)])
    else
      var emptyPlanKey := RegistryKey(wallet, authority, None);
      if emptyPlanKey != key && ValueOr(doc, emptyPlanKey) != "" then Some(doc[emptyPlanKey]) else None
  }

  /** The last value put under `key`, unless a put of another key that could not read it came after. */
  function LatestPut(log: seq<SavedPut>, key: Digest): Option<string> {
    if log == [] then None
    else
      var last := log[|log| - 1];
      if last.put.key == key then Some(last.put.manifest)
      else if last.read then LatestPut(log[..|log| - 1], key)
      else None
  }

  /** The last saved put of the key, followed only by puts of other keys that could read the registry. */
  ghost predicate IsLatest(log: seq<SavedPut>, key: Digest, i: nat) {
    && i < |log| && log[i].put.key == key
    && forall j :: i < j < |log| ==> log[j].put.key != key && log[j].read
  }

  lemma IsLatestBefore(log: seq<SavedPut>, key: Digest, i: nat)
    requires log != [] && log[|log| - 1].put.key != key
    ensures var n := |log| - 1; IsLatest(log, key, i) <==> IsLatest(log[..n], key, i) && log[n].read
  {
    var n := |log| - 1;
    if i < n { assert log[..n][i] == log[i]; }
    if IsLatest(log[..n], key, i) && log[n].read {
      forall j | i < j < |log| ensures log[j].put.key != key && log[j].read {
        if j < n { assert log[..n][j] == log[j]; }
      }
    }
    if IsLatest(log, key, i) {
      assert log[n].read;
      forall j | i < j < n ensures log[..n][j].put.key != key && log[..n][j].read { assert log[..n][j] == log[j]; }
    }
  }

  lemma {:induction false} LatestPutIff(log: seq<SavedPut>, key: Digest, m: string)
    ensures LatestPut(log, key) == Some(m) <==> exists i: nat :: IsLatest(log, key, i) && log[i].put.manifest == m
    decreases |log|
  {
    if log != [] {
      var n := |log| - 1;
      LatestPutIff(log[..n], key, m);
      if log[n].put.key == key {
        assert IsLatest(log, key, n);
        forall i: nat | IsLatest(log, key, i) ensures i == n { LastIsLatest(log, key, i); }
      } else {
        hide IsLatest;
        forall i: nat ensures IsLatest(log, key, i) <==> IsLatest(log[..n], key, i) && log[n].read { IsLatestBefore(log, key, i); }
        forall i: nat | IsLatest(log[..n], key, i) ensures i < n { IsLatestInside(log[..n], key, i); }
        forall i: nat | IsLatest(log, key, i) ensures i < |log| { IsLatestInside(log, key, i); }
      }
    }
  }

  lemma LastIsLatest(log: seq<SavedPut>, key: Digest, i: nat)
    requires log != [] && log[|log| - 1].put.key == key && IsLatest(log, key, i)
    ensures i == |log| - 1
  {
  }

  lemma IsLatestInside(log: seq<SavedPut>, key: Digest, i: nat)
    requires IsLatest(log, key, i)
    ensures i < |log|
  {
  }

  lemma {:induction false} FoldAt(doc: map<Digest, string>, log: seq<SavedPut>, key: Digest)
    ensures LatestPut(log, key).Some? ==> ValueOr(Fold(doc, log), key) == LatestPut(log, key).value
    decreases |log|
  {
    if log != [] { FoldAt(doc, log[..|log| - 1], key); }
  }

  /** A lookup returns the latest put of its own (normalised) triple, whatever else was put. */
  lemma LookupReturnsLatestPut(doc: map<Digest, string>, log: seq<SavedPut>, wallet: string, authority: string, planId: Option<string>)
    requires var latest := LatestPut(log, RegistryKey(wallet, authority, planId)); latest.Some? && latest.value != ""
    ensures Lookup(Fold(doc, log), wallet, authority, planId) == LatestPut(log, RegistryKey(wallet, authority, planId))
  {
    FoldAt(doc, log, RegistryKey(wallet, authority, planId));
  }

  /**
   A reader that learned the registry's id at any point of any run, and fetches at any later point, finds
   the put of its triple that was the latest when it learned the id.
   */
  lemma ReaderFindsLatestPut(store: Store, row: Option<Tx>, env: Option<Tx>, es: seq<Event>, later: seq<Event>, reachable: bool,
                             wallet: string, authority: string, planId: Option<string>)
    requires ValidStart(store, row, env) && CurrentId(Run(Init(store, row, env), es)).Some?
    requires var latest := LatestPut(Run(Init(store, row, env), es).log, RegistryKey(wallet, authority, planId));
      latest.Some? && latest.value != ""
    ensures var s := Run(Init(store, row, env), es);
      var found := FetchResult(Run(s, later).store, CurrentId(s).value, reachable);
      && (reachable ==> found.Some?)
      && (found.Some? ==> Lookup(Entries(found), wallet, authority, planId) == LatestPut(s.log, RegistryKey(wallet, authority, planId)))
  {
    hide Run, Lookup, LatestPut, Fold, FetchResult;
    ReaderSeesTheRegistryItLocated(store, row, env, es, later, reachable);
    RegistryIsFoldOfPuts(store, row, env, es);
    LookupReturnsLatestPut(CurrentDoc(Init(store, row, env)), Run(Init(store, row, env), es).log, wallet, authority, planId);
  }

  /** Entries under other keys show through only where the scoped key has no value. */
  lemma FallbackOnlyWhenScopedAbsent(doc: map<Digest, string>, wallet: string, authority: string, planId: Option<string>)
    ensures var scoped := ValueOr(doc, RegistryKey(wallet, authority, planId));
      var legacy := ValueOr(doc, RegistryKeyLegacy(wallet, authority));
      var unscoped := ValueOr(doc, RegistryKey(wallet, authority, None));
      match Lookup(doc, wallet, authority, planId)
      case Some(v) => v != "" && (v == scoped || (scoped == "" && (v == legacy || (legacy == "" && v == unscoped))))
      case None => scoped == "" && (planId.Some? && planId.value != "" ==> legacy == "" && unscoped == "")
  {
    assert ValueOr(doc, RegistryKey(wallet, authority, planId)) != "" || ValueOr(doc, RegistryKey(wallet, authority, None)) == ""
        || RegistryKey(wallet, authority, None) != RegistryKey(wallet, authority, planId);
  }

  /** Names compare without surrounding blanks, wallets also without case. */
  predicate SameWallet(w: string, w': string) {
    T.Lower(T.Trim(w)) == T.Lower(T.Trim(w'))
  }

  predicate SameName(a: string, a': string) {
    T.Trim(a) == T.Trim(a')
  }

  /** An absent plan is the same as an empty or blank one. */
  predicate SamePlan(p: Option<string>, p': Option<string>) {
    (if p.Some? then T.Trim(p.value) else "") == if p'.Some? then T.Trim(p'.value) else ""
  }

  lemma SameParts(k: Digest, k': Digest)
    requires |k.parts| == |k'.parts|
    ensures k == k' <==> forall i :: 0 <= i < |k.parts| ==> k.parts[i] == k'.parts[i]
  {
  }

  /** Distinct normalised triples never share a key, so no put can shadow another's. */
  lemma KeysAreScoped(w: string, a: string, p: Option<string>, w': string, a': string, p': Option<string>)
    ensures RegistryKey(w, a, p) == RegistryKey(w', a', p') <==> SameWallet(w, w') && SameName(a, a') && SamePlan(p, p')
    ensures RegistryKeyLegacy(w, a) == RegistryKeyLegacy(w', a') <==> SameWallet(w, w') && SameName(a, a')
    ensures RegistryKey(w, a, p) != RegistryKeyLegacy(w', a')
  {
    SameParts(RegistryKey(w, a, p), RegistryKey(w', a', p'));
    SameParts(RegistryKeyLegacy(w, a), RegistryKeyLegacy(w', a'));
    assert |RegistryKey(w, a, p).parts| == 3 && |RegistryKeyLegacy(w', a').parts| == 2;
  }

  /** A manifest has one key per wallet, authority, recipient and plan. */
  lemma ManifestKeysAreScoped(w: string, a: string, n: string, p: Option<string>, w': string, a': string, n': string, p': Option<string>)
    ensures ManifestKey(w, a, n, p) == ManifestKey(w', a', n', p') <==>
      SameWallet(w, w') && SameName(a, a') && n == n' && SamePlan(p, p')
  {
    var k, k' := ManifestKey(w, a, n, p), ManifestKey(w', a', n', p');
    SameParts(k, k');
    if k == k' { assert k.parts[2] == k'.parts[2]; }
  }

  // ----- Runs of payload replacements -----

  /** A replacement whose two uploads are accepted, under ids of their own. */
  datatype Replacement = Replacement(
    wallet: string, authority: string, recipient: string, planId: Option<string>, body: Document,
    payloadTx: Tx, newTx: Tx, reachable: bool, diskOk: bool)

  function Replaced(s: Store, manifestTx: Tx, x: Replacement): Store {
    var entries := Entries(ManifestText(s, manifestTx, x.reachable));
    var s1 := AfterUpload(AfterManifestText(s, manifestTx), x.payloadTx, x.body, x.diskOk);
    var key := ManifestKey(x.wallet, x.authority, x.recipient, x.planId);
    AfterUpload(s1, x.newTx, Object(entries[key := x.payloadTx]), x.diskOk)
  }

  /** A replacement of the current manifest, or anything else that happens to the store meanwhile. */
  datatype Happening = Replace(x: Replacement) | Elsewhere(e: Event)

  function StoreStep(s: Store, e: Event): Store {
    match e
    case Tick(to) => if to >= s.clock then s.(clock := to) else s
    case OtherUpload(tx, d, diskOk) => if CanUpload(s, tx, d) then AfterUpload(s, tx, d, diskOk) else s
    case OtherFetch(tx) => AfterFetch(s, tx)
    case LoseCachedFile(tx) => s.(disk := s.disk - {tx})
    case _ => s
  }

  /** The store, and the id of the manifest in force. */
  function Happen(s: Store, cur: Tx, hs: seq<Happening>): (Store, Tx) {
    if hs == [] then (s, cur)
    else
      var (s1, cur1) := Happen(s, cur, hs[..|hs| - 1]);
      match hs[|hs| - 1]
      case Replace(x) => (Replaced(s1, cur1, x), x.newTx)
      case Elsewhere(e) => (StoreStep(s1, e), cur1)
  }

  ghost predicate GoesThrough(s: Store, cur: Tx, x: Replacement) {
    && ManifestText(s, cur, x.reachable).Some? && !Damaged(ManifestText(s, cur, x.reachable))
    && x.payloadTx !in s.uploads && x.newTx !in s.uploads && x.payloadTx != x.newTx
  }

  /** Every replacement could read the manifest it replaces, and its ids are new. */
  ghost predicate AllGoThrough(s: Store, cur: Tx, hs: seq<Happening>) {
    forall i :: 0 <= i < |hs| && hs[i].Replace? ==>
      GoesThrough(Happen(s, cur, hs[..i]).0, Happen(s, cur, hs[..i]).1, hs[i].x)
  }

  predicate SentTo(h: Happening, w: string, a: string, n: string, p: Option<string>) {
    h.Replace? && SameWallet(h.x.wallet, w) && SameName(h.x.authority, a) && h.x.recipient == n && SamePlan(h.x.planId, p)
  }

  /** The last payload sent to one recipient. */
  function LastPayload(hs: seq<Happening>, w: string, a: string, n: string, p: Option<string>): Option<Tx> {
    if hs == [] then None
    else if SentTo(hs[|hs| - 1], w, a, n, p) then Some(hs[|hs| - 1].x.payloadTx)
    else LastPayload(hs[..|hs| - 1], w, a, n, p)
  }

  lemma StoreStepIsStep(s: State, e: Event)
    requires e.Tick? || e.OtherUpload? || e.OtherFetch? || e.LoseCachedFile?
    ensures Step(s, e) == s.(store := StoreStep(s.store, e))
  {
  }

  lemma StoreStepKeeps(s: Store, e: Event)
    requires Coherent(s)
    ensures Coherent(StoreStep(s, e)) && Extends(s, StoreStep(s, e))
  {
    if e.OtherFetch? { FetchReturnsUpload(s, e.tx, false); }
  }

  lemma ManifestTextIsUpload(s: Store, tx: Tx, reachable: bool)
    requires Coherent(s)
    ensures ManifestText(s, tx, reachable).Some? ==> tx in s.uploads && ManifestText(s, tx, reachable).value == s.uploads[tx]
    ensures Coherent(AfterManifestText(s, tx)) && AfterManifestText(s, tx).uploads == s.uploads
  {
    FetchReturnsUpload(s, tx, reachable);
  }

  lemma ReplacedKeeps(s: Store, cur: Tx, x: Replacement)
    requires Coherent(s) && GoesThrough(s, cur, x)
    ensures var t := Replaced(s, cur, x);
      && Coherent(t) && Extends(s, t) && cur in s.uploads
      && x.payloadTx in t.uploads && t.uploads[x.payloadTx] == x.body && x.newTx in t.uploads
      && t.uploads[x.newTx] == Object(Entries(Some(s.uploads[cur]))[ManifestKey(x.wallet, x.authority, x.recipient, x.planId) := x.payloadTx])
  {
    hide ManifestText, AfterManifestText, ManifestKey;
    ManifestTextIsUpload(s, cur, x.reachable);
  }

  lemma {:induction false} HappenKeeps(s: Store, cur: Tx, hs: seq<Happening>)
    requires Coherent(s) && cur in s.uploads && AllGoThrough(s, cur, hs)
    ensures var (t, last) := Happen(s, cur, hs); Coherent(t) && Extends(s, t) && last in t.uploads
    decreases |hs|
  {
    if hs != [] {
      hide Replaced, StoreStep, GoesThrough;
      var n := |hs| - 1;
      EarlierGoThrough(s, cur, hs);
      HappenKeeps(s, cur, hs[..n]);
      var (t, last) := Happen(s, cur, hs[..n]);
      if hs[n].Replace? { ReplacedKeeps(t, last, hs[n].x); } else { StoreStepKeeps(t, hs[n].e); }
    }
  }

  lemma EarlierGoThrough(s: Store, cur: Tx, hs: seq<Happening>)
    requires hs != [] && AllGoThrough(s, cur, hs)
    ensures AllGoThrough(s, cur, hs[..|hs| - 1])
  {
    hide Happen, GoesThrough;
    var init := hs[..|hs| - 1];
    forall i | 0 <= i < |init| && init[i].Replace?
      ensures GoesThrough(Happen(s, cur, init[..i]).0, Happen(s, cur, init[..i]).1, init[i].x)
    {
      assert init[..i] == hs[..i] && init[i] == hs[i];
    }
  }

  /**
   After any run of replacements, whatever else happens to the store in between, each recipient's entry is
   the last payload sent to that recipient, and the entry of a recipient none was sent to is what it was.
   */
  lemma {:induction false} EachRecipientKeepsItsPayload(
    s: Store, cur: Tx, hs: seq<Happening>, w: string, a: string, n: string, p: Option<string>)
    requires Coherent(s) && cur in s.uploads && AllGoThrough(s, cur, hs)
    ensures var (t, last) := Happen(s, cur, hs);
      var sent := LastPayload(hs, w, a, n, p);
      && last in t.uploads
      && At(Entries(Some(t.uploads[last])), ManifestKey(w, a, n, p)) ==
        if sent.Some? then sent else At(Entries(Some(s.uploads[cur])), ManifestKey(w, a, n, p))
    decreases |hs|
  {
    HappenKeeps(s, cur, hs);
    if hs != [] {
      hide Replaced, StoreStep, GoesThrough, ManifestKey, SameWallet, SameName, SamePlan, Coherent;
      var k := |hs| - 1;
      EarlierGoThrough(s, cur, hs);
      HappenKeeps(s, cur, hs[..k]);
      EachRecipientKeepsItsPayload(s, cur, hs[..k], w, a, n, p);
      var (t, last) := Happen(s, cur, hs[..k]);
      if hs[k].Replace? {
        var x := hs[k].x;
        ReplacedKeeps(t, last, x);
        ManifestKeysAreScoped(x.wallet, x.authority, x.recipient, x.planId, w, a, n, p);
      } else {
        StoreStepKeeps(t, hs[k].e);
      }
    }
  }

  // ----- The code as the program holds it -----

  class ArweaveStorage {
    var clock: int
    var uploads: map<Tx, Document>
    var recent: map<Tx, Cached>
    var disk: map<Tx, Document>
    var row: Option<Tx>
    var env: Option<Tx>

    function View(): Store
      reads this
    {
      Store(clock, uploads, recent, disk)
    }

    constructor (now: int, env: Option<Tx>)
      ensures View() == Store(now, map[], map[], map[]) && row == None && this.env == env
    {
      clock, uploads, recent, disk, row := now, map[], map[], map[], None;
      this.env := env;
    }

    method FetchFromArweave(tx: Tx, reachable: bool) returns (text: Option<Document>)
      modifies `recent
      ensures View() == AfterFetch(old(View()), tx) && text == FetchResult(old(View()), tx, reachable)
      ensures old(Coherent(View())) ==> Coherent(View()) && (text.Some? ==> tx in uploads && text.value == uploads[tx])
    {
      if tx in recent {
        if clock - recent[tx].ts < UPLOAD_CACHE_TTL_MS { return Some(recent[tx].data); }
        recent := recent - {tx};
      }
      if tx in disk && !Falsy(disk[tx]) {
        recent := recent[tx := Cached(disk[tx], clock)];
        assert recent == old(recent)[tx := Cached(disk[tx], clock)];
        return Some(disk[tx]);
      }
      assert recent == old(recent) - {tx};
      text := if reachable && tx in uploads then Some(uploads[tx]) else None;
    }

    method UploadToArweave(d: Document, tx: Tx, accepted: bool, diskOk: bool) returns (id: Option<Tx>)
      requires CanUpload(View(), tx, d)
      modifies `uploads, `recent, `disk
      ensures accepted ==> id == Some(tx) && View() == AfterUpload(old(View()), tx, d, diskOk)
      ensures !accepted ==> id == None && View() == old(View())
    {
      if !accepted { return None; }
      uploads := uploads[tx := d];
      recent := recent[tx := Cached(d, clock)];
      if diskOk { disk := disk[tx := d]; }
      return Some(tx);
    }

    function RegistryId(): (id: Option<Tx>)
      reads this
      ensures row.Some? ==> id == row
      ensures row.None? ==> id == env
    {
      if row.Some? then row else env
    }

    function Registry(): (doc: map<Digest, string>)
      reads this
      ensures RegistryId().Some? && RegistryId().value in uploads && uploads[RegistryId().value].Object? ==>
        doc == uploads[RegistryId().value].entries
      ensures RegistryId().None? ==> doc == map[]
    {
      if RegistryId().Some? && RegistryId().value in uploads then Entries(Some(uploads[RegistryId().value])) else map[]
    }

    /**
     The critical section of one put, uninterrupted.  It keeps every other entry exactly when the old
     document could be read or held nothing else; a refused upload changes nothing.
     */
    method UpdateRegistryAndSave(wallet: string, authority: string, manifest: string, planId: Option<string>,
                                 reachable: bool, newTx: Tx, accepted: bool, diskOk: bool) returns (id: Option<Tx>)
      requires Coherent(View()) && newTx !in uploads
      requires RegistryId().Some? ==> RegistryId().value in uploads
      modifies `uploads, `recent, `disk, `row
      ensures Coherent(View())
      ensures accepted <==> id == Some(newTx)
      ensures !accepted ==> id == None && row == old(row) && uploads == old(uploads) && Registry() == old(Registry())
      ensures accepted ==> row == Some(newTx) && uploads.Keys == old(uploads.Keys) + {newTx}
      ensures accepted ==>
        Registry() == Entries(if old(RegistryId()).None? then None else old(FetchResult(View(), RegistryId().value, reachable)))[RegistryKey(wallet, authority, planId) := manifest]
      ensures accepted ==>
        (Registry() == old(Registry())[RegistryKey(wallet, authority, planId) := manifest] <==>
          || old(RegistryId().None? || FetchResult(View(), RegistryId().value, reachable).Some?)
          || old(Registry()).Keys <= {RegistryKey(wallet, authority, planId)})
    {
      hide FetchResult, AfterFetch, RegistryKey;
      var key := RegistryKey(wallet, authority, planId);
      var registry: map<Digest, string> := map[];
      ghost var before := Registry();
      var current := RegistryId();
      ghost var readable := true;
      if current.Some? {
        var text := FetchFromArweave(current.value, reachable);
        readable := text.Some?;
        if text.Some? && text.value.Object? { registry := text.value.entries; }
      }
      assert readable ==> registry == before;
      assert !readable ==> registry == map[];
      registry := registry[key := manifest];
      id := UploadToArweave(Object(registry), newTx, accepted, diskOk);
      if id.Some? {
        row := id;
        assert Registry() == registry;
        SoleEntry(before, key, manifest);
      }
    }

    method GetManifestTxIdFromRegistry(wallet: string, authority: string, planId: Option<string>, reachable: bool) returns (tx: Option<Tx>)
      requires Coherent(View()) && (RegistryId().Some? ==> RegistryId().value in uploads)
      modifies `recent
      ensures Coherent(View())
      ensures RegistryId().Some? && FetchResult(old(View()), RegistryId().value, reachable).Some? ==>
        tx == Lookup(old(Registry()), wallet, authority, planId)
      ensures RegistryId().None? || FetchResult(old(View()), RegistryId().value, reachable).None? ==> tx == None
    {
      var id := RegistryId();
      if id.None? { return None; }
      var text := FetchFromArweave(id.value, reachable);
      if text.None? || text.value.Unparsable? { return None; }
      var registry := text.value.entries;
      var key := RegistryKey(wallet, authority, planId);
      if key in registry && registry[key] != "" { return Some(registry[key]); }
      if planId.Some? && planId.value != "" {
        var legacyKey := RegistryKeyLegacy(wallet, authority);
        if legacyKey in registry && registry[legacyKey] != "" { return Some(registry[legacyKey]); }
        var emptyPlanKey := RegistryKey(wallet, authority, None);
        if emptyPlanKey != key && emptyPlanKey in registry && registry[emptyPlanKey] != "" { return Some(registry[emptyPlanKey]); }
      }
      return None;
    }

    /** The local tiers at any age, then a fetch. */
    method ReadManifest(tx: Tx, reachable: bool) returns (text: Option<Document>)
      modifies `recent
      ensures text == old(ManifestText(View(), tx, reachable)) && View() == AfterManifestText(old(View()), tx)
    {
      text := None;
      if tx in recent {
        text := Some(recent[tx].data);
      } else if tx in disk {
        text := Some(disk[tx]);
      }
      if text.None? || Falsy(text.value) {
        text := FetchFromArweave(tx, reachable);
      }
    }

    /**
     Re-send one recipient's payload: the old manifest with that recipient's entry replaced.  It fails
     exactly when that manifest is damaged or one of the two uploads is refused, and a refused manifest
     leaves the payload uploaded with nothing naming it.
     */
    method ReplacePathPayload(wallet: string, authority: string, recipient: string, planId: Option<string>, manifestTx: Tx,
                              body: Document, payloadTx: Tx, payloadAccepted: bool, newTx: Tx, newAccepted: bool,
                              reachable: bool, diskOk: bool) returns (manifest: Option<Tx>)
      requires payloadTx !in uploads && newTx !in uploads && payloadTx != newTx
      modifies `uploads, `recent, `disk
      ensures manifest.None? <==> old(Damaged(ManifestText(View(), manifestTx, reachable))) || !payloadAccepted || !newAccepted
      ensures manifest.Some? ==> manifest == Some(newTx)
      ensures old(Damaged(ManifestText(View(), manifestTx, reachable))) || !payloadAccepted ==> uploads == old(uploads)
      ensures !old(Damaged(ManifestText(View(), manifestTx, reachable))) && payloadAccepted && !newAccepted ==>
        uploads == old(uploads)[payloadTx := body]
      ensures manifest.Some? ==>
        View() == Replaced(old(View()), manifestTx, Replacement(wallet, authority, recipient, planId, body, payloadTx, newTx, reachable, diskOk))
    {
      hide FetchResult, AfterFetch, ManifestText, AfterManifestText, ManifestKey;
      var text := ReadManifest(manifestTx, reachable);
      var entries: map<Digest, string> := map[];
      if text.Some? && !Falsy(text.value) {
        if text.value.Unparsable? { return None; }
        entries := text.value.entries;
      }
      var key := ManifestKey(wallet, authority, recipient, planId);
      var newPayload := UploadToArweave(body, payloadTx, payloadAccepted, diskOk);
      if newPayload.None? { return None; }
      entries := entries[key := newPayload.value];
      manifest := UploadToArweave(Object(entries), newTx, newAccepted, diskOk);
    }
  }

  /** Text that is there but is no object. */
  predicate Damaged(text: Option<Document>) {
    text.Some? && text.value.Unparsable? && !Falsy(text.value)
  }

  /** The other recipients survive a replacement exactly when the old manifest was readable, or held none. */
  lemma ReplacementKeepsOthersIff(s: Store, tx: Tx, reachable: bool, key: Digest, payload: string)
    requires Coherent(s) && tx in s.uploads
    ensures Entries(ManifestText(s, tx, reachable))[key := payload] == Entries(Some(s.uploads[tx]))[key := payload] <==>
      ManifestText(s, tx, reachable).Some? || Entries(Some(s.uploads[tx])).Keys <= {key}
  {
    FetchReturnsUpload(s, tx, reachable);
    SoleEntry(Entries(Some(s.uploads[tx])), key, payload);
  }

  /** Starting afresh loses nothing exactly when there was nothing else to lose. */
  lemma SoleEntry(doc: map<Digest, string>, key: Digest, value: string)
    ensures map[key := value] == doc[key := value] <==> doc.Keys <= {key}
  {
    assert doc[key := value].Keys == doc.Keys + {key};
    assert map[key := value].Keys == {key};
  }

  function BlindPut(b: Digest, newTx: Tx): seq<Event> {
    [Call(0, Put(b, "n")), Enter(0), Locate(0), Load(0, false), Upload(0, newTx, true, true), Save(0, true)]
  }

  lemma SixSteps(s: State, es: seq<Event>)
    requires |es| == 6
    ensures Run(s, es) == Step(Step(Step(Step(Step(Step(s, es[0]), es[1]), es[2]), es[3]), es[4]), es[5])
  {
    hide Step;
    assert es[..5][..4] == es[..4] && es[..4][..3] == es[..3] && es[..3][..2] == es[..2] && es[..2][..1] == es[..1] && es[..1][..0] == [];
    assert Run(s, es[..1]) == Step(s, es[0]);
    assert Run(s, es[..2]) == Step(Run(s, es[..1]), es[1]);
    assert Run(s, es[..3]) == Step(Run(s, es[..2]), es[2]);
    assert Run(s, es[..4]) == Step(Run(s, es[..3]), es[3]);
    assert Run(s, es[..5]) == Step(Run(s, es[..4]), es[4]);
  }

  lemma BlindAfterGrant(s: State, b: Digest, tx: Tx, newTx: Tx)
    requires 0 in s.tasks && s.tasks[0] == Task(Put(b, "n"), 0, Granted) && CurrentId(s) == Some(tx)
    requires s.store.recent == map[] && s.store.disk == map[] && newTx !in s.store.uploads
    ensures var s' := Step(Step(Step(Step(s, Locate(0)), Load(0, false)), Upload(0, newTx, true, true)), Save(0, true));
      s'.log == s.log + [SavedPut(0, Put(b, "n"), false)] && CurrentDoc(s') == map[b := "n"]
  {
    var s1 := Step(s, Locate(0));
    assert s1.tasks[0].phase == Located(Some(tx));
    var s2 := Step(s1, Load(0, false));
    assert s2.tasks[0].phase == Loaded(map[], false);
    var s3 := Step(s2, Upload(0, newTx, true, true));
    assert s3.tasks[0].phase == Uploaded(newTx, false) && s3.store.uploads[newTx] == Object(map[b := "n"]);
  }

  /** A put that cannot read the registry erases it: two entries go in, one comes out. */
  lemma BlindPutErases(store: Store, a: Digest, b: Digest, tx: Tx, newTx: Tx)
    requires a != b && store.recent == map[] && store.disk == map[] && tx != newTx
    requires store.uploads == map[tx := Object(map[a := "m"])]
    ensures var s := Run(Init(store, Some(tx), None), BlindPut(b, newTx));
      && CurrentDoc(Init(store, Some(tx), None)) == map[a := "m"]
      && s.log == [SavedPut(0, Put(b, "n"), false)] && CurrentDoc(s) == map[b := "n"]
  {
    var s0 := Init(store, Some(tx), None);
    SixSteps(s0, BlindPut(b, newTx));
    L.Uncontended(s0.lock);
    var s1 := Step(s0, Call(0, Put(b, "n")));
    var s2 := Step(s1, Enter(0));
    assert s2.tasks[0] == Task(Put(b, "n"), 0, Granted);
    BlindAfterGrant(s2, b, tx, newTx);
  }
}

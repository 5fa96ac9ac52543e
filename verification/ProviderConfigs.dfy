/**
 Provider credentials of every organization: configuration rows pointing at
 vault secrets, changed together in one transaction. Saving is a locked
 check-then-write program that interleaves with the single-statement calls that
 enable, disable and delete; those take no advisory lock. The rows a program
 writes stay locked until its commit, so its writes and its commit are one step.
 Models src/arie/provider_configs.py, src/arie/credential_resolver.py and the
 vault calls of src/arie/vault.py.
 */
module ProviderConfigs {
  import opened Scoring

  type Org = nat
  type TxId = nat
  type SecretId = nat
  type Credential = string

  datatype Provider = AbstractCompany | HunterCombined | ApolloPerson | Unsupported(name: string)

  type Place = (Org, Provider)

  datatype Config = Config(enabled: bool, secretId: SecretId)

  datatype Point = Waiting | Locked | Seen(existing: Option<SecretId>)

  datatype Saving = Saving(place: Place, raw: Credential, at: Point)

  /** Calls in the order they took effect. */
  datatype Call = Stored(place: Place, raw: Credential) | Switched(place: Place, enabled: bool) | Removed(place: Place)

  datatype State = State(
    configs: map<Place, Config>,
    vault: map<SecretId, Credential>,
    locks: map<int, TxId>,
    txs: map<TxId, Saving>,
    log: seq<Call>)

  datatype Step =
    | BeginSave(tx: TxId, place: Place, raw: Credential)
    | TakeLock(tx: TxId)
    | ReadExisting(tx: TxId)
    | CommitSave(tx: TxId, newId: SecretId)
    | SetEnabled(place: Place, enabled: bool)
    | Delete(place: Place)
    | Abort(tx: TxId)

  predicate At(s: State, tx: TxId) { tx in s.txs }

  predicate Supported(p: Provider) { !p.Unsupported? }

  /** When a step can run; `key` maps a place to its advisory lock key, not necessarily injectively.
      An unsupported provider is refused before any statement runs. */
  predicate Enabled(key: Place -> int, s: State, step: Step) {
    match step
    case BeginSave(tx, k, _) => tx !in s.txs && Supported(k.1)
    case TakeLock(tx) => At(s, tx) && s.txs[tx].at == Waiting && key(s.txs[tx].place) !in s.locks
    case ReadExisting(tx) => At(s, tx) && s.txs[tx].at == Locked
    case CommitSave(tx, id) => At(s, tx) && s.txs[tx].at.Seen? && id !in s.vault
    case SetEnabled(k, _) => Supported(k.1)
    case Delete(k) => Supported(k.1)
    case Abort(tx) => At(s, tx)
  }

  function Finish(s: State, tx: TxId): State {
    s.(txs := s.txs - {tx}, locks := map k | k in s.locks && s.locks[k] != tx :: s.locks[k])
  }

  /** UPDATE vault.secrets: a missing secret is no row. */
  function Rewritten(vault: map<SecretId, Credential>, id: SecretId, raw: Credential): map<SecretId, Credential> {
    if id in vault then vault[id := raw] else vault
  }

  /** Create or replace as decided by the earlier read. An insert that meets a row violates the unique constraint,
      an update that finds none fails the call's own assertion; both roll everything back. */
  function CommitSaveStep(s: State, tx: TxId, newId: SecretId): State
    requires At(s, tx) && s.txs[tx].at.Seen?
  {
    var p := s.txs[tx];
    match p.at.existing
    case None =>
      if p.place in s.configs then Finish(s, tx)
      else Finish(s.(configs := s.configs[p.place := Config(true, newId)], vault := s.vault[newId := p.raw],
                     log := s.log + [Stored(p.place, p.raw)]), tx)
    case Some(id) =>
      if p.place !in s.configs then Finish(s, tx)
      else Finish(s.(vault := Rewritten(s.vault, id, p.raw), log := s.log + [Stored(p.place, p.raw)]), tx)
  }

  function SetEnabledStep(s: State, k: Place, enabled: bool): State {
    (if k in s.configs then s.(configs := s.configs[k := s.configs[k].(enabled := enabled)]) else s)
    .(log := s.log + [Switched(k, enabled)])
  }

  function DeleteStep(s: State, k: Place): State {
    (if k in s.configs then s.(configs := s.configs - {k}, vault := s.vault - {s.configs[k].secretId}) else s)
    .(log := s.log + [Removed(k)])
  }

  function Next(key: Place -> int, s: State, step: Step): State
    requires Enabled(key, s, step)
  {
    match step
    case BeginSave(tx, k, raw) => s.(txs := s.txs[tx := Saving(k, raw, Waiting)])
    case TakeLock(tx) => s.(locks := s.locks[key(s.txs[tx].place) := tx], txs := s.txs[tx := s.txs[tx].(at := Locked)])
    case ReadExisting(tx) =>
      var k := s.txs[tx].place;
      s.(txs := s.txs[tx := s.txs[tx].(at := Seen(if k in s.configs then Some(s.configs[k].secretId) else None))])
    case CommitSave(tx, id) => CommitSaveStep(s, tx, id)
    case SetEnabled(k, b) => SetEnabledStep(s, k, b)
    case Delete(k) => DeleteStep(s, k)
    case Abort(tx) => Finish(s, tx)
  }

  const EMPTY := State(map[], map[], map[], map[], [])

  ghost predicate IsRun(key: Place -> int, ss: seq<State>, steps: seq<Step>) {
    && |ss| == |steps| + 1 && ss[0] == EMPTY
    && forall i :: 0 <= i < |steps| ==> Enabled(key, ss[i], steps[i]) && ss[i + 1] == Next(key, ss[i], steps[i])
  }

  // ---------------------------------------------------- what a log remembers --

  datatype Entry = Entry(credential: Credential, enabled: bool)

  /** The credential and flag a place should have after the calls of a log, reading nothing but the log. */
  function Recall(log: seq<Call>, k: Place): Option<Entry> {
    if log == [] then None
    else if log[|log| - 1].place == k then After(Recall(log[..|log| - 1], k), log[|log| - 1])
    else Recall(log[..|log| - 1], k)
  }

  function After(before: Option<Entry>, c: Call): Option<Entry> {
    match c
    case Stored(_, raw) => Some(Entry(raw, if before.Some? then before.value.enabled else true))
    case Switched(_, b) => if before.Some? then Some(before.value.(enabled := b)) else None
    case Removed(_) => None
  }

  lemma RecallOneMore(log: seq<Call>, c: Call, k: Place)
    ensures Recall(log + [c], k) == if c.place == k then After(Recall(log, k), c) else Recall(log, k)
  {
    assert (log + [c])[..|log|] == log;
  }

  function Only(log: seq<Call>, k: Place): seq<Call> {
    if log == [] then []
    else Only(log[..|log| - 1], k) + if log[|log| - 1].place == k then [log[|log| - 1]] else []
  }

  /** Only the calls about a place matter to it. */
  lemma {:induction false} OtherPlacesDoNotMatter(log: seq<Call>, k: Place)
    ensures Recall(log, k) == Recall(Only(log, k), k)
  {
    if log != [] {
      var front := log[..|log| - 1];
      OtherPlacesDoNotMatter(front, k);
      if log[|log| - 1].place == k {
        RecallOneMore(Only(front, k), log[|log| - 1], k);
      } else {
        assert Only(log, k) == Only(front, k);
      }
    }
  }

  // ------------------------------------------------- tables agree with calls --

  datatype Resolved = InvalidProvider | Unavailable | Available(credential: Credential)

  /** resolve_provider_credential: unknown names are refused; otherwise the vault value behind an enabled row. */
  function Resolve(configs: map<Place, Config>, vault: map<SecretId, Credential>, k: Place): Resolved {
    if !Supported(k.1) then InvalidProvider
    else if k !in configs || !configs[k].enabled || configs[k].secretId !in vault then Unavailable
    else Available(vault[configs[k].secretId])
  }

  predicate Points(configs: map<Place, Config>, k: Place, id: SecretId) {
    k in configs && configs[k].secretId == id
  }

  /** Every row has its own secret, and every secret a row. */
  ghost predicate Paired(configs: map<Place, Config>, vault: map<SecretId, Credential>) {
    && (forall k :: k in configs ==> configs[k].secretId in vault)
    && (forall j, k, id :: Points(configs, j, id) && Points(configs, k, id) ==> j == k)
    && (forall id :: id in vault ==> exists k :: Points(configs, k, id))
  }

  function Lookup(configs: map<Place, Config>, vault: map<SecretId, Credential>, k: Place): Option<Entry> {
    if k in configs && configs[k].secretId in vault
    then Some(Entry(vault[configs[k].secretId], configs[k].enabled)) else None
  }

  /** The effect of a call on one place, as its callers see it. */
  ghost predicate Does(configs: map<Place, Config>, vault: map<SecretId, Credential>,
                       after: map<Place, Config>, vaultAfter: map<SecretId, Credential>, c: Call) {
    && Paired(after, vaultAfter)
    && forall k: Place :: Lookup(after, vaultAfter, k) ==
         if k == c.place then After(Lookup(configs, vault, k), c) else Lookup(configs, vault, k)
  }

  lemma CreateStores(configs: map<Place, Config>, vault: map<SecretId, Credential>, k: Place, id: SecretId,
                     raw: Credential)
    requires Paired(configs, vault) && k !in configs && id !in vault
    ensures Does(configs, vault, configs[k := Config(true, id)], vault[id := raw], Stored(k, raw))
  {
    var after, vaultAfter := configs[k := Config(true, id)], vault[id := raw];
    forall i | i in vaultAfter ensures exists j :: Points(after, j, i) {
      if i == id {
        assert Points(after, k, i);
      } else {
        var j :| Points(configs, j, i);
        assert Points(after, j, i);
      }
    }
    forall j, l, i | Points(after, j, i) && Points(after, l, i) ensures j == l {
      if j != k && l != k { assert Points(configs, j, i) && Points(configs, l, i); }
    }
  }

  lemma ReplaceStores(configs: map<Place, Config>, vault: map<SecretId, Credential>, k: Place, raw: Credential)
    requires Paired(configs, vault) && k in configs
    ensures Does(configs, vault, configs, vault[configs[k].secretId := raw], Stored(k, raw))
  {
    forall j: Place | j in configs && j != k ensures configs[j].secretId != configs[k].secretId {
      assert Points(configs, j, configs[j].secretId) && Points(configs, k, configs[k].secretId);
    }
  }

  lemma SwitchSwitches(configs: map<Place, Config>, vault: map<SecretId, Credential>, k: Place, enabled: bool)
    requires Paired(configs, vault) && k in configs
    ensures Does(configs, vault, configs[k := configs[k].(enabled := enabled)], vault, Switched(k, enabled))
  {
    var after := configs[k := configs[k].(enabled := enabled)];
    forall j: Place, i: SecretId ensures Points(after, j, i) <==> Points(configs, j, i) {
    }
    forall i | i in vault ensures exists j :: Points(after, j, i) {
      var j :| Points(configs, j, i);
      assert Points(after, j, i);
    }
  }

  lemma RemoveRemoves(configs: map<Place, Config>, vault: map<SecretId, Credential>, k: Place)
    requires Paired(configs, vault) && k in configs
    ensures Does(configs, vault, configs - {k}, vault - {configs[k].secretId}, Removed(k))
  {
    var after := configs - {k};
    var id := configs[k].secretId;
    forall j: Place | j in after ensures after[j].secretId != id {
      assert Points(configs, j, after[j].secretId) && Points(configs, k, id);
    }
    forall i | i in vault && i != id ensures exists j :: Points(after, j, i) {
      var j :| Points(configs, j, i);
      assert Points(after, j, i);
    }
    forall j, l, i | Points(after, j, i) && Points(after, l, i) ensures j == l {
      assert Points(configs, j, i) && Points(configs, l, i);
    }
  }

  lemma NothingThere(configs: map<Place, Config>, vault: map<SecretId, Credential>, c: Call)
    requires Paired(configs, vault) && !c.Stored? && c.place !in configs
    ensures Does(configs, vault, configs, vault, c)
  {
  }

  predicate PastLock(s: State, tx: TxId) { tx in s.txs && s.txs[tx].at != Waiting }

  /** What a save has read: a row it did not see is still absent, a row it saw is gone or unchanged in its secret. */
  predicate ReadHolds(s: State, tx: TxId) {
    tx in s.txs && s.txs[tx].at.Seen? ==>
      var p := s.txs[tx];
      match p.at.existing
      case None => p.place !in s.configs
      case Some(id) => p.place in s.configs ==> s.configs[p.place].secretId == id
  }

  ghost predicate Locking(key: Place -> int, s: State) {
    forall tx :: PastLock(s, tx) ==> key(s.txs[tx].place) in s.locks && s.locks[key(s.txs[tx].place)] == tx
  }

  ghost predicate Agrees(s: State) {
    && Paired(s.configs, s.vault)
    && (forall k: Place :: Lookup(s.configs, s.vault, k) == Recall(s.log, k))
  }

  ghost predicate StoreInv(key: Place -> int, s: State) {
    && Agrees(s) && Locking(key, s)
    && (forall tx :: ReadHolds(s, tx))
  }

  lemma LoggedAgrees(s: State, n: State, c: Call)
    requires Agrees(s) && n.log == s.log + [c] && Does(s.configs, s.vault, n.configs, n.vault, c)
    ensures Agrees(n)
  {
    forall k: Place ensures Lookup(n.configs, n.vault, k) == Recall(n.log, k) {
      RecallOneMore(s.log, c, k);
    }
  }

  lemma FinishKeeps(key: Place -> int, s: State, tx: TxId)
    requires Agrees(s) && Locking(key, s)
    requires forall t :: t != tx ==> ReadHolds(s, t)
    ensures StoreInv(key, Finish(s, tx))
  {
    var n := Finish(s, tx);
    forall t ensures ReadHolds(n, t) {
      if t != tx { assert ReadHolds(s, t); }
    }
    forall t | PastLock(n, t) ensures key(n.txs[t].place) in n.locks && n.locks[key(n.txs[t].place)] == t {
      assert PastLock(s, t);
    }
  }

  lemma CommitSaveKeeps(key: Place -> int, s: State, tx: TxId, newId: SecretId)
    requires StoreInv(key, s) && Enabled(key, s, CommitSave(tx, newId))
    ensures StoreInv(key, Next(key, s, CommitSave(tx, newId)))
  {
    var p := s.txs[tx];
    assert ReadHolds(s, tx) && PastLock(s, tx);
    if p.at.existing.None? {
      CreateStores(s.configs, s.vault, p.place, newId, p.raw);
      var n := s.(configs := s.configs[p.place := Config(true, newId)], vault := s.vault[newId := p.raw],
                  log := s.log + [Stored(p.place, p.raw)]);
      LoggedAgrees(s, n, Stored(p.place, p.raw));
      forall t | t != tx ensures ReadHolds(n, t) {
        assert ReadHolds(s, t);
        if t in s.txs && s.txs[t].at.Seen? { assert PastLock(s, t); }
      }
      FinishKeeps(key, n, tx);
    } else if p.place in s.configs {
      ReplaceStores(s.configs, s.vault, p.place, p.raw);
      var n := s.(vault := s.vault[s.configs[p.place].secretId := p.raw], log := s.log + [Stored(p.place, p.raw)]);
      LoggedAgrees(s, n, Stored(p.place, p.raw));
      forall t | t != tx ensures ReadHolds(n, t) { assert ReadHolds(s, t); }
      FinishKeeps(key, n, tx);
    } else {
      FinishKeeps(key, s, tx);
    }
  }

  /** Enabling, disabling and deleting need no lock: a save that read earlier still reads right or finds no row. */
  lemma SingleStatementKeeps(key: Place -> int, s: State, n: State, c: Call)
    requires StoreInv(key, s) && Does(s.configs, s.vault, n.configs, n.vault, c)
    requires n.log == s.log + [c] && n.txs == s.txs && n.locks == s.locks
    requires forall k :: k in n.configs ==> k in s.configs && n.configs[k].secretId == s.configs[k].secretId
    ensures StoreInv(key, n)
  {
    LoggedAgrees(s, n, c);
    forall t ensures ReadHolds(n, t) { assert ReadHolds(s, t); }
    forall t | PastLock(n, t) ensures key(n.txs[t].place) in n.locks && n.locks[key(n.txs[t].place)] == t {
      assert PastLock(s, t);
    }
  }

  lemma SwitchKeeps(key: Place -> int, s: State, k: Place, enabled: bool)
    requires StoreInv(key, s)
    ensures StoreInv(key, SetEnabledStep(s, k, enabled))
  {
    if k in s.configs {
      SwitchSwitches(s.configs, s.vault, k, enabled);
    } else {
      NothingThere(s.configs, s.vault, Switched(k, enabled));
    }
    SingleStatementKeeps(key, s, SetEnabledStep(s, k, enabled), Switched(k, enabled));
  }

  lemma DeleteKeeps(key: Place -> int, s: State, k: Place)
    requires StoreInv(key, s)
    ensures StoreInv(key, DeleteStep(s, k))
  {
    if k in s.configs { RemoveRemoves(s.configs, s.vault, k); } else { NothingThere(s.configs, s.vault, Removed(k)); }
    SingleStatementKeeps(key, s, DeleteStep(s, k), Removed(k));
  }

  lemma ProgramKeeps(key: Place -> int, s: State, step: Step)
    requires StoreInv(key, s) && Enabled(key, s, step) && (step.BeginSave? || step.TakeLock? || step.ReadExisting?)
    ensures StoreInv(key, Next(key, s, step))
  {
    var n := Next(key, s, step);
    if step.ReadExisting? { assert PastLock(s, step.tx); }
    forall t ensures ReadHolds(n, t) { assert ReadHolds(s, t); }
    forall t | PastLock(n, t) ensures key(n.txs[t].place) in n.locks && n.locks[key(n.txs[t].place)] == t {
      if t != step.tx { assert PastLock(s, t); }
    }
  }

  /** In every interleaving, rows and secrets are paired one to one, and every place holds what the calls that took
      effect there say it should hold. */
  lemma {:induction false} StoreFollowsTheCalls(key: Place -> int, ss: seq<State>, steps: seq<Step>, i: nat)
    requires IsRun(key, ss, steps) && i < |ss|
    ensures StoreInv(key, ss[i])
  {
    if i > 0 {
      StoreFollowsTheCalls(key, ss, steps, i - 1);
      var s, step := ss[i - 1], steps[i - 1];
      match step
      case CommitSave(tx, id) => CommitSaveKeeps(key, s, tx, id);
      case SetEnabled(k, b) => SwitchKeeps(key, s, k, b);
      case Delete(k) => DeleteKeeps(key, s, k);
      case Abort(tx) => FinishKeeps(key, s, tx);
      case _ => ProgramKeeps(key, s, step);
    }
  }

  /** The resolver returns a credential iff, by the calls about this very organization and provider, one is stored and
      enabled, and then it is the last one stored. */
  lemma ResolverReturnsTheLastCredential(key: Place -> int, ss: seq<State>, steps: seq<Step>, i: nat, k: Place)
    requires IsRun(key, ss, steps) && i < |ss|
    ensures var remembered := Recall(Only(ss[i].log, k), k);
            Resolve(ss[i].configs, ss[i].vault, k) ==
            if !Supported(k.1) then InvalidProvider
            else if remembered.Some? && remembered.value.enabled then Available(remembered.value.credential)
            else Unavailable
  {
    StoreFollowsTheCalls(key, ss, steps, i);
    OtherPlacesDoNotMatter(ss[i].log, k);
    ResolveIsLookup(ss[i], k);
  }

  predicate Concerns(s: State, step: Step, o: Org) {
    match step
    case CommitSave(tx, _) => At(s, tx) && s.txs[tx].place.0 == o
    case SetEnabled(k, _) => k.0 == o
    case Delete(k) => k.0 == o
    case _ => false
  }

  /** No step of another organization changes what an organization resolves. */
  lemma OtherOrganizationsDoNotInterfere(key: Place -> int, ss: seq<State>, steps: seq<Step>, i: nat, o: Org,
                                         p: Provider)
    requires IsRun(key, ss, steps) && i < |steps| && !Concerns(ss[i], steps[i], o)
    ensures Resolve(ss[i + 1].configs, ss[i + 1].vault, (o, p)) == Resolve(ss[i].configs, ss[i].vault, (o, p))
  {
    StoreFollowsTheCalls(key, ss, steps, i);
    StoreFollowsTheCalls(key, ss, steps, i + 1);
    var k := (o, p);
    LogGrowsByItsOwn(key, ss[i], steps[i], k);
    ResolveIsLookup(ss[i], k);
    ResolveIsLookup(ss[i + 1], k);
  }

  lemma ResolveIsLookup(s: State, k: Place)
    requires Agrees(s)
    ensures Resolve(s.configs, s.vault, k) ==
            if !Supported(k.1) then InvalidProvider
            else if Recall(s.log, k).Some? && Recall(s.log, k).value.enabled
            then Available(Recall(s.log, k).value.credential)
            else Unavailable
  {
    assert Lookup(s.configs, s.vault, k) == Recall(s.log, k);
  }

  lemma LogGrowsByItsOwn(key: Place -> int, s: State, step: Step, k: Place)
    requires Enabled(key, s, step) && !Concerns(s, step, k.0)
    ensures Recall(Next(key, s, step).log, k) == Recall(s.log, k)
  {
    var n := Next(key, s, step);
    if n.log != s.log {
      RecallOneMore(s.log, n.log[|s.log|], k);
      assert n.log == s.log + [n.log[|s.log|]];
    }
  }

  /** A committing save never meets a row it did not expect; replacing keeps the row and its secret's id, and a
      first save enables the row. */
  lemma SavingReplacesInPlace(key: Place -> int, ss: seq<State>, steps: seq<Step>, i: nat)
    requires IsRun(key, ss, steps) && i < |steps| && steps[i].CommitSave?
    ensures Enabled(key, ss[i], steps[i])
    ensures var p := ss[i].txs[steps[i].tx]; var s, n := ss[i], ss[i + 1];
            if p.place in s.configs then
              && n.configs == s.configs && p.at.existing == Some(s.configs[p.place].secretId)
              && n.vault == s.vault[s.configs[p.place].secretId := p.raw]
            else if p.at.existing.None? then
              n.configs == s.configs[p.place := Config(true, steps[i].newId)]
              && n.vault == s.vault[steps[i].newId := p.raw]
            else n.configs == s.configs && n.vault == s.vault && n.log == s.log
  {
    StoreFollowsTheCalls(key, ss, steps, i);
    assert ReadHolds(ss[i], steps[i].tx);
  }

  /** A save that reads an existing row, then sees it removed, as its steps run from any state. */
  function SaveAcrossRemoval(key: Place -> int, s: State, tx: TxId, k: Place, raw: Credential, newId: SecretId): State
    requires tx !in s.txs && key(k) !in s.locks && Supported(k.1) && newId !in s.vault
  {
    var locked := Next(key, Next(key, s, BeginSave(tx, k, raw)), TakeLock(tx));
    var removed := Next(key, Next(key, locked, ReadExisting(tx)), Delete(k));
    Next(key, removed, CommitSave(tx, newId))
  }

  /** The removal takes no lock, so it can overtake a replacing save, which is then rolled back: nothing is
      configured. */
  lemma RemovalOvertakesSave(key: Place -> int, s: State, tx: TxId, k: Place, raw: Credential, newId: SecretId)
    requires tx !in s.txs && key(k) !in s.locks && Supported(k.1) && newId !in s.vault && k in s.configs
    ensures var n := SaveAcrossRemoval(key, s, tx, k, raw, newId);
            && n.log == s.log + [Removed(k)] && tx !in n.txs
            && Resolve(n.configs, n.vault, k) == Unavailable
  {
  }

  // ------------------------------------------------------------------ calls --

  /** The rows after a save: a first one adds its row, enabled; a later one leaves the rows alone. */
  function SavedConfigs(configs: map<Place, Config>, k: Place, newId: SecretId): map<Place, Config> {
    if k in configs then configs else configs[k := Config(true, newId)]
  }

  /** The secrets after a save: the place's own secret carries the new value. */
  function SavedVault(configs: map<Place, Config>, vault: map<SecretId, Credential>, k: Place, raw: Credential,
                      newId: SecretId): map<SecretId, Credential> {
    if k in configs then Rewritten(vault, configs[k].secretId, raw) else vault[newId := raw]
  }

  /** A save's steps with nothing between them. */
  function PlaySave(key: Place -> int, s: State, tx: TxId, k: Place, raw: Credential, newId: SecretId): State
    requires tx !in s.txs && key(k) !in s.locks && Supported(k.1) && newId !in s.vault
  {
    var locked := Next(key, Next(key, s, BeginSave(tx, k, raw)), TakeLock(tx));
    Next(key, Next(key, locked, ReadExisting(tx)), CommitSave(tx, newId))
  }

  function AboutToCommit(s: State, k: Place, lock: int, tx: TxId, raw: Credential): State {
    var existing := if k in s.configs then Some(s.configs[k].secretId) else None;
    s.(txs := s.txs[tx := Saving(k, raw, Seen(existing))], locks := s.locks[lock := tx])
  }

  lemma ReadsArrive(key: Place -> int, s: State, tx: TxId, k: Place, raw: Credential)
    requires tx !in s.txs && key(k) !in s.locks && Supported(k.1)
    ensures var locked := Next(key, Next(key, s, BeginSave(tx, k, raw)), TakeLock(tx));
            Next(key, locked, ReadExisting(tx)) == AboutToCommit(s, k, key(k), tx, raw)
  {
    var locked := Next(key, Next(key, s, BeginSave(tx, k, raw)), TakeLock(tx));
    assert Next(key, locked, ReadExisting(tx)).txs == AboutToCommit(s, k, key(k), tx, raw).txs;
  }

  lemma FinishRestores(s: State, n: State, lock: int, tx: TxId)
    requires tx !in s.txs && n.txs - {tx} == s.txs && lock !in s.locks && n.locks == s.locks[lock := tx]
    requires forall j :: j in s.locks ==> s.locks[j] != tx
    ensures Finish(n, tx) == n.(txs := s.txs, locks := s.locks)
  {
    var f := Finish(n, tx);
    assert f.locks.Keys == s.locks.Keys by {
      forall j: int ensures j in f.locks <==> j in s.locks {
        if j in s.locks { assert n.locks[j] != tx; }
      }
    }
    assert f.locks == s.locks;
  }

  /** Run without interruption, the saving transaction leaves what the call leaves, and no lock. */
  lemma UninterruptedSaveIsTheCall(key: Place -> int, s: State, tx: TxId, k: Place, raw: Credential, newId: SecretId)
    requires tx !in s.txs && key(k) !in s.locks && Supported(k.1) && newId !in s.vault
    requires forall j :: j in s.locks ==> s.locks[j] != tx
    ensures PlaySave(key, s, tx, k, raw, newId) ==
            s.(configs := SavedConfigs(s.configs, k, newId), vault := SavedVault(s.configs, s.vault, k, raw, newId),
               log := s.log + [Stored(k, raw)])
  {
    ReadsArrive(key, s, tx, k, raw);
    var n := AboutToCommit(s, k, key(k), tx, raw)
             .(configs := SavedConfigs(s.configs, k, newId), vault := SavedVault(s.configs, s.vault, k, raw, newId),
               log := s.log + [Stored(k, raw)]);
    assert n.txs - {tx} == s.txs;
    FinishRestores(s, n, key(k), tx);
  }

  class ProviderStore {
    var configs: map<Place, Config>
    var vault: map<SecretId, Credential>

    ghost predicate Valid()
      reads this
    {
      Paired(configs, vault)
    }

    /** What the store holds for a place. */
    ghost function Holds(k: Place): Option<Entry>
      reads this
    {
      Lookup(configs, vault, k)
    }

    constructor ()
      ensures Valid() && forall k: Place :: Holds(k) == None
    {
      configs, vault := map[], map[];
    }

    method SetProviderCredential(k: Place, raw: Credential, newId: SecretId) returns (known: bool)
      requires Valid() && newId !in vault
      modifies this
      ensures Valid() && known == Supported(k.1)
      ensures known ==> Does(old(configs), old(vault), configs, vault, Stored(k, raw))
      ensures known ==> configs == SavedConfigs(old(configs), k, newId)
      ensures known ==> vault == SavedVault(old(configs), old(vault), k, raw, newId)
      ensures !known ==> vault == old(vault)
      ensures !known || k in old(configs) ==> configs == old(configs)
    {
      if !Supported(k.1) { return false; }
      if k !in configs {
        CreateStores(configs, vault, k, newId, raw);
        configs, vault := configs[k := Config(true, newId)], vault[newId := raw];
      } else {
        ReplaceStores(configs, vault, k, raw);
        vault := Rewritten(vault, configs[k].secretId, raw);
      }
      known := true;
    }

    method SetProviderEnabled(k: Place, enabled: bool) returns (r: Option<bool>)
      requires Valid()
      modifies this`configs
      ensures Valid()
      ensures r.None? <==> !Supported(k.1)
      ensures r.Some? ==> r.value == old(Holds(k)).Some?
      ensures r.Some? ==> Does(old(configs), vault, configs, vault, Switched(k, enabled))
      ensures r != Some(true) ==> configs == old(configs)
    {
      if !Supported(k.1) { return None; }
      if k !in configs { return Some(false); }
      SwitchSwitches(configs, vault, k, enabled);
      configs := configs[k := configs[k].(enabled := enabled)];
      r := Some(true);
    }

    method DeleteProviderConfig(k: Place) returns (r: Option<bool>)
      requires Valid()
      modifies this
      ensures Valid()
      ensures r.None? <==> !Supported(k.1)
      ensures r.Some? ==> r.value == old(Holds(k)).Some?
      ensures r.Some? ==> Does(old(configs), old(vault), configs, vault, Removed(k))
      ensures r != Some(true) ==> configs == old(configs) && vault == old(vault)
    {
      if !Supported(k.1) { return None; }
      if k !in configs { return Some(false); }
      RemoveRemoves(configs, vault, k);
      configs, vault := configs - {k}, vault - {configs[k].secretId};
      r := Some(true);
    }

    method ResolveProviderCredential(k: Place) returns (r: Resolved)
      requires Valid()
      ensures r == InvalidProvider <==> !Supported(k.1)
      ensures Supported(k.1) ==>
                r == if Holds(k).Some? && Holds(k).value.enabled then Available(Holds(k).value.credential)
                     else Unavailable
    {
      if !Supported(k.1) { return InvalidProvider; }
      if k !in configs || !configs[k].enabled { return Unavailable; }
      r := if configs[k].secretId in vault then Available(vault[configs[k].secretId]) else Unavailable;
    }
  }
}

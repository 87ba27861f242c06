/**
 Resolution of a saved Host into the facts one SSH connection uses, and the revision token that
 fences those facts. The persistence layer is a set of maps; a missing key is the not-found error.
 */
module ConnectionProfile {
  import opened Basics
  import opened RevisionToken

  const MAX_JUMPS := 5

  datatype ProfileError =
    | InvalidTarget
    | StaleHost
    | CredentialUnavailable
    | LoginAutomationConfirmationRequired
    | UnsupportedConfiguration

  datatype CredentialKind = Password | PrivateKey | KeyboardInteractive | SshAgent

  datatype CredentialRecord = CredentialRecord(id: Id, version: nat, kind: CredentialKind, identityId: Id)

  datatype ConnectionCredential = Stored(record: CredentialRecord) | Transient(id: Id) {
    function Revision(): CredentialRevision {
      match this
      case Stored(record) => CredentialRevision(record.id, record.version)
      case Transient(id) => CredentialRevision(id, 0)
    }

    predicate RequiresVault() {
      Stored? && (record.kind.Password? || record.kind.PrivateKey?)
    }
  }

  datatype RouteIngress = DirectTcp | HttpConnectProxy(auth: Option<Id>) | Socks5Proxy(auth: Option<Id>)

  datatype LoginAutomation = LoginAutomation(
    enabled: bool, revision: nat, confirmed: Option<nat>, stepsUsable: bool)

  datatype Snapshot = Snapshot(
    hostId: Id,
    hostVersion: nat,
    hostUsername: Option<string>,
    identityUsername: Option<string>,
    credentials: seq<CredentialRecord>,
    route: nat,
    ingress: RouteIngress,
    jumpIds: seq<Id>,
    authentication: nat,
    algorithm: nat,
    algorithmSupported: bool,
    heartbeat: nat,
    configuredLogin: nat,
    automation: LoginAutomation,
    monitoring: nat)

  datatype Store = Store(
    snapshots: map<Id, Snapshot>,
    ready: map<Id, CredentialRecord>,
    identities: map<Id, Option<string>>,
    transient: set<Id>)

  datatype ProxyAuthentication = ProxyAuthentication(username: string, credential: CredentialRecord)

  datatype ResolvedJump = ResolvedJump(hostId: Id, username: string, credentials: seq<ConnectionCredential>)

  datatype Connection = Connection(
    username: string,
    proxy: Option<ProxyAuthentication>,
    jumps: seq<ResolvedJump>,
    credentials: seq<ConnectionCredential>,
    token: string)

  datatype Fenced = Fenced(connection: Connection, token: string)

  type Resolution<T> = Result<T, ProfileError>

  // ---------------------------------------------------------------- source facts

  predicate IsSpace(c: char) {
    c == ' ' || '\t' <= c <= '\r'
  }

  function TrimStart(s: string): string {
    if s != [] && IsSpace(s[0]) then TrimStart(s[1..]) else s
  }

  function TrimEnd(s: string): string {
    if s != [] && IsSpace(s[|s| - 1]) then TrimEnd(s[..|s| - 1]) else s
  }

  function RequiredUsername(value: Option<string>): Resolution<string> {
    if value.None? then Failure(InvalidTarget)
    else
      var name := TrimEnd(TrimStart(value.value));
      if name == [] then Failure(InvalidTarget) else Success(name)
  }

  function EffectiveUsername(s: Snapshot): Resolution<string> {
    RequiredUsername(if s.hostUsername.Some? then s.hostUsername else s.identityUsername)
  }

  function Revisions(cs: seq<ConnectionCredential>): seq<CredentialRevision> {
    seq(|cs|, i requires 0 <= i < |cs| => cs[i].Revision())
  }

  function StoredCredentials(records: seq<CredentialRecord>): Resolution<seq<ConnectionCredential>> {
    if records == [] then Failure(CredentialUnavailable)
    else Success(seq(|records|, i requires 0 <= i < |records| => Stored(records[i])))
  }

  function FindCredential(records: seq<CredentialRecord>, id: Id): Option<CredentialRecord> {
    if records == [] then None
    else if records[0].id == id then Some(records[0])
    else FindCredential(records[1..], id)
  }

  function HostCredentials(store: Store, records: seq<CredentialRecord>, requested: Option<Id>)
    : Resolution<seq<ConnectionCredential>>
  {
    if requested.None? then StoredCredentials(records)
    else if FindCredential(records, requested.value).Some? then
      Success([Stored(FindCredential(records, requested.value).value)])
    else if requested.value in store.transient then Success([Transient(requested.value)])
    else Failure(CredentialUnavailable)
  }

  function ProxyCredentialOf(store: Store, ingress: RouteIngress): Resolution<Option<ProxyAuthentication>> {
    if ingress.DirectTcp? || ingress.auth.None? then Success(None)
    else
      var id := ingress.auth.value;
      if id !in store.ready then Failure(StaleHost)
      else
        var credential := store.ready[id];
        if !credential.kind.Password? then Failure(CredentialUnavailable)
        else if credential.identityId !in store.identities then Failure(StaleHost)
        else
          var username :- RequiredUsername(store.identities[credential.identityId]);
          Success(Some(ProxyAuthentication(username, credential)))
  }

  function IngressRevisionOf(proxy: Option<ProxyAuthentication>): IngressRevision {
    match proxy
    case None => NoProxyCredential
    case Some(p) => ProxyCredential(CredentialRevision(p.credential.id, p.credential.version), p.username)
  }

  /** No jump chain may be longer than five, repeat a Host or lead through the target itself. */
  predicate AllowedJumps(target: Id, jumpIds: seq<Id>) {
    var unique := set id | id in jumpIds;
    |jumpIds| <= MAX_JUMPS && |unique| == |jumpIds| && target !in jumpIds
  }

  /** A hop owns no route of its own; its chain position comes from the target. */
  function ResolveJump(store: Store, id: Id): Resolution<ResolvedJump> {
    if id !in store.snapshots then Failure(StaleHost)
    else
      var s := store.snapshots[id];
      if !s.ingress.DirectTcp? || s.jumpIds != [] then Failure(UnsupportedConfiguration)
      else
        var username :- EffectiveUsername(s);
        var credentials :- StoredCredentials(s.credentials);
        if !s.algorithmSupported then Failure(UnsupportedConfiguration)
        else Success(ResolvedJump(s.hostId, username, credentials))
  }

  function JumpRevisionOf(s: Snapshot, jump: ResolvedJump): JumpRevision {
    JumpRevision(s.hostId, s.hostVersion, jump.username, s.authentication, s.algorithm, s.route,
                 Revisions(jump.credentials))
  }

  /** Hop `i` fails with `error`, and no hop before it fails. */
  predicate FailsFirst(store: Store, ids: seq<Id>, i: nat, error: ProfileError)
    requires i < |ids|
  {
    && ResolveJump(store, ids[i]) == Failure(error)
    && forall j | 0 <= j < i :: ResolveJump(store, ids[j]).Success?
  }

  function ResolveJumps(store: Store, ids: seq<Id>): (r: Resolution<seq<ResolvedJump>>)
    ensures r.Success? ==> |r.value| == |ids|
    ensures r.Success? <==> forall id | id in ids :: ResolveJump(store, id).Success?
    ensures r.Success? ==> forall i | 0 <= i < |ids| :: Success(r.value[i]) == ResolveJump(store, ids[i])
  {
    if ids == [] then Success([])
    else
      var first :- ResolveJump(store, ids[0]);
      var rest :- ResolveJumps(store, ids[1..]);
      Success([first] + rest)
  }

  /** The error of a chain is that of the first hop that fails. */
  lemma {:induction false} FirstFailureEndsIt(store: Store, ids: seq<Id>) returns (i: nat)
    requires ResolveJumps(store, ids).Failure?
    ensures i < |ids| && FailsFirst(store, ids, i, ResolveJumps(store, ids).error)
  {
    if ResolveJump(store, ids[0]).Failure? {
      i := 0;
    } else {
      var k := FirstFailureEndsIt(store, ids[1..]);
      i := k + 1;
      assert forall j | 0 < j <= k :: ids[1..][j - 1] == ids[j];
    }
  }

  function JumpRevisions(store: Store, ids: seq<Id>, jumps: seq<ResolvedJump>): seq<JumpRevision>
    requires |jumps| == |ids| && forall id | id in ids :: id in store.snapshots
  {
    seq(|ids|, i requires 0 <= i < |ids| => JumpRevisionOf(store.snapshots[ids[i]], jumps[i]))
  }

  /** Every source revision the connection was resolved from. */
  function Sources(store: Store, s: Snapshot, c: Connection): BaseRevision
    requires |c.jumps| == |s.jumpIds| && forall id | id in s.jumpIds :: id in store.snapshots
  {
    BaseRevision(s.hostId, s.hostVersion, c.username, s.route, s.authentication, s.algorithm,
                 IngressRevisionOf(c.proxy), JumpRevisions(store, s.jumpIds, c.jumps),
                 Revisions(c.credentials))
  }

  // ---------------------------------------------------------------- resolvers

  function ResolveBase(store: Store, s: Snapshot, credentials: seq<ConnectionCredential>)
    : (r: Resolution<Connection>)
    ensures r.Success? ==> |r.value.jumps| == |s.jumpIds| && forall id | id in s.jumpIds :: id in store.snapshots
  {
    var username :- EffectiveUsername(s);
    if !s.algorithmSupported then Failure(UnsupportedConfiguration)
    else
      var proxy :- ProxyCredentialOf(store, s.ingress);
      if !AllowedJumps(s.hostId, s.jumpIds) then Failure(UnsupportedConfiguration)
      else
        var jumps :- ResolveJumps(store, s.jumpIds);
        assert forall id | id in s.jumpIds :: ResolveJump(store, id).Success?;
        var bare := Connection(username, proxy, jumps, credentials, "");
        Success(bare.(token := BaseToken(Sources(store, s, bare))))
  }

  function ResolveTerminal(store: Store, s: Snapshot, requested: Option<Id>): (r: Resolution<Fenced>)
    ensures r.Success? ==> |r.value.connection.jumps| == |s.jumpIds|
                           && forall id | id in s.jumpIds :: id in store.snapshots
  {
    if s.automation.enabled && s.automation.confirmed != Some(s.automation.revision) then
      Failure(LoginAutomationConfirmationRequired)
    else if s.automation.enabled && !s.automation.stepsUsable then Failure(UnsupportedConfiguration)
    else
      var credentials :- HostCredentials(store, s.credentials, requested);
      var c :- ResolveBase(store, s, credentials);
      Success(Fenced(c, TerminalToken(TerminalRevision(Sources(store, s, c), s.heartbeat, s.configuredLogin))))
  }

  predicate SupportsBackgroundMetrics(credentials: seq<ConnectionCredential>) {
    forall i | 0 <= i < |credentials| :: credentials[i].RequiresVault()
  }

  function ResolveMetrics(store: Store, s: Snapshot): (r: Resolution<Fenced>)
    ensures r.Success? ==> |r.value.connection.jumps| == |s.jumpIds|
                           && forall id | id in s.jumpIds :: id in store.snapshots
  {
    var credentials :- StoredCredentials(s.credentials);
    var c :- ResolveBase(store, s, credentials);
    if SupportsBackgroundMetrics(c.credentials)
       && forall i | 0 <= i < |c.jumps| :: SupportsBackgroundMetrics(c.jumps[i].credentials)
    then Success(Fenced(c, MetricsToken(MetricsRevision(Sources(store, s, c), s.monitoring))))
    else Failure(UnsupportedConfiguration)
  }

  // ---------------------------------------------------------------- equal tokens, equal sources

  /**
   Two base resolutions, possibly of different Hosts in different stores, that carry one token
   used the same Host revision, effective user name, plan revisions, proxy credential and user,
   ordered hops with their credentials, and credential list.
   */
  lemma EqualBaseTokens(store: Store, s: Snapshot, credentials: seq<ConnectionCredential>,
                        store': Store, s': Snapshot, credentials': seq<ConnectionCredential>)
    requires ResolveBase(store, s, credentials).Success?
    requires ResolveBase(store', s', credentials').Success?
    requires ResolveBase(store, s, credentials).value.token == ResolveBase(store', s', credentials').value.token
    ensures var c, c' := ResolveBase(store, s, credentials).value, ResolveBase(store', s', credentials').value;
            && Sources(store, s, c) == Sources(store', s', c')
            && EffectiveUsername(s) == EffectiveUsername(s')
            && Revisions(credentials) == Revisions(credentials')
            && SameHops(store, s.jumpIds, c.jumps, store', s'.jumpIds, c'.jumps)
  {
    var c, c' := ResolveBase(store, s, credentials).value, ResolveBase(store', s', credentials').value;
    BaseTokenIsInjective(Sources(store, s, c), Sources(store', s', c'));
    SameRevisionsSameHops(store, s.jumpIds, c.jumps, store', s'.jumpIds, c'.jumps);
  }

  ghost predicate SameHops(store: Store, ids: seq<Id>, jumps: seq<ResolvedJump>,
                           store': Store, ids': seq<Id>, jumps': seq<ResolvedJump>)
    requires |jumps| == |ids| && forall id | id in ids :: id in store.snapshots
    requires |jumps'| == |ids'| && forall id | id in ids' :: id in store'.snapshots
  {
    && |ids| == |ids'|
    && forall i | 0 <= i < |ids| ::
         && store.snapshots[ids[i]].hostId == store'.snapshots[ids'[i]].hostId
         && store.snapshots[ids[i]].hostVersion == store'.snapshots[ids'[i]].hostVersion
         && jumps[i].username == jumps'[i].username
         && Revisions(jumps[i].credentials) == Revisions(jumps'[i].credentials)
  }

  lemma SameRevisionsSameHops(store: Store, ids: seq<Id>, jumps: seq<ResolvedJump>,
                              store': Store, ids': seq<Id>, jumps': seq<ResolvedJump>)
    requires |jumps| == |ids| && forall id | id in ids :: id in store.snapshots
    requires |jumps'| == |ids'| && forall id | id in ids' :: id in store'.snapshots
    requires JumpRevisions(store, ids, jumps) == JumpRevisions(store', ids', jumps')
    ensures SameHops(store, ids, jumps, store', ids', jumps')
  {
    var r, r' := JumpRevisions(store, ids, jumps), JumpRevisions(store', ids', jumps');
    assert |r| == |ids| && |r'| == |ids'|;
    forall i | 0 <= i < |ids|
      ensures JumpRevisionOf(store.snapshots[ids[i]], jumps[i]) == JumpRevisionOf(store'.snapshots[ids'[i]], jumps'[i])
    {
      assert r[i] == r'[i];
    }
  }

  lemma TerminalFence(store: Store, s: Snapshot, requested: Option<Id>, f: Fenced)
    requires ResolveTerminal(store, s, requested) == Success(f)
    ensures |f.connection.jumps| == |s.jumpIds| && forall id | id in s.jumpIds :: id in store.snapshots
    ensures f.token == TerminalToken(TerminalRevision(Sources(store, s, f.connection), s.heartbeat, s.configuredLogin))
  {
  }

  lemma MetricsFence(store: Store, s: Snapshot, f: Fenced)
    requires ResolveMetrics(store, s) == Success(f)
    ensures |f.connection.jumps| == |s.jumpIds| && forall id | id in s.jumpIds :: id in store.snapshots
    ensures f.token == MetricsToken(MetricsRevision(Sources(store, s, f.connection), s.monitoring))
  {
  }

  lemma EqualTerminalTokens(store: Store, s: Snapshot, requested: Option<Id>, f: Fenced,
                            store': Store, s': Snapshot, requested': Option<Id>, f': Fenced)
    requires ResolveTerminal(store, s, requested) == Success(f)
    requires ResolveTerminal(store', s', requested') == Success(f')
    requires f.token == f'.token
    ensures Sources(store, s, f.connection) == Sources(store', s', f'.connection)
    ensures s.heartbeat == s'.heartbeat && s.configuredLogin == s'.configuredLogin
  {
    TerminalFence(store, s, requested, f);
    TerminalFence(store', s', requested', f');
    TerminalTokenIsInjective(
      TerminalRevision(Sources(store, s, f.connection), s.heartbeat, s.configuredLogin),
      TerminalRevision(Sources(store', s', f'.connection), s'.heartbeat, s'.configuredLogin));
  }

  lemma EqualMetricsTokens(store: Store, s: Snapshot, f: Fenced, store': Store, s': Snapshot, f': Fenced)
    requires ResolveMetrics(store, s) == Success(f)
    requires ResolveMetrics(store', s') == Success(f')
    requires f.token == f'.token
    ensures Sources(store, s, f.connection) == Sources(store', s', f'.connection)
    ensures s.monitoring == s'.monitoring
  {
    MetricsFence(store, s, f);
    MetricsFence(store', s', f');
    MetricsTokenIsInjective(MetricsRevision(Sources(store, s, f.connection), s.monitoring),
                            MetricsRevision(Sources(store', s', f'.connection), s'.monitoring));
  }

  // ---------------------------------------------------------------- jump chains and the Vault

  lemma {:induction false} DistinctByCount(ids: seq<Id>)
    ensures var unique := set id | id in ids;
            && |unique| <= |ids|
            && (|unique| == |ids| <==> forall i, j | 0 <= i < j < |ids| :: ids[i] != ids[j])
  {
    if ids != [] {
      var init, last := ids[..|ids| - 1], ids[|ids| - 1];
      DistinctByCount(init);
      UniqueThen(ids);
      RepeatsThen(ids);
    }
  }

  lemma UniqueThen(ids: seq<Id>)
    requires ids != []
    ensures var init, last := ids[..|ids| - 1], ids[|ids| - 1];
            |set id | id in ids| == |set id | id in init| + if last in init then 0 else 1
  {
    var init, last := ids[..|ids| - 1], ids[|ids| - 1];
    assert ids == init + [last];
    assert (set id | id in ids) == (set id | id in init) + {last};
  }

  lemma RepeatsThen(ids: seq<Id>)
    requires ids != []
    ensures var init, last := ids[..|ids| - 1], ids[|ids| - 1];
            (forall i, j | 0 <= i < j < |ids| :: ids[i] != ids[j])
            <==> (forall i, j | 0 <= i < j < |init| :: init[i] != init[j]) && last !in init
  {
    var n := |ids| - 1;
    assert forall i | 0 <= i < n :: ids[..n][i] == ids[i];
  }

  /** The counting test of the code accepts exactly the short simple chains that avoid the target. */
  lemma AllowedJumpsAreSimple(target: Id, ids: seq<Id>)
    ensures AllowedJumps(target, ids) <==>
              && |ids| <= MAX_JUMPS
              && (forall i, j | 0 <= i < j < |ids| :: ids[i] != ids[j])
              && (forall i | 0 <= i < |ids| :: ids[i] != target)
  {
    DistinctByCount(ids);
  }

  predicate CredentialsRequireVault(credentials: seq<ConnectionCredential>) {
    credentials != [] && forall i | 0 <= i < |credentials| :: credentials[i].RequiresVault()
  }

  predicate ConnectionRequiresVault(c: Connection) {
    || c.proxy.Some?
    || CredentialsRequireVault(c.credentials)
    || exists i | 0 <= i < |c.jumps| :: CredentialsRequireVault(c.jumps[i].credentials)
  }

  /** One credential chosen for every hop and for the target (last), none of them behind the Vault. */
  ghost predicate VaultFreePlan(c: Connection, plan: seq<ConnectionCredential>) {
    && c.proxy.None?
    && |plan| == |c.jumps| + 1
    && (forall i | 0 <= i < |c.jumps| :: plan[i] in c.jumps[i].credentials && !plan[i].RequiresVault())
    && plan[|c.jumps|] in c.credentials && !plan[|c.jumps|].RequiresVault()
  }

  ghost function VaultFreeChoice(credentials: seq<ConnectionCredential>): (c: ConnectionCredential)
    requires credentials != [] && !CredentialsRequireVault(credentials)
    ensures c in credentials && !c.RequiresVault()
  {
    var i :| 0 <= i < |credentials| && !credentials[i].RequiresVault();
    credentials[i]
  }

  /** With a credential at every stage, the Vault is required exactly when no route avoids it. */
  lemma VaultIsRequiredWhenNoPlanAvoidsIt(c: Connection)
    requires c.credentials != [] && forall i | 0 <= i < |c.jumps| :: c.jumps[i].credentials != []
    ensures !ConnectionRequiresVault(c) <==> exists plan :: VaultFreePlan(c, plan)
  {
    if !ConnectionRequiresVault(c) {
      var hops := seq(|c.jumps|, i requires 0 <= i < |c.jumps| => VaultFreeChoice(c.jumps[i].credentials));
      assert VaultFreePlan(c, hops + [VaultFreeChoice(c.credentials)]);
    }
  }
}

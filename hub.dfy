/**
 * The hub engine (index.js): construction with name validation and the
 * hub id, the server-name check, connection bookkeeping, record dispatch,
 * the peer handlers, the publish pipeline, the peer announcement loop, one
 * tick of the scheduled-event loop, and destroy.
 *
 * The TLS channel is not modelled: what it is asked to send is appended to
 * the `sent` trace. The event store is the value `db`, the certificate
 * manager its own object. The clock, the random draws, the abort signal's
 * timing and which peers accept a connection are parameters.
 */
module Hub {
  import opened Common
  import opened Subscribers
  import opened Spokes
  import opened Certificates
  import opened Events

  // ---------------------------------------------------------------------
  // The hub name and id.

  /** A character of `[a-z0-9\-\.]` under the case-insensitive flag. */
  predicate NameChar(c: char) {
    ('a' <= c <= 'z') || ('A' <= c <= 'Z') || ('0' <= c <= '9') || c == '-' || c == '.'
  }

  /** The constructor's guard on `config.NAME`: a non-empty string of name characters only. */
  function ValidName(name: Value): (b: bool)
    ensures b ==> name.Text? && name.s != []
    ensures name.Text? && |name.s| > 0 ==> (b <==> forall i :: 0 <= i < |name.s| ==> NameChar(name.s[i]))
  {
    name.Text? && |name.s| > 0 && AllNameChars(name.s)
  }

  function AllNameChars(s: string): (b: bool)
    ensures b <==> forall i :: 0 <= i < |s| ==> NameChar(s[i])
  {
    if s == [] then true
    else NameChar(s[0]) && AllNameChars(s[1..])
  }

  function UpperChar(c: char): char {
    if 'a' <= c <= 'z' then (c as int - 32) as char else c
  }

  /** `toUpperCase`, on the ASCII letters. */
  function Upper(s: string): (r: string)
    ensures |r| == |s|
    ensures forall i :: 0 <= i < |s| ==> r[i] == UpperChar(s[i])
  {
    if s == [] then [] else [UpperChar(s[0])] + Upper(s[1..])
  }

  /** The hub id: the generated id, a dot and the name, in upper case. */
  function HubId(generatedId: string, name: string): string {
    Upper(generatedId + "." + name)
  }

  /**
   * The hub id has no lower-case ASCII letter, upper-casing it again
   * changes nothing, and it is the upper-cased generated id and name
   * joined by the dot, which is why the name's characters survive.
   */
  lemma HubIdShape(generatedId: string, name: string)
    ensures var id := HubId(generatedId, name);
      && (forall i :: 0 <= i < |id| ==> !('a' <= id[i] <= 'z'))
      && Upper(id) == id
      && id == Upper(generatedId) + "." + Upper(name)
      && |id| == |generatedId| + 1 + |name|
  {
    var id := HubId(generatedId, name);
    var joined := generatedId + "." + name;
    assert Upper(generatedId) + "." + Upper(name) == id by {
      forall i | 0 <= i < |id| ensures (Upper(generatedId) + "." + Upper(name))[i] == id[i] {
        if i < |generatedId| {
          assert joined[i] == generatedId[i];
        } else if i == |generatedId| {
          assert joined[i] == '.';
        } else {
          assert joined[i] == name[i - |generatedId| - 1];
        }
      }
    }
  }

  /** The server-name check of `#serverSNICallback`: only the hub's own id is served. */
  function CheckHostname(hostname: string, hubId: string): (r: Result<(), HubError>)
    ensures r.Success? <==> hostname == hubId
    ensures r.Failure? ==> r.error == InvalidHostname
  {
    if hostname != hubId then Failure(InvalidHostname) else Success(())
  }

  /** A host name with a lower-case letter never passes the check against a hub id. */
  lemma LowerCaseHostnameRejected(hostname: string, generatedId: string, name: string, i: nat)
    requires i < |hostname| && 'a' <= hostname[i] <= 'z'
    ensures CheckHostname(hostname, HubId(generatedId, name)) == Failure(InvalidHostname)
  {
    HubIdShape(generatedId, name);
  }

  datatype HubError =
    | InvalidConfigName      // E_EVENTFLOW_HUB_INVALID_CONFIG_NAME
    | InvalidHostname        // E_EVENTFLOW_INVALID_HOSTNAME
    | CertificateFailure(cause: CertError)

  // ---------------------------------------------------------------------
  // Records.

  /** What `#onRecord` makes of a record: the first field selects the handler, the rest are its arguments. */
  datatype Message =
    | PeerOnline(ip: Value, port: Value)
    | Published(domain: Value, id: Value, name: Value, pid: Value)
    | Subscription(domain: Value, name: Value)
    | Unsubscription(domain: Value, name: Value)
    | Unrecognized

  const Tags: set<string> := {"online", "publish", "subscribe", "unsubscribe"}

  function Classify(record: seq<string>): (m: Message)
    ensures m.Unrecognized? <==> record == [] || record[0] !in Tags
    ensures m.PeerOnline? <==> record != [] && record[0] == "online"
    ensures m.Published? <==> record != [] && record[0] == "publish"
    ensures m.Subscription? <==> record != [] && record[0] == "subscribe"
    ensures m.Unsubscription? <==> record != [] && record[0] == "unsubscribe"
    // the arguments are the record's fields in order, undefined where the record is short
    ensures m.PeerOnline? ==> m.ip == Field(record, 1) && m.port == Field(record, 2)
    ensures m.Published? ==>
      m.domain == Field(record, 1) && m.id == Field(record, 2) && m.name == Field(record, 3) && m.pid == Field(record, 4)
    ensures m.Subscription? ==> m.domain == Field(record, 1) && m.name == Field(record, 2)
    ensures m.Unsubscription? ==> m.domain == Field(record, 1) && m.name == Field(record, 2)
  {
    if record == [] then Unrecognized
    else match record[0]
      case "online" => PeerOnline(Field(record, 1), Field(record, 2))
      case "publish" => Published(Field(record, 1), Field(record, 2), Field(record, 3), Field(record, 4))
      case "subscribe" => Subscription(Field(record, 1), Field(record, 2))
      case "unsubscribe" => Unsubscription(Field(record, 1), Field(record, 2))
      case _ => Unrecognized
  }

  /** Every argument is present. */
  predicate Complete(m: Message) {
    match m
    case PeerOnline(ip, port) => ip.Text? && port.Text?
    case Published(domain, id, name, pid) => domain.Text? && id.Text? && name.Text? && pid.Text?
    case Subscription(domain, name) => domain.Text? && name.Text?
    case Unsubscription(domain, name) => domain.Text? && name.Text?
    case Unrecognized => true
  }

  /** The record a peer or spoke sends for a message. */
  function Encode(m: Message): (record: seq<string>)
    requires Complete(m) && !m.Unrecognized?
  {
    match m
    case PeerOnline(ip, port) => ["online", ip.s, port.s]
    case Published(domain, id, name, pid) => ["publish", domain.s, id.s, name.s, pid.s]
    case Subscription(domain, name) => ["subscribe", domain.s, name.s]
    case Unsubscription(domain, name) => ["unsubscribe", domain.s, name.s]
  }

  /** Dispatch recovers every message from its record. */
  lemma ClassifyEncode(m: Message)
    requires Complete(m) && !m.Unrecognized?
    ensures Classify(Encode(m)) == m
  {
  }

  /** A publish record that omits the trailing pid still dispatches, with the pid undefined. */
  lemma PublishWithoutPid(domain: string, id: string, name: string)
    ensures Classify(["publish", domain, id, name]) == Published(Text(domain), Text(id), Text(name), Undefined)
  {
  }

  // ---------------------------------------------------------------------
  // The hub.

  /** A TLS connection from a spoke or a peer hub. */
  class Client {
    /** The UID of the peer certificate's subject. */
    const peerUid: Value
    var authorized: bool
    var id: Value
    var keepAlive: bool
    var resumed: bool

    constructor (peerUid: Value, authorized: bool)
      ensures this.peerUid == peerUid && this.authorized == authorized
      ensures id == Undefined && !keepAlive && !resumed
    {
      this.peerUid := peerUid;
      this.authorized := authorized;
      id := Undefined;
      keepAlive := false;
      resumed := false;
    }
  }

  datatype HubConfig = HubConfig(name: Value, externalIp: Value, externalPort: Value, certificates: Option<CertOptions>)

  /** What `tls.createSecureContext` receives: the CA, the chain leaf then intermediate, the key and its passphrase. */
  datatype SecureContext = SecureContext(ca: Certificate, chain: seq<Certificate>, key: PrivateKey, passphrase: string)

  function Ends(sockets: seq<Client>): (r: seq<Outgoing<Client>>)
    ensures |r| == |sockets|
    ensures forall i :: 0 <= i < |r| ==> r[i] == End(sockets[i])
  {
    if sockets == [] then [] else [End(sockets[0])] + Ends(sockets[1..])
  }

  /** The three certificates of the hub's chain are cached and unexpired. */
  predicate ChainServed(m: CertificatesManager, cache: map<string, Material>, now: int) {
    Serves(cache, RootId, now) && Serves(cache, m.intermediateUid, now) && Serves(cache, m.leafUid, now)
  }

  /** The root, intermediate and leaf ids are three different ids. */
  predicate Distinct(m: CertificatesManager) {
    RootId != m.intermediateUid && RootId != m.leafUid && m.intermediateUid != m.leafUid
  }

  /**
   * The hub's chain can be loaded from the cache `c` and the table `s`:
   * its three ids differ, and each certificate is served from the cache,
   * read unexpired from the table, or made afresh without a rival.
   */
  predicate ChainLoadable(m: CertificatesManager, c: map<string, Material>, s: CertStore, now: int) {
    && Distinct(m)
    && m.Obtainable(Tier.Root, c, s, now)
    && m.Obtainable(Tier.Intermediate, c, s, now)
    && m.Obtainable(Tier.Leaf, c, s, now)
  }

  /** The hub's chain is at hand: served from the cache, or loadable from the cache and the table. */
  predicate ChainAtHand(m: CertificatesManager, c: map<string, Material>, s: CertStore, now: int) {
    ChainServed(m, c, now) || ChainLoadable(m, c, s, now)
  }

  /** The certificates that sign the tier's are served from the cache `c`. */
  predicate IssuersServed(m: CertificatesManager, tier: Tier, c: map<string, Material>, now: int) {
    tier == Tier.Root || (Serves(c, RootId, now) && (tier == Tier.Leaf ==> Serves(c, m.intermediateUid, now)))
  }

  /** In a loadable chain whose issuers of `tier` are served, `tier` is loadable. */
  lemma ChainNext(m: CertificatesManager, tier: Tier, c: map<string, Material>, s: CertStore, now: int)
    requires ChainLoadable(m, c, s, now) && IssuersServed(m, tier, c, now)
    ensures m.Loadable(tier, c, s, now)
  {
    m.IssuedLoadable(tier, c, s, now);
  }

  /**
   * Loading a tier of a loadable chain, its issuers served, keeps the
   * chain loadable and serves the tier and its issuers: the tier is now
   * cached, its issuers stay, and the tiers it signs are left alone.
   */
  lemma LoadKeepsChain(m: CertificatesManager, tier: Tier, random: string -> seq<byte>, c: map<string, Material>, s: CertStore,
                       c': map<string, Material>, s': CertStore, r: Result<Material, CertError>, now: int)
    requires ChainLoadable(m, c, s, now) && IssuersServed(m, tier, c, now)
    requires m.Loaded(tier, now, random, c, s, c', s', r) && r.Success?
    ensures ChainLoadable(m, c', s', now) && IssuersServed(m, tier, c', now) && Serves(c', m.Id(tier), now)
  {
    assert m.Id(Tier.Intermediate) == m.intermediateUid && m.Id(Tier.Leaf) == m.leafUid;
    if tier == Tier.Root {
      m.ObtainableKept(Tier.Intermediate, c, s, c', s', m.Lineage(tier), now);
      m.ObtainableKept(Tier.Leaf, c, s, c', s', m.Lineage(tier), now);
    } else if tier == Tier.Intermediate {
      m.ObtainableKept(Tier.Leaf, c, s, c', s', m.Lineage(tier), now);
    }
  }

  /**
   * At bootstrap the cache is empty: when the table holds no row, no
   * rival row and no fault for the three distinct ids, the chain is
   * loadable, so it is made afresh.
   */
  lemma BootstrapLoadable(m: CertificatesManager, s: CertStore, now: int)
    requires Distinct(m)
    requires forall id :: id in {RootId, m.intermediateUid, m.leafUid} ==>
      id !in s.rows && id !in s.contenders && id !in s.faults
    ensures ChainLoadable(m, map[], s, now)
  {
    assert m.NeedsIssue(Tier.Root, map[], s, now) && m.Uncontested(s, Tier.Root);
    assert m.NeedsIssue(Tier.Intermediate, map[], s, now) && m.Uncontested(s, Tier.Intermediate);
    assert m.NeedsIssue(Tier.Leaf, map[], s, now) && m.Uncontested(s, Tier.Leaf);
  }

  class Hub {
    const hubId: string
    const config: HubConfig
    const spokes: SpokesManager<Client>
    const subscribers: SubscribersManager<Client>
    const certificates: CertificatesManager
    var db: EventStore
    /** The abort signal. */
    var aborted: bool
    var serverClosed: bool
    var dbClosed: bool
    /** Everything handed to the channel, in order. */
    var sent: seq<Outgoing<Client>>

    ghost predicate Valid()
      reads spokes, subscribers
    {
      spokes.Valid() && subscribers.Valid()
    }

    /**
     * The constructor: refuse an invalid name, derive the hub id from the
     * generated id, and build the certificate manager with the name as
     * intermediate UID and the hub id as leaf UID.
     */
    static method Create(config: HubConfig, generatedId: string, db: EventStore, store: CertStore)
      returns (r: Result<Hub, HubError>)
      ensures !ValidName(config.name) ==> r == Failure(InvalidConfigName)
      ensures ValidName(config.name) && !Truthy(Merge(config.certificates).encryptionKey) ==>
        r == Failure(CertificateFailure(MissingConfiguration))
      ensures r.Success? ==>
        && ValidName(config.name) && Truthy(Merge(config.certificates).encryptionKey)
        && fresh(r.value) && fresh(r.value.spokes) && fresh(r.value.subscribers) && fresh(r.value.certificates)
        && r.value.Valid()
        && r.value.hubId == HubId(generatedId, config.name.s)
        && r.value.certificates.intermediateUid == config.name.s && r.value.certificates.leafUid == r.value.hubId
        && r.value.certificates.cache == map[] && r.value.certificates.store == store
        && r.value.spokes.sockets == [] && r.value.subscribers.index == map[]
        && r.value.db == db && r.value.sent == [] && !r.value.aborted
    {
      if !ValidName(config.name) {
        return Failure(InvalidConfigName);
      }
      var hubId := HubId(generatedId, config.name.s);
      var certificates := CertificatesManager.Create(config.name.s, hubId, config.certificates, store);
      if certificates.Failure? {
        return Failure(CertificateFailure(certificates.error));
      }
      var hub := new Hub.Init(hubId, config, certificates.value, db);
      r := Success(hub);
    }

    constructor Init(hubId: string, config: HubConfig, certificates: CertificatesManager, db: EventStore)
      ensures Valid() && fresh(spokes) && fresh(subscribers)
      ensures this.hubId == hubId && this.config == config && this.certificates == certificates && this.db == db
      ensures spokes.sockets == [] && subscribers.index == map[] && sent == []
      ensures !aborted && !serverClosed && !dbClosed
    {
      this.hubId := hubId;
      this.config := config;
      this.certificates := certificates;
      this.db := db;
      spokes := new SpokesManager();
      subscribers := new SubscribersManager();
      aborted := false;
      serverClosed := false;
      dbClosed := false;
      sent := [];
    }

    /**
     * `destroy`: set the abort signal, close the server, end every spoke,
     * empty the subscriptions, mark the hub as quit, close the store.
     */
    method Destroy()
      requires Valid()
      modifies this, subscribers
      ensures Valid()
      ensures aborted && serverClosed && dbClosed
      ensures sent == old(sent) + Ends(spokes.sockets)
      ensures spokes.sockets == old(spokes.sockets) && subscribers.index == map[]
      ensures db == old(db).(quit := old(db).quit + {hubId})
    {
      aborted := true;
      serverClosed := true;
      var ended := spokes.Destroy();
      sent := sent + Ends(ended);
      subscribers.Destroy();
      db := db.(quit := db.quit + {hubId});
      dbClosed := true;
    }

    /** `#serverSNICallback`: the secure context for the hub's own id, from the three loaded certificates. */
    method ServerSniCallback(hostname: string, now: int, random: string -> seq<byte>) returns (r: Result<SecureContext, HubError>)
      modifies certificates
      ensures hostname != hubId ==>
        r == Failure(InvalidHostname) && certificates.cache == old(certificates.cache) && certificates.store == old(certificates.store)
      ensures KeepsFresh(old(certificates.cache), certificates.cache, now)
      // the hub's own name is answered whenever its chain is at hand
      ensures hostname == hubId && ChainAtHand(certificates, old(certificates.cache), old(certificates.store), now) ==>
        r.Success?
      ensures r.Failure? && hostname == hubId ==> r.error.CertificateFailure?
      ensures r.Success? ==>
        && hostname == hubId
        && RootId in certificates.cache && certificates.intermediateUid in certificates.cache
        && certificates.leafUid in certificates.cache
        && var root := certificates.cache[RootId];
           var ica := certificates.cache[certificates.intermediateUid];
           var leaf := certificates.cache[certificates.leafUid];
           r.value == SecureContext(root.cert, [leaf.cert, ica.cert], leaf.key, leaf.pass)
    {
      var checked := CheckHostname(hostname, hubId);
      if checked.Failure? {
        return Failure(checked.error);
      }
      ghost var loadable := ChainLoadable(certificates, certificates.cache, certificates.store, now);
      if loadable {
        ChainNext(certificates, Tier.Root, certificates.cache, certificates.store, now);
      }
      var root := certificates.Root(now, random);
      if root.Failure? {
        return Failure(CertificateFailure(root.error));
      }
      if loadable {
        LoadKeepsChain(certificates, Tier.Root, random, old(certificates.cache), old(certificates.store),
                       certificates.cache, certificates.store, root, now);
        ChainNext(certificates, Tier.Intermediate, certificates.cache, certificates.store, now);
      }
      ghost var c1, s1 := certificates.cache, certificates.store;
      var ica := certificates.Intermediate(now, random);
      if ica.Failure? {
        return Failure(CertificateFailure(ica.error));
      }
      if loadable {
        LoadKeepsChain(certificates, Tier.Intermediate, random, c1, s1, certificates.cache, certificates.store, ica, now);
        ChainNext(certificates, Tier.Leaf, certificates.cache, certificates.store, now);
      }
      var leaf := certificates.Leaf(now, random);
      if leaf.Failure? {
        return Failure(CertificateFailure(leaf.error));
      }
      r := Success(SecureContext(root.value.cert, [leaf.value.cert, ica.value.cert], leaf.value.key, leaf.value.pass));
    }

    /**
     * `#onClientConnection`: a client whose authorization failed is
     * rejected and left out of the spokes; any other client is registered,
     * takes its certificate's UID as id, and is kept alive and resumed.
     */
    method OnClientConnection(client: Client) returns (accepted: bool)
      requires Valid()
      modifies client, spokes
      ensures Valid()
      ensures accepted == old(client.authorized)
      ensures !accepted ==>
        && spokes.sockets == old(spokes.sockets) && !client.authorized
        && client.id == old(client.id) && client.keepAlive == old(client.keepAlive) && client.resumed == old(client.resumed)
      ensures accepted ==>
        && spokes.sockets == Inserted(old(spokes.sockets), client)
        && client.id == client.peerUid && client.authorized && client.keepAlive && client.resumed
    {
      if !client.authorized {
        client.authorized := false;
        return false;
      }
      spokes.Add(client);
      client.id := client.peerUid;
      client.authorized := true;
      client.keepAlive := true;
      client.resumed := true;
      accepted := true;
    }

    /** `#onClientDisconnected`: the socket leaves the spokes and every subscription. */
    method OnClientDisconnected(client: Client)
      requires Valid()
      modifies spokes, subscribers
      ensures Valid()
      ensures spokes.sockets == Remove(old(spokes.sockets), client)
      ensures subscribers.index == WithoutSocket(old(subscribers.index), client)
    {
      spokes.Delete(client);
      subscribers.DeleteBySocket(client);
    }

    /**
     * `#onRecord`: route the record by its first field; an unrecognized
     * record changes nothing. The result is the failure a publish record's
     * handler ends with, if any.
     */
    method OnRecord(record: seq<string>, client: Client) returns (failure: Option<DbError>)
      requires Valid()
      modifies this, subscribers
      ensures Valid()
      ensures match Classify(record)
        case PeerOnline(ip, port) =>
          failure.None? && db == old(db) && subscribers.index == old(subscribers.index)
          && sent == old(sent) + OnlineBroadcast(client.id, ip, port, spokes.sockets)
        case Published(domain, id, name, pid) =>
          var p := Publish(old(db), old(subscribers.index), hubId, domain, id, name, pid);
          && subscribers.index == old(subscribers.index) && db == p.db && sent == old(sent) + p.out
          && failure == (if p.result.Failure? then Some(p.result.error) else None)
        case Subscription(domain, name) =>
          failure.None? && db == old(db) && sent == old(sent)
          && subscribers.index == Added(old(subscribers.index), client, domain, name)
        case Unsubscription(domain, name) =>
          failure.None? && db == old(db) && sent == old(sent)
          && subscribers.index == WithoutSubscription(old(subscribers.index), client, domain, name)
        case Unrecognized =>
          failure.None? && db == old(db) && sent == old(sent) && subscribers.index == old(subscribers.index)
      ensures aborted == old(aborted) && serverClosed == old(serverClosed) && dbClosed == old(dbClosed)
    {
      failure := None;
      match Classify(record)
      case PeerOnline(ip, port) =>
        OnPeerHubOnlineMessage(client, ip, port);
      case Published(domain, id, name, pid) =>
        var consumed := AttemptToConsumeAndBroadcast(domain, id, name, pid);
        if consumed.Failure? {
          failure := Some(consumed.error);
        }
      case Subscription(domain, name) =>
        subscribers.Add(client, domain, name);
      case Unsubscription(domain, name) =>
        subscribers.DeleteBySocketAndDomainAndName(client, domain, name);
      case Unrecognized =>
    }

    /**
     * `#onPeerHubOnlineMessage`: tell every spoke that a peer hub is
     * online, unless the record came over a connection to this very hub.
     */
    method OnPeerHubOnlineMessage(peerHub: Client, ip: Value, port: Value)
      requires Valid()
      modifies this
      ensures sent == old(sent) + OnlineBroadcast(peerHub.id, ip, port, spokes.sockets)
      ensures db == old(db) && aborted == old(aborted) && serverClosed == old(serverClosed) && dbClosed == old(dbClosed)
    {
      if peerHub.id == Text(hubId) {
        return;
      }
      var sockets := spokes.All();
      sent := sent + [Broadcast(sockets, OnlineRecord(ip, port))];
    }

    /** The broadcast an online record leads to: none when it came from this hub itself. */
    function OnlineBroadcast(from: Value, ip: Value, port: Value, sockets: seq<Client>): (out: seq<Outgoing<Client>>)
      ensures from == Text(hubId) <==> out == []
      ensures out != [] ==> out == [Broadcast(sockets, [Text("online"), ip, port])]
    {
      if from == Text(hubId) then [] else [Broadcast(sockets, OnlineRecord(ip, port))]
    }

    /**
     * `#attemptToConsumeAndBroadcastPublishedMessage` with
     * `#broadcastPublishedMessage`: the publish pipeline, run against the
     * current subscriptions.
     */
    method AttemptToConsumeAndBroadcast(domain: Value, id: Value, name: Value, pid: Value) returns (r: Result<bool, DbError>)
      requires Valid()
      modifies this
      ensures var p := Publish(old(db), subscribers.index, hubId, domain, id, name, pid);
        db == p.db && sent == old(sent) + p.out && r == p.result
      ensures aborted == old(aborted) && serverClosed == old(serverClosed) && dbClosed == old(dbClosed)
    {
      var claim := Consume(db, Key(domain, id), hubId);
      db := claim.0;
      r := claim.1;
      if r == Success(true) {
        BroadcastPublishedMessage(domain, id, name, pid);
      }
    }

    method BroadcastPublishedMessage(domain: Value, id: Value, name: Value, pid: Value)
      requires Valid()
      modifies this
      ensures var sockets := Subscribed(subscribers.index, domain, name);
        && (sockets == [] ==> db == Orphaned(old(db), Key(domain, id)) && sent == old(sent))
        && (sockets != [] ==> db == old(db) && sent == old(sent) + [Broadcast(sockets, PublishRecord(domain, id, name, pid))])
      ensures aborted == old(aborted) && serverClosed == old(serverClosed) && dbClosed == old(dbClosed)
    {
      var sockets := subscribers.Get(domain, name);
      if |sockets| == 0 {
        db := Orphaned(db, Key(domain, id));
      } else {
        sent := sent + [Broadcast(sockets, PublishRecord(domain, id, name, pid))];
      }
    }

    /**
     * `#broadcastHubOnlineToPeerHubs`: announce this hub to every online
     * peer except itself, skipping all once the abort signal is set; a
     * failed announcement is only logged. The signal is set from check
     * `abortAt` on; `reachable` holds the peers a connection succeeds to.
     */
    method BroadcastHubOnlineToPeerHubs(hubs: seq<HubRecord>, abortAt: nat, reachable: set<string>, now: int,
                                        random: string -> seq<byte>)
      returns (outcomes: seq<Announcement>)
      requires Valid()
      modifies this, certificates
      ensures Valid()
      ensures |outcomes| == |hubs|
      ensures forall i :: 0 <= i < |hubs| ==>
        (outcomes[i] == Skipped <==> hubs[i].id == hubId || old(aborted) || i >= abortAt)
      ensures forall i :: 0 <= i < |hubs| && outcomes[i] == Announced ==> hubs[i].id in reachable
      ensures sent == old(sent) + Transmissions(hubs, outcomes, OnlineRecord(config.externalIp, config.externalPort))
      ensures aborted <==> old(aborted) || abortAt < |hubs|
      ensures db == old(db) && serverClosed == old(serverClosed) && dbClosed == old(dbClosed)
      ensures KeepsFresh(old(certificates.cache), certificates.cache, now)
      // with the chain at hand, every peer that is not skipped and accepts the connection is announced to
      ensures ChainAtHand(certificates, old(certificates.cache), old(certificates.store), now) ==>
        forall i :: 0 <= i < |hubs| && outcomes[i] != Skipped ==> (outcomes[i] == Announced <==> hubs[i].id in reachable)
    {
      ghost var atHand := ChainAtHand(certificates, certificates.cache, certificates.store, now);
      var record := OnlineRecord(config.externalIp, config.externalPort);
      outcomes := [];
      for i := 0 to |hubs|
        invariant |outcomes| == i
        invariant forall j :: 0 <= j < i ==>
          && (outcomes[j] == Skipped <==> hubs[j].id == hubId || old(aborted) || j >= abortAt)
          && (outcomes[j] == Announced ==> hubs[j].id in reachable)
          && (atHand && outcomes[j] != Skipped ==> (outcomes[j] == Announced <==> hubs[j].id in reachable))
        invariant sent == old(sent) + Transmissions(hubs[..i], outcomes, record)
        invariant aborted <==> old(aborted) || abortAt < i
        invariant db == old(db) && serverClosed == old(serverClosed) && dbClosed == old(dbClosed)
        invariant KeepsFresh(old(certificates.cache), certificates.cache, now)
        invariant atHand ==> ChainAtHand(certificates, certificates.cache, certificates.store, now)
      {
        if i >= abortAt {
          aborted := true;
        }
        var h := hubs[i];
        var o;
        if h.id == hubId || aborted {
          o := Skipped;
        } else {
          var ok := TransmitHubOnlineToPeerHub(h, reachable, now, random);
          o := if ok then Announced else Unannounced;
        }
        TransmissionsSnoc<Client>(hubs[..i], outcomes, h, o, record);
        assert hubs[..i + 1] == hubs[..i] + [h];
        outcomes := outcomes + [o];
      }
      assert hubs[..|hubs|] == hubs;
    }

    /**
     * `#transmitHubOnlineToPeerHub`: load the three certificates, connect
     * to the peer, send it the online record, hang up. Any failure aborts
     * the announcement to this peer.
     */
    method TransmitHubOnlineToPeerHub(h: HubRecord, reachable: set<string>, now: int, random: string -> seq<byte>)
      returns (ok: bool)
      modifies this, certificates
      ensures ok ==>
        && h.id in reachable
        && sent == old(sent) + [Transmit(h.id, h.ip, h.port, OnlineRecord(config.externalIp, config.externalPort)), Hangup(h.id)]
      ensures !ok ==> sent == old(sent)
      ensures db == old(db) && aborted == old(aborted) && serverClosed == old(serverClosed) && dbClosed == old(dbClosed)
      ensures KeepsFresh(old(certificates.cache), certificates.cache, now)
      // with the chain at hand, a peer that accepts the connection is announced to
      // with the chain served or loadable, a peer that accepts the connection is announced to,
      // and the chain is served afterwards
      ensures h.id in reachable && ChainAtHand(certificates, old(certificates.cache), old(certificates.store), now) ==> ok
      ensures ChainAtHand(certificates, old(certificates.cache), old(certificates.store), now) ==>
        ChainServed(certificates, certificates.cache, now)
    {
      ghost var loadable := ChainLoadable(certificates, certificates.cache, certificates.store, now);
      if loadable {
        ChainNext(certificates, Tier.Root, certificates.cache, certificates.store, now);
      }
      var root := certificates.Root(now, random);
      if root.Failure? {
        return false;
      }
      if loadable {
        LoadKeepsChain(certificates, Tier.Root, random, old(certificates.cache), old(certificates.store),
                       certificates.cache, certificates.store, root, now);
        ChainNext(certificates, Tier.Intermediate, certificates.cache, certificates.store, now);
      }
      ghost var c1, s1 := certificates.cache, certificates.store;
      var ica := certificates.Intermediate(now, random);
      if ica.Failure? {
        return false;
      }
      if loadable {
        LoadKeepsChain(certificates, Tier.Intermediate, random, c1, s1, certificates.cache, certificates.store, ica, now);
        ChainNext(certificates, Tier.Leaf, certificates.cache, certificates.store, now);
      }
      ghost var c2, s2 := certificates.cache, certificates.store;
      var leaf := certificates.Leaf(now, random);
      if loadable && leaf.Success? {
        LoadKeepsChain(certificates, Tier.Leaf, random, c2, s2, certificates.cache, certificates.store, leaf, now);
      }
      if leaf.Failure? || h.id !in reachable {
        return false;
      }
      sent := sent + [Transmit(h.id, h.ip, h.port, OnlineRecord(config.externalIp, config.externalPort)), Hangup(h.id)];
      ok := true;
    }

    /**
     * The loop body of `#sheduledInterval` for `e`, the `i`-th event of
     * the batch: stop on the abort signal; otherwise claim the event for
     * execution, and when the claim holds run the publish pipeline without
     * a pid and mark the event by its outcome.
     */
    method ExecuteScheduled(e: ScheduledEvent, i: nat, abortAt: nat) returns (status: Status)
      requires Valid()
      modifies this
      ensures Tick(db, sent, aborted, status) ==
        Step(Tick(old(db), old(sent), old(aborted), Running), subscribers.index, hubId, e, i, abortAt)
      ensures serverClosed == old(serverClosed) && dbClosed == old(dbClosed)
    {
      status := Running;
      if aborted || i >= abortAt {
        aborted := true;
        status := Stopped;
        return;
      }
      var key := Key(e.domain, e.id);
      var executed := Execute(db, key);
      db := executed.0;
      if !executed.1 {
        return;
      }
      var consumed := AttemptToConsumeAndBroadcast(e.domain, e.id, e.name, Undefined);
      match consumed
      case Failure(error) =>
        db := Mark(db, key, Failed);
        status := Raised(Db(error));
      case Success(c) =>
        if c {
          db := Mark(db, key, Succeeded);
        } else {
          db := Mark(db, key, Failed);
          status := Raised(Unbound);
        }
    }

    /**
     * One tick of `#sheduledInterval` over the batch `events` that
     * `readEventsScheduled` returned: claim each event for execution, run
     * the publish pipeline on the claimed ones without a pid, and mark
     * them. The signal is read once more after the loop, in `finally` or
     * by the next step of `asyncInterval`, and the next tick is scheduled
     * only when that read does not see it. The signal is set from read
     * `abortAt` on; read `j` is the check before event `j`.
     */
    method SheduledInterval(events: seq<ScheduledEvent>, abortAt: nat) returns (status: Status, rescheduled: bool)
      requires Valid()
      modifies this
      ensures Tick(db, sent, aborted, status) ==
        Polled(Tick(old(db), old(sent), old(aborted), Running), subscribers.index, hubId, events, abortAt)
      ensures rescheduled == !aborted
      ensures serverClosed == old(serverClosed) && dbClosed == old(dbClosed)
    {
      ghost var start := Tick(db, sent, aborted, Running);
      ghost var target := Batch(start, subscribers.index, hubId, events, 0, abortAt);
      ghost var last := LastRead(start, subscribers.index, hubId, events, 0, abortAt);
      status := Running;
      var i := 0;
      while i < |events| && status == Running
        invariant 0 <= i <= |events|
        invariant Batch(Tick(db, sent, aborted, status), subscribers.index, hubId, events, i, abortAt) == target
        invariant LastRead(Tick(db, sent, aborted, status), subscribers.index, hubId, events, i, abortAt) == last
        invariant serverClosed == old(serverClosed) && dbClosed == old(dbClosed)
        decreases |events| - i
      {
        BatchUnfold(Tick(db, sent, aborted, status), subscribers.index, hubId, events, i, abortAt);
        status := ExecuteScheduled(events[i], i, abortAt);
        i := i + 1;
      }
      BatchDone(Tick(db, sent, aborted, status), subscribers.index, hubId, events, i, abortAt);
      assert Tick(db, sent, aborted, status) == target && i == last;
      // the read of the signal after the loop
      if abortAt <= i {
        aborted := true;
      }
      rescheduled := !aborted;
    }
  }
}

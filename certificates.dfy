/**
 * The certificate manager (manager/certificates.js): the hub's root,
 * intermediate and leaf certificates, loaded lazily into an in-memory
 * cache, read from or created in the certificate table, and reloaded when
 * they expire.
 *
 * The X.509 material, the key derivation and the authenticated cipher are
 * not modelled as cryptography: a Certificate is a record of the fields the
 * manager relies on, Issue stands for the PKI layer, and a Sealed value is
 * ciphertext whose authentication tag either verifies or does not.
 */
module Certificates {
  import opened Common

  /** The fixed id of the root certificate authority. */
  const RootId: string := "EVENTFLOW-ROOT-CA"

  /** Milliseconds in a day: certificate lifetimes are configured in days, validity is a timestamp. */
  const DayMillis: nat := 86400000

  type byte = x: int | 0 <= x < 256

  datatype Tier = Root | Intermediate | Leaf

  datatype CertError =
    | NotFound               // E_EVENTFLOW_DB_CERTIFICATE_NOT_FOUND from the certificate table
    | DbFailure              // any other failure of the certificate table
    | AuthTagMismatch        // decryption found a corrupted or tampered ciphertext
    | MissingConfiguration   // E_EVENTFLOW_CERTIFICATES_MISSING_CONFIGURATION

  /** The fields of an X.509 certificate that the manager and its tests rely on. */
  datatype Certificate = Certificate(subject: string, issuer: string, dns: seq<string>, notAfter: int)

  /** A private key, protected by the password it was generated with. */
  datatype PrivateKey = PrivateKey(owner: string, password: string)

  /** Decrypted certificate material: what `root`, `intermediate` and `leaf` resolve to. */
  datatype Material = Material(validity: int, cert: Certificate, key: PrivateKey, pass: string)

  /** Ciphertext with its salt, IV and tag; `intact` says whether the tag verifies. */
  datatype Sealed<T> = Sealed(plain: T, intact: bool)

  /** A row of the certificate table: key and password are stored encrypted. */
  datatype Row = Row(validity: int, cert: Certificate, key: Sealed<PrivateKey>, pass: Sealed<string>)

  /**
   * The certificate table as this manager sees it. `contenders` are rows
   * another replica inserts for an id between this replica's failed read
   * and its own insert: they make the insert lose the race. `faults` are
   * the ids whose read fails with an error other than NotFound.
   */
  datatype CertStore = CertStore(rows: map<string, Row>, contenders: map<string, Row>, faults: set<string>)

  // ---------------------------------------------------------------------
  // Configuration.

  datatype CertConfig = CertConfig(
    algorithm: string, hash: string,
    rootDays: nat, intermediateDays: nat, leafDays: nat,
    passCipher: string, pbkdf2Hash: string, pbkdf2Bytes: nat, pbkdf2Iterations: nat,
    encryptionKey: Value)

  /** The keys a caller may supply; `None` leaves the default in place. */
  datatype CertOptions = CertOptions(
    algorithm: Option<string>, hash: Option<string>,
    rootDays: Option<nat>, intermediateDays: Option<nat>, leafDays: Option<nat>,
    passCipher: Option<string>, pbkdf2Hash: Option<string>, pbkdf2Bytes: Option<nat>,
    pbkdf2Iterations: Option<nat>, encryptionKey: Option<Value>)

  /** The defaults; the algorithm and hash are the PKI library's EdDSA-Ed448 and SHA-512 constants. */
  const Defaults: CertConfig := CertConfig(
    "EdDSAEd448", "SHA512", 365, 30, 7, "aes-256-gcm", "sha512", 32, 1000000, Undefined)

  function Pick<T>(supplied: Option<T>, default: T): T {
    if supplied.Some? then supplied.value else default
  }

  /** `deepassign(this.config, config)`: every supplied key overrides its default, the others keep it. */
  function Merge(options: Option<CertOptions>): (c: CertConfig)
    ensures options.None? ==> c == Defaults
    ensures options.Some? ==>
      && c.rootDays == Pick(options.value.rootDays, 365)
      && c.intermediateDays == Pick(options.value.intermediateDays, 30)
      && c.leafDays == Pick(options.value.leafDays, 7)
      && c.encryptionKey == Pick(options.value.encryptionKey, Undefined)
      && c.algorithm == Pick(options.value.algorithm, Defaults.algorithm)
      && c.hash == Pick(options.value.hash, Defaults.hash)
      && c.passCipher == Pick(options.value.passCipher, "aes-256-gcm")
      && c.pbkdf2Hash == Pick(options.value.pbkdf2Hash, "sha512")
      && c.pbkdf2Bytes == Pick(options.value.pbkdf2Bytes, 32)
      && c.pbkdf2Iterations == Pick(options.value.pbkdf2Iterations, 1000000)
  {
    match options
    case None => Defaults
    case Some(o) =>
      CertConfig(
        Pick(o.algorithm, Defaults.algorithm), Pick(o.hash, Defaults.hash),
        Pick(o.rootDays, Defaults.rootDays), Pick(o.intermediateDays, Defaults.intermediateDays),
        Pick(o.leafDays, Defaults.leafDays), Pick(o.passCipher, Defaults.passCipher),
        Pick(o.pbkdf2Hash, Defaults.pbkdf2Hash), Pick(o.pbkdf2Bytes, Defaults.pbkdf2Bytes),
        Pick(o.pbkdf2Iterations, Defaults.pbkdf2Iterations), Pick(o.encryptionKey, Defaults.encryptionKey))
  }

  /** JavaScript truthiness of a configured string: `undefined` and `""` are falsy. */
  predicate Truthy(v: Value) {
    v.Text? && v.s != ""
  }

  /** The constructor's configuration step: merge, then refuse a falsy encryption key. */
  function Configure(options: Option<CertOptions>): (r: Result<CertConfig, CertError>)
    ensures r.Failure? <==> !Truthy(Merge(options).encryptionKey)
    ensures r.Failure? ==> r.error == MissingConfiguration
    ensures r.Success? ==> r.value == Merge(options)
  {
    var c := Merge(options);
    if Truthy(c.encryptionKey) then Success(c) else Failure(MissingConfiguration)
  }

  /** Without options, or without an encryption key among them, construction fails. */
  lemma {:induction false} ConfigureNeedsKey(options: Option<CertOptions>)
    requires options.None? || options.value.encryptionKey.None? || options.value.encryptionKey == Some(Text(""))
    ensures Configure(options) == Failure(MissingConfiguration)
  {
    assert !Truthy(Merge(options).encryptionKey);
  }

  // ---------------------------------------------------------------------
  // The generated key password.

  /** `Buffer.toString('latin1')`: every byte becomes the character with that code. */
  function Latin1(raw: seq<byte>): (s: string)
    ensures |s| == |raw|
    ensures forall i :: 0 <= i < |raw| ==> s[i] as int == raw[i]
  {
    if raw == [] then [] else [raw[0] as char] + Latin1(raw[1..])
  }

  /** `replaceAll(c, '')`. */
  function Strip(s: string, c: char): (r: string)
    ensures c !in r
    ensures multiset(r) == multiset(s)[c := 0]
  {
    if s == [] then []
    else
      assert s == [s[0]] + s[1..];
      if s[0] == c then Strip(s[1..], c) else [s[0]] + Strip(s[1..], c)
  }

  /** `#generateRandomPassword`, given the random bytes it draws. */
  function GenerateRandomPassword(raw: seq<byte>): string {
    Strip(Strip(Latin1(raw), '\0'), '$')
  }


  /** Stripping a character from a concatenation strips it from each part. */
  lemma {:induction false} StripConcat(a: string, b: string, c: char)
    ensures Strip(a + b, c) == Strip(a, c) + Strip(b, c)
  {
    if a == [] {
      assert a + b == b;
    } else {
      assert (a + b)[0] == a[0] && (a + b)[1..] == a[1..] + b;
      StripConcat(a[1..], b, c);
    }
  }

  lemma {:induction false} Latin1Concat(a: seq<byte>, b: seq<byte>)
    ensures Latin1(a + b) == Latin1(a) + Latin1(b)
  {
    var l := Latin1(a + b);
    assert |l| == |Latin1(a) + Latin1(b)|;
    forall i | 0 <= i < |l| ensures l[i] == (Latin1(a) + Latin1(b))[i] {
      if i < |a| {
        assert (a + b)[i] == a[i];
      } else {
        assert (a + b)[i] == b[i - |a|];
      }
    }
  }

  /**
   * The generated password keeps every drawn character except NUL and
   * `$`, in the drawn order: each byte contributes on its own, and the
   * password of a concatenation is the concatenation of the passwords.
   */
  lemma {:induction false} PasswordConcat(a: seq<byte>, b: seq<byte>)
    ensures GenerateRandomPassword(a + b) == GenerateRandomPassword(a) + GenerateRandomPassword(b)
  {
    Latin1Concat(a, b);
    StripConcat(Latin1(a), Latin1(b), '\0');
    StripConcat(Strip(Latin1(a), '\0'), Strip(Latin1(b), '\0'), '$');
  }

  lemma PasswordOfByte(x: byte)
    ensures GenerateRandomPassword([x]) == if x == 0 || x == 36 then [] else [x as char]
  {
    assert Latin1([x]) == [x as char];
  }

  /**
   * The generated password contains no NUL and no `$`, holds every other
   * drawn character as often as drawn, and is no longer than the draw,
   * whose length the source takes from [64, 128).
   */
  lemma {:induction false} PasswordShape(raw: seq<byte>)
    ensures '\0' !in GenerateRandomPassword(raw) && '$' !in GenerateRandomPassword(raw)
    ensures multiset(GenerateRandomPassword(raw)) == multiset(Latin1(raw))['\0' := 0]['$' := 0]
    ensures |raw| < 128 ==> |GenerateRandomPassword(raw)| < 128
  {
    var once := Strip(Latin1(raw), '\0');
    var twice := Strip(once, '$');
    assert multiset(twice)['\0'] == multiset(once)['\0'] == 0;
    assert |twice| == |multiset(twice)| <= |multiset(once)| == |once| <= |multiset(Latin1(raw))|;
  }

  // ---------------------------------------------------------------------
  // The collaborators: cipher, PKI layer, certificate table.

  function Seal<T>(plain: T): (s: Sealed<T>)
    ensures Unseal(s) == Success(plain)
  {
    Sealed(plain, true)
  }

  /** `#decrypt`: a tag that does not verify raises instead of yielding plaintext. */
  function Unseal<T>(s: Sealed<T>): (r: Result<T, CertError>)
    ensures r.Success? <==> s.intact
  {
    if s.intact then Success(s.plain) else Failure(AuthTagMismatch)
  }

  /** `#readCertificate` on a row: decrypt the password, then the key. */
  function Open(row: Row): (r: Result<Material, CertError>)
    ensures r.Success? <==> row.key.intact && row.pass.intact
    ensures r.Success? ==> r.value.validity == row.validity && r.value.cert == row.cert
  {
    match Unseal(row.pass)
    case Failure(e) => Failure(e)
    case Success(pass) =>
      match Unseal(row.key)
      case Failure(e) => Failure(e)
      case Success(key) => Success(Material(row.validity, row.cert, key, pass))
  }

  /** Encrypting material for storage and decrypting the stored row gives the material back. */
  lemma OpenSealed(m: Material)
    ensures Open(Row(m.validity, m.cert, Seal(m.key), Seal(m.pass))) == Success(m)
  {
  }

  /** `#readCertificate(id)`: read the row, then decrypt it. */
  function Read(store: CertStore, id: string): (r: Result<Material, CertError>)
    ensures id in store.faults ==> r == Failure(DbFailure)
    ensures id !in store.faults && id !in store.rows ==> r == Failure(NotFound)
    ensures id !in store.faults && id in store.rows ==> r == Open(store.rows[id])
  {
    if id in store.faults then Failure(DbFailure)
    else if id !in store.rows then Failure(NotFound)
    else Open(store.rows[id])
  }

  /**
   * `persistCertificate`: inserts the row and reports true, unless a row
   * for the id exists already, or another replica inserts one first; then
   * it reports false and the table keeps the other row.
   */
  function Insert(store: CertStore, id: string, row: Row): (r: (CertStore, bool))
    ensures r.1 <==> id !in store.rows && id !in store.contenders
    ensures id in r.0.rows && r.0.faults == store.faults
    ensures r.1 ==> r.0.rows[id] == row
    ensures id in store.rows ==> r.0 == store
    ensures id !in store.rows && id in store.contenders ==>
      r.0.rows[id] == store.contenders[id] && |r.0.contenders| < |store.contenders|
    ensures forall k :: k in store.rows ==> k in r.0.rows && r.0.rows[k] == store.rows[k]
    ensures forall k :: k in r.0.rows && k != id ==> k in store.rows
    ensures forall k :: k != id ==> (k in r.0.contenders <==> k in store.contenders)
    ensures forall k :: k in r.0.contenders ==> k in store.contenders && r.0.contenders[k] == store.contenders[k]
    ensures id !in store.rows ==> id !in r.0.contenders
    ensures |r.0.contenders| <= |store.contenders|
  {
    if id in store.rows then (store, false)
    else if id in store.contenders then
      (store.(rows := store.rows[id := store.contenders[id]], contenders := store.contenders - {id}), false)
    else (store.(rows := store.rows[id := row]), true)
  }

  /** `revokeCertificate`: the row stops being readable. */
  function Revoked(store: CertStore, id: string): (s: CertStore)
    ensures id !in s.rows
    ensures forall k :: k in s.rows <==> k in store.rows && k != id
    ensures forall k :: k in s.rows ==> s.rows[k] == store.rows[k]
    ensures s.contenders == store.contenders && s.faults == store.faults
  {
    store.(rows := store.rows - {id})
  }

  predicate Expired(m: Material, now: int) {
    now > m.validity
  }

  /** The PKI layer: certificate material for `subject`, signed by `issuer` (self-signed without one). */
  function Issue(tier: Tier, subject: string, issuer: Option<Material>, days: nat, now: int, password: string): (m: Material)
    ensures !Expired(m, now) && m.validity == m.cert.notAfter
    ensures m.cert.subject == subject && m.pass == password
    ensures m.cert.issuer == if issuer.Some? then issuer.value.cert.subject else subject
  {
    var dns := match tier
      case Root => []
      case Intermediate => ["." + subject]
      case Leaf => [subject];
    var notAfter := now + days * DayMillis;
    Material(notAfter, Certificate(subject, if issuer.Some? then issuer.value.cert.subject else subject, dns, notAfter),
             PrivateKey(subject, password), password)
  }

  function Rank(tier: Tier): nat {
    match tier
    case Root => 0
    case Intermediate => 1
    case Leaf => 2
  }

  /** The certificate that signs a tier's certificate. */
  function Parent(tier: Tier): (p: Tier)
    requires tier != Root
    ensures Rank(p) < Rank(tier)
  {
    if tier == Leaf then Intermediate else Root
  }

  /** A row that decrypts to unexpired material. */
  ghost predicate Good(row: Row, now: int) {
    row.key.intact && row.pass.intact && now <= row.validity
  }

  /** The row for `k` is new, or differs from the one there before. */
  ghost predicate Renewed(before: map<string, Row>, after: map<string, Row>, k: string) {
    k in after && (k !in before || after[k] != before[k])
  }

  /** Every row written since `before`, other than the one for `spared`, is good. */
  ghost predicate RenewedGood(before: map<string, Row>, after: map<string, Row>, now: int, spared: Option<string>) {
    forall k :: Renewed(before, after, k) && Some(k) != spared ==> Good(after[k], now)
  }

  /** Revoking a row and then writing only good rows leaves only good rows written. */
  lemma RenewedAfterRevoke(a: map<string, Row>, f: map<string, Row>, id: string, c: map<string, Row>, now: int)
    requires RenewedGood(a, f, now, Some(id))
    requires RenewedGood(f - {id}, c, now, None)
    ensures RenewedGood(a, c, now, None)
  {
    forall k | Renewed(a, c, k) ensures Good(c[k], now) {
      if !Renewed(f - {id}, c, k) {
        assert k != id && k in f && c[k] == f[k];
        assert Renewed(a, f, k);
      }
    }
  }

  /** Good writes after a load that wrote only good rows but the one for `id`, with a good row for `id` in the end, leave only good writes. */
  lemma RenewedAfterRenew(a: map<string, Row>, f: map<string, Row>, c: map<string, Row>, id: string, now: int)
    requires RenewedGood(a, f, now, Some(id)) && RenewedGood(f, c, now, None)
    requires id in c && Good(c[id], now)
    ensures RenewedGood(a, c, now, None)
  {
    forall k | Renewed(a, c, k) ensures Good(c[k], now) {
      if k != id && !Renewed(f, c, k) {
        assert Renewed(a, f, k);
      }
    }
  }

  /** A row for a new id inserted after good writes leaves every other write good. */
  lemma RenewedAfterInsert(a: map<string, Row>, p: map<string, Row>, f: map<string, Row>, id: string, now: int)
    requires RenewedGood(a, p, now, None)
    requires forall k :: k in p ==> k in f && f[k] == p[k]
    requires forall k :: k in f && k != id ==> k in p
    ensures RenewedGood(a, f, now, Some(id))
  {
    forall k | Renewed(a, f, k) && k != id ensures Good(f[k], now) {
      assert Renewed(a, p, k);
    }
  }

  /** Unexpired cached material stays cached as it was. */
  ghost predicate KeepsFresh(before: map<string, Material>, after: map<string, Material>, now: int) {
    forall k :: k in before && !Expired(before[k], now) ==> k in after && after[k] == before[k]
  }

  /** `id` is cached with unexpired material. */
  predicate Serves(cache: map<string, Material>, id: string, now: int) {
    id in cache && !Expired(cache[id], now)
  }

  /** Outside `ids`, the rows and the rival rows are as they were. */
  ghost predicate Untouched(before: CertStore, after: CertStore, ids: set<string>) {
    forall k :: k !in ids ==>
      && (k in after.rows <==> k in before.rows)
      && (k in after.rows ==> after.rows[k] == before.rows[k])
      && (k in after.contenders <==> k in before.contenders)
      && (k in after.contenders ==> after.contenders[k] == before.contenders[k])
  }

  /** The cache entry, the row and the rival row for `k` are alike in both states. */
  ghost predicate Agree(c: map<string, Material>, s: CertStore, c': map<string, Material>, s': CertStore, k: string) {
    && (k in c' <==> k in c) && (k in c' ==> c'[k] == c[k])
    && (k in s'.faults <==> k in s.faults)
    && (k in s'.rows <==> k in s.rows) && (k in s'.rows ==> s'.rows[k] == s.rows[k])
    && (k in s'.contenders <==> k in s.contenders)
  }

  /** Outside `ids`, the cache is as it was. */
  ghost predicate CacheUntouched(before: map<string, Material>, after: map<string, Material>, ids: set<string>) {
    forall k :: k !in ids ==> (k in after <==> k in before) && (k in after ==> after[k] == before[k])
  }

  /** Evicting an expired entry of `ids` and then keeping fresh entries and those outside `ids` keeps them from the start. */
  lemma EvictedKeeps(c: map<string, Material>, c': map<string, Material>, id: string, ids: set<string>, now: int)
    requires id in c && Expired(c[id], now) && id in ids
    requires KeepsFresh(c - {id}, c', now) && CacheUntouched(c - {id}, c', ids)
    ensures KeepsFresh(c, c', now) && CacheUntouched(c, c', ids)
  {
    forall k | k in c && !Expired(c[k], now) ensures k in c' && c'[k] == c[k] {
      assert k in c - {id};
    }
    forall k | k !in ids ensures (k in c' <==> k in c) && (k in c' ==> c'[k] == c[k]) {
      assert k in c <==> k in c - {id};
    }
  }

  /** A change outside `x` followed by one outside `y` is a change outside any `ids` holding both. */
  lemma UntouchedTrans(a: CertStore, b: CertStore, c: CertStore, x: set<string>, y: set<string>, ids: set<string>)
    requires x <= ids && y <= ids && Untouched(a, b, x) && Untouched(b, c, y)
    ensures Untouched(a, c, ids)
  {
  }

  /** A load that wrote only good rows but the one for `id`, whose row is good, wrote only good rows. */
  lemma RenewedSpared(a: map<string, Row>, b: map<string, Row>, id: string, now: int)
    requires RenewedGood(a, b, now, Some(id))
    requires id in b ==> Good(b[id], now)
    ensures RenewedGood(a, b, now, None)
  {
  }

  /**
   * What settling an insert of `m` for `id` promises, from the table `s`
   * to `s'`, with result `r`: the read faults stay and no rival row is
   * added; only the row for `id` changes, and it exists afterwards; what
   * is returned is that row; an existing row is returned as it is and the
   * table does not change; without a rival the material made is
   * inserted and returned; a rival's row takes its place and is returned.
   */
  ghost predicate Settled(id: string, m: Material, now: int, s: CertStore, s': CertStore, r: Result<Material, CertError>) {
    && s'.faults == s.faults && |s'.contenders| <= |s.contenders|
    && Untouched(s, s', {id})
    && id in s'.rows
    && (forall k :: k in s.rows ==> k in s'.rows && s'.rows[k] == s.rows[k])
    && (forall k :: k in s'.rows && k != id ==> k in s.rows)
    && (r.Success? ==> Open(s'.rows[id]) == Success(r.value))
    && (id in s.rows ==> s' == s && r == Open(s.rows[id]))
    && (r.Success? && Expired(r.value, now) && id !in s.rows ==> |s'.contenders| < |s.contenders|)
    && (id !in s.rows && id !in s.contenders ==> r == Success(m))
    && (id !in s.rows && id in s.contenders ==> r == Open(s.contenders[id]))
    && (id !in s.rows ==> id !in s'.contenders)
  }

  /** The row for `id` reads and decrypts to unexpired material. */
  predicate Fresh(store: CertStore, id: string, now: int) {
    Read(store, id).Success? && !Expired(Read(store, id).value, now)
  }

  /** Reading the row for `id` fails with an error other than NotFound. */
  predicate Broken(store: CertStore, id: string) {
    Read(store, id).Failure? && Read(store, id).error != NotFound
  }

  // ---------------------------------------------------------------------
  // The manager.

  class CertificatesManager {
    const intermediateUid: string
    const leafUid: string
    const config: CertConfig
    var cache: map<string, Material>
    var store: CertStore

    /** The constructor guard and config merge; a missing encryption key means no manager. */
    static method Create(intermediateUid: string, leafUid: string, options: Option<CertOptions>, store: CertStore)
      returns (r: Result<CertificatesManager, CertError>)
      ensures r.Failure? <==> !Truthy(Merge(options).encryptionKey)
      ensures r.Failure? ==> r.error == MissingConfiguration
      ensures r.Success? ==>
        && fresh(r.value) && r.value.config == Merge(options)
        && r.value.intermediateUid == intermediateUid && r.value.leafUid == leafUid
        && r.value.cache == map[] && r.value.store == store
    {
      var config := Configure(options);
      if config.Failure? {
        return Failure(config.error);
      }
      var m := new CertificatesManager.Init(intermediateUid, leafUid, config.value, store);
      r := Success(m);
    }

    constructor Init(intermediateUid: string, leafUid: string, config: CertConfig, store: CertStore)
      ensures this.intermediateUid == intermediateUid && this.leafUid == leafUid
      ensures this.config == config && this.store == store && cache == map[]
    {
      this.intermediateUid := intermediateUid;
      this.leafUid := leafUid;
      this.config := config;
      this.store := store;
      cache := map[];
    }

    /** The certificate id of each tier: the fixed root id and the two constructor UIDs. */
    function Id(tier: Tier): string {
      match tier
      case Root => RootId
      case Intermediate => intermediateUid
      case Leaf => leafUid
    }

    function Days(tier: Tier): nat {
      match tier
      case Root => config.rootDays
      case Intermediate => config.intermediateDays
      case Leaf => config.leafDays
    }

    ghost function Measure(id: string): nat
      reads this
    {
      |store.contenders| + (if id in store.rows then 1 else 0)
    }

    /** The ids a load of `tier` may write: its own and those of its issuers. */
    function Lineage(tier: Tier): (ids: set<string>)
      ensures Id(tier) in ids
      ensures tier != Tier.Root ==> Lineage(Parent(tier)) <= ids
      decreases Rank(tier)
    {
      match tier
      case Root => {RootId}
      case Intermediate => {RootId, intermediateUid}
      case Leaf => {RootId, intermediateUid, leafUid}
    }

    /** Loading the tier's issuers never writes the tier's own row. */
    predicate Apart(tier: Tier) {
      tier == Tier.Root || Id(tier) !in Lineage(Parent(tier))
    }

    /** No other replica inserts the tier's row first. */
    predicate Uncontested(s: CertStore, tier: Tier) {
      Id(tier) !in s.contenders && Apart(tier)
    }

    /** Another replica inserts the tier's row first. */
    predicate Rival(s: CertStore, tier: Tier) {
      Id(tier) in s.contenders && Apart(tier)
    }

    /**
     * Loading the tier must make a certificate: its cached entry has
     * expired, or nothing is cached and the row is missing or holds expired
     * material; and the row can be read without a table error.
     */
    predicate NeedsIssue(tier: Tier, c: map<string, Material>, s: CertStore, now: int) {
      && Id(tier) !in s.faults
      && if Id(tier) in c then Expired(c[Id(tier)], now)
         else Id(tier) !in s.rows || (Read(s, Id(tier)).Success? && Expired(Read(s, Id(tier)).value, now))
    }

    /**
     * The tier needs nothing from its issuers to be loaded: it is served
     * from the cache, read unexpired from the table, or made afresh
     * without a rival.
     */
    predicate Obtainable(tier: Tier, c: map<string, Material>, s: CertStore, now: int) {
      || Serves(c, Id(tier), now)
      || (Id(tier) !in c && Fresh(s, Id(tier), now))
      || (NeedsIssue(tier, c, s, now) && Uncontested(s, tier))
    }

    /** Loading the tier succeeds: it is obtainable, and its issuer is loadable whenever it is made afresh. */
    predicate Loadable(tier: Tier, c: map<string, Material>, s: CertStore, now: int)
      decreases Rank(tier), 1
    {
      || Serves(c, Id(tier), now)
      || (Id(tier) !in c && Fresh(s, Id(tier), now))
      || (NeedsIssue(tier, c, s, now) && Uncontested(s, tier) && IssuerLoadable(tier, c, s, now))
    }

    /** The issuer of a tier's certificate can be loaded; the root has none. */
    predicate IssuerLoadable(tier: Tier, c: map<string, Material>, s: CertStore, now: int)
      decreases Rank(tier), 0
    {
      tier == Tier.Root || Loadable(Parent(tier), c, s, now)
    }

    /** The issuer material the cache holds for a tier; none for the root. */
    function IssuerIn(tier: Tier, c: map<string, Material>): Option<Material> {
      if tier == Tier.Root || Id(Parent(tier)) !in c then None else Some(c[Id(Parent(tier))])
    }

    /**
     * The material `#eagerload` creates: issued by the PKI layer for the
     * tier's id and lifetime, signed by `issuer`, and protected by the
     * password generated from the bytes drawn for that id.
     */
    function Generated(tier: Tier, issuer: Option<Material>, now: int, random: string -> seq<byte>): (m: Material)
      ensures m.cert.subject == Id(tier) && !Expired(m, now)
    {
      Issue(tier, Id(tier), issuer, Days(tier), now, GenerateRandomPassword(random(Id(tier))))
    }

    /** The generated material is protected by the password drawn for the tier's id, and signed by `issuer`. */
    lemma GeneratedKeys(tier: Tier, issuer: Option<Material>, now: int, random: string -> seq<byte>)
      ensures Generated(tier, issuer, now, random).pass == GenerateRandomPassword(random(Id(tier)))
      ensures Generated(tier, issuer, now, random).key == PrivateKey(Id(tier), GenerateRandomPassword(random(Id(tier))))
      ensures Generated(tier, issuer, now, random).cert.issuer == if issuer.Some? then issuer.value.cert.subject else Id(tier)
    {
    }

    /**
     * The frame of a load of `tier`, from the cache `c` and the table `s`
     * to `c'` and `s'`: unexpired cached material stays; only the entries
     * and rows of the tier and its issuers change; the read faults stay
     * and no rival row is added.
     */
    ghost predicate Framed(tier: Tier, now: int, c: map<string, Material>, s: CertStore,
                           c': map<string, Material>, s': CertStore) {
      && KeepsFresh(c, c', now) && CacheUntouched(c, c', Lineage(tier))
      && s'.faults == s.faults && |s'.contenders| <= |s.contenders|
      && Untouched(s, s', Lineage(tier))
    }

    /**
     * What a load promises when the tier's certificate must be made: with
     * no rival it makes, persists and returns new material, signed by the
     * issuer material `c'` then holds; when another replica's row wins the
     * insert, that row is returned, unless it has expired, in which case
     * it is revoked and new material is made.
     */
    ghost predicate Issues(tier: Tier, now: int, random: string -> seq<byte>, c: map<string, Material>, s: CertStore,
                           c': map<string, Material>, r: Result<Material, CertError>) {
      && (NeedsIssue(tier, c, s, now) && Uncontested(s, tier) && IssuerLoadable(tier, c, s, now) ==>
            r.Success? && r.value == Generated(tier, IssuerIn(tier, c'), now, random))
      && (NeedsIssue(tier, c, s, now) && Rival(s, tier) && IssuerLoadable(tier, c, s, now) ==>
            var won := Open(s.contenders[Id(tier)]);
            if won.Success? && Expired(won.value, now) then
              r.Success? && r.value == Generated(tier, IssuerIn(tier, c'), now, random)
            else r == won)
    }

    /**
     * What loading `tier` promises, from the cache `c` and the table `s`
     * to `c'` and `s'`, with result `r`: the load is framed, every row it
     * writes is good, and it answers as `LoadAnswer` says.
     */
    ghost predicate Loaded(tier: Tier, now: int, random: string -> seq<byte>, c: map<string, Material>, s: CertStore,
                           c': map<string, Material>, s': CertStore, r: Result<Material, CertError>) {
      && Framed(tier, now, c, s, c', s')
      && (r.Success? ==> RenewedGood(s.rows, s'.rows, now, None))
      && LoadAnswer(tier, now, random, c, s, c', s', r)
    }

    /**
     * What a load answers: what is served is unexpired, cached and, when
     * it was not served from the cache, stored; a cache hit is served from
     * memory; a miss on an unexpired row returns that row; a read error
     * other than NotFound propagates; expired or missing material is made
     * afresh as `Issues` says; a loadable tier is always loaded; expired
     * material is never served.
     */
    ghost predicate LoadAnswer(tier: Tier, now: int, random: string -> seq<byte>, c: map<string, Material>, s: CertStore,
                               c': map<string, Material>, s': CertStore, r: Result<Material, CertError>) {
      && (r.Success? ==> Serves(c', Id(tier), now) && c'[Id(tier)] == r.value)
      && (r.Success? && !Serves(c, Id(tier), now) ==> Id(tier) in s'.rows && Open(s'.rows[Id(tier)]) == Success(r.value))
      && (Serves(c, Id(tier), now) ==> r == Success(c[Id(tier)]) && c' == c && s' == s)
      && (Id(tier) !in c && Fresh(s, Id(tier), now) ==>
            r == Read(s, Id(tier)) && s' == s && c' == c[Id(tier) := r.value])
      && (Id(tier) !in c && Broken(s, Id(tier)) ==> r == Read(s, Id(tier)) && s' == s && c' == c)
      && Issues(tier, now, random, c, s, c', r)
      && (Loadable(tier, c, s, now) ==> r.Success?)
      && (Id(tier) in c && Expired(c[Id(tier)], now) && r.Success? ==> r.value != c[Id(tier)])
    }

    /**
     * What a miss on `tier` promises (`c` does not hold it): the load is
     * framed, every row it writes other than the tier's own is good, and
     * it answers as `FetchAnswer` says.
     */
    ghost predicate Fetched(tier: Tier, now: int, random: string -> seq<byte>, c: map<string, Material>, s: CertStore,
                            c': map<string, Material>, s': CertStore, r: Result<Material, CertError>) {
      && Framed(tier, now, c, s, c', s')
      && (r.Success? ==> RenewedGood(s.rows, s'.rows, now, Some(Id(tier))))
      && FetchAnswer(tier, now, random, c, s, c', s', r)
    }

    /**
     * What a miss answers: what is returned is cached and stored, possibly
     * expired; a readable row is returned and cached as it is, expired or
     * not; a read error other than NotFound propagates; on NotFound with
     * the issuer loadable, new material is made without a rival, and the
     * rival's row is returned otherwise; expired material consumes a rival
     * row or the read row.
     */
    ghost predicate FetchAnswer(tier: Tier, now: int, random: string -> seq<byte>, c: map<string, Material>, s: CertStore,
                                c': map<string, Material>, s': CertStore, r: Result<Material, CertError>) {
      && (r.Success? ==> Id(tier) in c' && c'[Id(tier)] == r.value)
      && (r.Success? ==> Id(tier) in s'.rows && Open(s'.rows[Id(tier)]) == Success(r.value))
      && (r.Success? && Expired(r.value, now) ==>
            |s'.contenders| < |s.contenders| + (if Id(tier) in s.rows then 1 else 0))
      && (Read(s, Id(tier)).Success? ==> r == Read(s, Id(tier)) && s' == s && c' == c[Id(tier) := r.value])
      && (Broken(s, Id(tier)) ==> r == Read(s, Id(tier)) && s' == s && c' == c)
      && (Read(s, Id(tier)) == Failure(NotFound) && Uncontested(s, tier) && IssuerLoadable(tier, c, s, now) ==>
            r.Success? && r.value == Generated(tier, IssuerIn(tier, c'), now, random))
      && (Read(s, Id(tier)) == Failure(NotFound) && Rival(s, tier) && IssuerLoadable(tier, c, s, now) ==>
            r == Open(s.contenders[Id(tier)]))
      && (Read(s, Id(tier)) == Failure(NotFound) && Apart(tier) && r.Success? ==>
            Id(tier) !in s'.contenders && (tier != Tier.Root ==> Serves(c', Id(Parent(tier)), now)))
    }

    /**
     * What creating the tier's certificate promises (there is no row for
     * it): the load is framed, every row it writes other than the tier's
     * own is good, and it answers as `MakeAnswer` says.
     */
    ghost predicate Made(tier: Tier, now: int, random: string -> seq<byte>, c: map<string, Material>, s: CertStore,
                         c': map<string, Material>, s': CertStore, r: Result<Material, CertError>) {
      && Framed(tier, now, c, s, c', s')
      && (r.Success? ==> RenewedGood(s.rows, s'.rows, now, Some(Id(tier))))
      && MakeAnswer(tier, now, random, c, s, c', s', r)
    }

    /**
     * What a creation answers: what is returned is stored; the issuer
     * stays cached; without a rival the material made here is returned,
     * and it is made whenever the issuer is loadable; with a rival, the
     * rival's row is returned; expired material consumes a rival row.
     */
    ghost predicate MakeAnswer(tier: Tier, now: int, random: string -> seq<byte>, c: map<string, Material>, s: CertStore,
                               c': map<string, Material>, s': CertStore, r: Result<Material, CertError>) {
      && (r.Success? ==> Id(tier) in s'.rows && Open(s'.rows[Id(tier)]) == Success(r.value))
      && (r.Success? && Expired(r.value, now) ==> |s'.contenders| < |s.contenders|)
      && (r.Success? && tier != Tier.Root ==> Serves(c', Id(Parent(tier)), now))
      && (r.Success? && Uncontested(s, tier) ==> r.value == Generated(tier, IssuerIn(tier, c'), now, random))
      && (Uncontested(s, tier) && IssuerLoadable(tier, c, s, now) ==> r.Success?)
      && (Rival(s, tier) && IssuerLoadable(tier, c, s, now) ==> r == Open(s.contenders[Id(tier)]))
      && (r.Success? && Apart(tier) ==> Id(tier) !in s'.contenders)
    }

    /** Whether a tier is loadable depends only on the cache entries and rows of its lineage. */
    lemma {:induction false} LoadableFrame(tier: Tier, c: map<string, Material>, s: CertStore,
                                           c': map<string, Material>, s': CertStore, now: int)
      requires Loadable(tier, c, s, now)
      requires forall k :: k in Lineage(tier) ==> Agree(c, s, c', s', k)
      ensures Loadable(tier, c', s', now)
      decreases Rank(tier)
    {
      assert Agree(c, s, c', s', Id(tier));
      assert Read(s', Id(tier)) == Read(s, Id(tier));
      if tier != Tier.Root && !Serves(c, Id(tier), now) && !(Id(tier) !in c && Fresh(s, Id(tier), now)) {
        LoadableFrame(Parent(tier), c, s, c', s', now);
      }
    }

    /**
     * Evicting an expired entry and revoking its row leaves a miss on a
     * missing row, with the same rivals, and the issuer still loadable.
     */
    lemma Evicted(tier: Tier, c: map<string, Material>, s: CertStore, now: int)
      ensures var c', s' := c - {Id(tier)}, Revoked(s, Id(tier));
        && (NeedsIssue(tier, c, s, now) ==> NeedsIssue(tier, c', s', now))
        && (Apart(tier) && IssuerLoadable(tier, c, s, now) ==> IssuerLoadable(tier, c', s', now))
        && s'.contenders == s.contenders
    {
      var c', s' := c - {Id(tier)}, Revoked(s, Id(tier));
      if tier != Tier.Root && Apart(tier) && IssuerLoadable(tier, c, s, now) {
        LoadableFrame(Parent(tier), c, s, c', s', now);
      }
    }

    /** A load that leaves a tier's entry and row alone leaves it obtainable. */
    lemma ObtainableKept(tier: Tier, c: map<string, Material>, s: CertStore, c': map<string, Material>, s': CertStore,
                         ids: set<string>, now: int)
      requires Obtainable(tier, c, s, now) && Id(tier) !in ids
      requires CacheUntouched(c, c', ids) && Untouched(s, s', ids) && s'.faults == s.faults
      ensures Obtainable(tier, c', s', now)
    {
      assert Read(s', Id(tier)) == Read(s, Id(tier));
    }

    /** An obtainable tier whose issuer is served is loadable. */
    lemma IssuedLoadable(tier: Tier, c: map<string, Material>, s: CertStore, now: int)
      requires Obtainable(tier, c, s, now)
      requires tier != Tier.Root ==> Serves(c, Id(Parent(tier)), now)
      ensures Loadable(tier, c, s, now)
    {
      if tier != Tier.Root {
        assert Loadable(Parent(tier), c, s, now);
      }
    }

    /** `clearCache`: forget the decrypted material; the table is untouched. */
    method ClearCache()
      modifies this
      ensures cache == map[] && store == old(store)
    {
      cache := map[];
    }

    /** `revoke(id)`: reports whether a row was revoked. */
    method Revoke(id: string) returns (revoked: bool)
      modifies this
      ensures revoked == (id in old(store.rows))
      ensures store == Revoked(old(store), id) && cache == old(cache)
    {
      revoked := id in store.rows;
      store := Revoked(store, id);
    }

    /** `perist`: encrypt key and password, then insert; true when this call's insert won. */
    method Persist(id: string, validity: int, cert: Certificate, key: PrivateKey, pass: string) returns (won: bool)
      modifies this
      ensures (store, won) == Insert(old(store), id, Row(validity, cert, Seal(key), Seal(pass)))
      ensures cache == old(cache)
    {
      var inserted := Insert(store, id, Row(validity, cert, Seal(key), Seal(pass)));
      store, won := inserted.0, inserted.1;
    }

    /** Two framed loads of a tier in a row are one framed load. */
    lemma FramedTrans(tier: Tier, now: int, c: map<string, Material>, s: CertStore, c1: map<string, Material>, s1: CertStore,
                      c2: map<string, Material>, s2: CertStore)
      requires Framed(tier, now, c, s, c1, s1) && Framed(tier, now, c1, s1, c2, s2)
      ensures Framed(tier, now, c, s, c2, s2)
    {
      UntouchedTrans(s, s1, s2, Lineage(tier), Lineage(tier), Lineage(tier));
    }

    /** A load framed by the issuer's lineage is framed by the tier's. */
    lemma FramedWiden(tier: Tier, now: int, c: map<string, Material>, s: CertStore, c': map<string, Material>, s': CertStore)
      requires tier != Tier.Root && Framed(Parent(tier), now, c, s, c', s')
      ensures Framed(tier, now, c, s, c', s')
    {
      UntouchedTrans(s, s', s', Lineage(Parent(tier)), {}, Lineage(tier));
    }

    /** Caching the tier's material after a framed load keeps it framed. */
    lemma FramedCached(tier: Tier, now: int, c: map<string, Material>, s: CertStore, c': map<string, Material>, s': CertStore,
                       m: Material)
      requires Id(tier) !in c && Framed(tier, now, c, s, c', s')
      ensures Framed(tier, now, c, s, c'[Id(tier) := m], s')
    {
    }

    /** A cache hit is served as it is. */
    lemma LoadedHit(tier: Tier, now: int, random: string -> seq<byte>, c: map<string, Material>, s: CertStore)
      requires Serves(c, Id(tier), now)
      ensures Loaded(tier, now, random, c, s, c, s, Success(c[Id(tier)]))
    {
    }

    /** A miss that returns unexpired material, or an error, is a load. */
    lemma FetchLoaded(tier: Tier, now: int, random: string -> seq<byte>, c: map<string, Material>, s: CertStore,
                      c': map<string, Material>, s': CertStore, r: Result<Material, CertError>)
      requires Id(tier) !in c && Fetched(tier, now, random, c, s, c', s', r)
      requires !(r.Success? && Expired(r.value, now))
      ensures Loaded(tier, now, random, c, s, c', s', r)
    {
      if r.Success? {
        RenewedSpared(s.rows, s'.rows, Id(tier), now);
      }
      FetchAnswered(tier, now, random, c, s, c', s', r);
    }

    lemma FetchAnswered(tier: Tier, now: int, random: string -> seq<byte>, c: map<string, Material>, s: CertStore,
                        c': map<string, Material>, s': CertStore, r: Result<Material, CertError>)
      requires Id(tier) !in c && FetchAnswer(tier, now, random, c, s, c', s', r)
      requires !(r.Success? && Expired(r.value, now))
      ensures LoadAnswer(tier, now, random, c, s, c', s', r)
    {
    }

    /**
     * A miss that returns expired material, followed by the restart on
     * the expired entry, is a load: a read expired row, or a rival's
     * expired row, is replaced by new material.
     */
    lemma RefetchLoaded(tier: Tier, now: int, random: string -> seq<byte>, c: map<string, Material>, s: CertStore,
                        c1: map<string, Material>, s1: CertStore, first: Result<Material, CertError>,
                        c2: map<string, Material>, s2: CertStore, r: Result<Material, CertError>)
      requires Id(tier) !in c && Fetched(tier, now, random, c, s, c1, s1, first)
      requires first.Success? && Expired(first.value, now)
      requires Loaded(tier, now, random, c1, s1, c2, s2, r)
      ensures Loaded(tier, now, random, c, s, c2, s2, r)
    {
      FramedTrans(tier, now, c, s, c1, s1, c2, s2);
      if r.Success? {
        assert !Serves(c1, Id(tier), now);
        RenewedAfterRenew(s.rows, s1.rows, s2.rows, Id(tier), now);
      }
      RefetchAnswered(tier, now, random, c, s, c1, s1, first, c2, s2, r);
    }

    lemma RefetchAnswered(tier: Tier, now: int, random: string -> seq<byte>, c: map<string, Material>, s: CertStore,
                          c1: map<string, Material>, s1: CertStore, first: Result<Material, CertError>,
                          c2: map<string, Material>, s2: CertStore, r: Result<Material, CertError>)
      requires Id(tier) !in c && s1.faults == s.faults && FetchAnswer(tier, now, random, c, s, c1, s1, first)
      requires first.Success? && Expired(first.value, now)
      requires LoadAnswer(tier, now, random, c1, s1, c2, s2, r)
      ensures LoadAnswer(tier, now, random, c, s, c2, s2, r)
    {
      if Read(s, Id(tier)).Success? {
        RereadAnswered(tier, now, random, c, s, c2, s2, r);
      } else {
        OutracedAnswered(tier, now, random, c, s, c1, s1, first, c2, s2, r);
      }
    }

    /** The row read on a miss has expired: it is cached, then evicted, revoked and made afresh. */
    lemma RereadAnswered(tier: Tier, now: int, random: string -> seq<byte>, c: map<string, Material>, s: CertStore,
                         c2: map<string, Material>, s2: CertStore, r: Result<Material, CertError>)
      requires Id(tier) !in c && Read(s, Id(tier)).Success? && Expired(Read(s, Id(tier)).value, now)
      requires LoadAnswer(tier, now, random, c[Id(tier) := Read(s, Id(tier)).value], s, c2, s2, r)
      ensures LoadAnswer(tier, now, random, c, s, c2, s2, r)
    {
      var c1 := c[Id(tier) := Read(s, Id(tier)).value];
      if NeedsIssue(tier, c, s, now) && Apart(tier) && IssuerLoadable(tier, c, s, now) && tier != Tier.Root {
        // the issuer is still at hand
        LoadableFrame(Parent(tier), c, s, c1, s, now);
      }
      assert !Serves(c1, Id(tier), now);
    }

    /** A rival's row won the insert on a miss and has expired: it is cached, then evicted, revoked and made afresh. */
    lemma OutracedAnswered(tier: Tier, now: int, random: string -> seq<byte>, c: map<string, Material>, s: CertStore,
                           c1: map<string, Material>, s1: CertStore, first: Result<Material, CertError>,
                           c2: map<string, Material>, s2: CertStore, r: Result<Material, CertError>)
      requires Id(tier) !in c && !Read(s, Id(tier)).Success? && s1.faults == s.faults
      requires FetchAnswer(tier, now, random, c, s, c1, s1, first)
      requires first.Success? && Expired(first.value, now)
      requires LoadAnswer(tier, now, random, c1, s1, c2, s2, r)
      ensures LoadAnswer(tier, now, random, c, s, c2, s2, r)
    {
      if NeedsIssue(tier, c, s, now) && Apart(tier) {
        // the expired rival row is cached now, and the issuer with it
        assert Uncontested(s1, tier) && NeedsIssue(tier, c1, s1, now) && IssuerLoadable(tier, c1, s1, now);
      }
      assert !Serves(c1, Id(tier), now);
    }

    /** Evicting an expired entry and revoking its row, then loading the tier, is a load. */
    lemma RenewLoaded(tier: Tier, now: int, random: string -> seq<byte>, c: map<string, Material>, s: CertStore,
                      c': map<string, Material>, s': CertStore, r: Result<Material, CertError>)
      requires Id(tier) in c && Expired(c[Id(tier)], now)
      requires Loaded(tier, now, random, c - {Id(tier)}, Revoked(s, Id(tier)), c', s', r)
      ensures Loaded(tier, now, random, c, s, c', s', r)
    {
      var id := Id(tier);
      EvictedKeeps(c, c', id, Lineage(tier), now);
      UntouchedTrans(s, Revoked(s, id), s', {id}, Lineage(tier), Lineage(tier));
      if r.Success? {
        RenewedAfterRevoke(s.rows, s.rows, id, s'.rows, now);
      }
      RenewAnswered(tier, now, random, c, s, c', s', r);
    }

    lemma RenewAnswered(tier: Tier, now: int, random: string -> seq<byte>, c: map<string, Material>, s: CertStore,
                        c': map<string, Material>, s': CertStore, r: Result<Material, CertError>)
      requires Id(tier) in c && Expired(c[Id(tier)], now)
      requires LoadAnswer(tier, now, random, c - {Id(tier)}, Revoked(s, Id(tier)), c', s', r)
      ensures LoadAnswer(tier, now, random, c, s, c', s', r)
    {
      Evicted(tier, c, s, now);
      assert Issues(tier, now, random, c, s, c', r);
    }

    /** Reading a row after a miss. */
    lemma FetchedRead(tier: Tier, now: int, random: string -> seq<byte>, c: map<string, Material>, s: CertStore)
      requires Id(tier) !in c && Read(s, Id(tier)).Success?
      ensures Fetched(tier, now, random, c, s, c[Id(tier) := Read(s, Id(tier)).value], s, Read(s, Id(tier)))
    {
      FramedCached(tier, now, c, s, c, s, Read(s, Id(tier)).value);
    }

    /** A read error other than NotFound after a miss. */
    lemma FetchedBroken(tier: Tier, now: int, random: string -> seq<byte>, c: map<string, Material>, s: CertStore)
      requires Id(tier) !in c && Broken(s, Id(tier))
      ensures Fetched(tier, now, random, c, s, c, s, Read(s, Id(tier)))
    {
    }

    /** Creating the certificate after NotFound, and caching what is returned. */
    lemma FetchedMade(tier: Tier, now: int, random: string -> seq<byte>, c: map<string, Material>, s: CertStore,
                      c': map<string, Material>, s': CertStore, r: Result<Material, CertError>)
      requires Id(tier) !in c && Read(s, Id(tier)) == Failure(NotFound)
      requires Made(tier, now, random, c, s, c', s', r)
      ensures Fetched(tier, now, random, c, s, if r.Success? then c'[Id(tier) := r.value] else c', s', r)
    {
      if r.Success? {
        FramedCached(tier, now, c, s, c', s', r.value);
        MadeAnswered(tier, now, random, c, s, c', s', r);
      }
    }

    lemma MadeAnswered(tier: Tier, now: int, random: string -> seq<byte>, c: map<string, Material>, s: CertStore,
                       c': map<string, Material>, s': CertStore, r: Result<Material, CertError>)
      requires Id(tier) !in c && Read(s, Id(tier)) == Failure(NotFound) && r.Success?
      requires MakeAnswer(tier, now, random, c, s, c', s', r)
      ensures FetchAnswer(tier, now, random, c, s, c'[Id(tier) := r.value], s', r)
    {
      if Apart(tier) && tier != Tier.Root {
        assert IssuerIn(tier, c'[Id(tier) := r.value]) == IssuerIn(tier, c');
      }
    }

    /** Loading the issuer failed, and so does the creation. */
    lemma MadeFailed(tier: Tier, now: int, random: string -> seq<byte>, c: map<string, Material>, s: CertStore,
                     c': map<string, Material>, s': CertStore, up: Result<Material, CertError>)
      requires tier != Tier.Root && up.Failure?
      requires Loaded(Parent(tier), now, random, c, s, c', s', up)
      ensures Made(tier, now, random, c, s, c', s', Failure(up.error))
    {
      FramedWiden(tier, now, c, s, c', s');
    }

    /**
     * Loading the issuer, making the material it signs and settling the
     * insert creates the certificate.
     */
    lemma MadeSettled(tier: Tier, now: int, random: string -> seq<byte>, c: map<string, Material>, s: CertStore,
                      c1: map<string, Material>, s1: CertStore, up: Result<Material, CertError>,
                      s2: CertStore, r: Result<Material, CertError>)
      requires Id(tier) !in c && Id(tier) !in s.rows && Id(tier) !in s.faults
      requires tier == Tier.Root ==> c1 == c && s1 == s
      requires tier != Tier.Root ==> up.Success? && Loaded(Parent(tier), now, random, c, s, c1, s1, up)
      requires Settled(Id(tier), Generated(tier, IssuerIn(tier, c1), now, random), now, s1, s2, r)
      ensures Made(tier, now, random, c, s, c1, s2, r)
    {
      var id := Id(tier);
      var above := if tier == Tier.Root then {} else Lineage(Parent(tier));
      if tier != Tier.Root {
        FramedWiden(tier, now, c, s, c1, s1);
      }
      UntouchedTrans(s, s1, s2, above, {id}, Lineage(tier));
      RenewedAfterInsert(s.rows, s1.rows, s2.rows, id, now);
      if Apart(tier) {
        assert id !in above;
      }
      SettledAnswered(tier, now, random, c, s, c1, s1, up, s2, r);
    }

    lemma SettledAnswered(tier: Tier, now: int, random: string -> seq<byte>, c: map<string, Material>, s: CertStore,
                          c1: map<string, Material>, s1: CertStore, up: Result<Material, CertError>,
                          s2: CertStore, r: Result<Material, CertError>)
      requires Id(tier) !in s.rows && |s1.contenders| <= |s.contenders|
      requires tier == Tier.Root ==> c1 == c && s1 == s
      requires tier != Tier.Root ==>
        up.Success? && RenewedGood(s.rows, s1.rows, now, None) && LoadAnswer(Parent(tier), now, random, c, s, c1, s1, up)
      requires Apart(tier) ==>
        && (Id(tier) in s1.rows <==> Id(tier) in s.rows)
        && (Id(tier) in s1.contenders <==> Id(tier) in s.contenders)
        && (Id(tier) in s1.contenders ==> s1.contenders[Id(tier)] == s.contenders[Id(tier)])
      requires Settled(Id(tier), Generated(tier, IssuerIn(tier, c1), now, random), now, s1, s2, r)
      ensures MakeAnswer(tier, now, random, c, s, c1, s2, r)
    {
      if Id(tier) in s1.rows {
        assert Renewed(s.rows, s1.rows, Id(tier));
      }
    }

    method Root(now: int, random: string -> seq<byte>) returns (r: Result<Material, CertError>)
      modifies this
      ensures Loaded(Tier.Root, now, random, old(cache), old(store), cache, store, r)
    {
      r := Lazyload(Tier.Root, now, random);
    }

    method Intermediate(now: int, random: string -> seq<byte>) returns (r: Result<Material, CertError>)
      modifies this
      ensures Loaded(Tier.Intermediate, now, random, old(cache), old(store), cache, store, r)
    {
      r := Lazyload(Tier.Intermediate, now, random);
    }

    method Leaf(now: int, random: string -> seq<byte>) returns (r: Result<Material, CertError>)
      modifies this
      ensures Loaded(Tier.Leaf, now, random, old(cache), old(store), cache, store, r)
    {
      r := Lazyload(Tier.Leaf, now, random);
    }

    /**
     * `#lazyload`: serve the cached material; on a miss read the row, and
     * only when there is none create it; evict, revoke and start over when
     * the material has expired. `now` is the clock reading and `random`
     * the random bytes drawn for each id's generated password.
     */
    method Lazyload(tier: Tier, now: int, random: string -> seq<byte>) returns (r: Result<Material, CertError>)
      modifies this
      ensures Loaded(tier, now, random, old(cache), old(store), cache, store, r)
      decreases Rank(tier), |store.contenders| + 1, 4
    {
      var id := Id(tier);
      if id in cache {
        var crt := cache[id];
        if !Expired(crt, now) {
          LoadedHit(tier, now, random, cache, store);
          return Success(crt);
        }
        r := Renew(tier, now, random);
        return;
      }
      r := Reload(tier, now, random);
    }

    /** The expiry branch of `#lazyload`: evict the expired entry, revoke its row and load again. */
    method Renew(tier: Tier, now: int, random: string -> seq<byte>) returns (r: Result<Material, CertError>)
      requires Id(tier) in cache && Expired(cache[Id(tier)], now)
      modifies this
      ensures Loaded(tier, now, random, old(cache), old(store), cache, store, r)
      decreases Rank(tier), |store.contenders| + 1, 2
    {
      var id := Id(tier);
      cache := cache - {id};
      store := Revoked(store, id);
      r := Reload(tier, now, random);
      RenewLoaded(tier, now, random, old(cache), old(store), cache, store, r);
    }

    /**
     * `#lazyload` once the id is not cached: fetch the material, and when
     * it has expired evict it, revoke it and load again.
     */
    method Reload(tier: Tier, now: int, random: string -> seq<byte>) returns (r: Result<Material, CertError>)
      requires Id(tier) !in cache
      modifies this
      ensures Loaded(tier, now, random, old(cache), old(store), cache, store, r)
      decreases Rank(tier), Measure(Id(tier)), 3
    {
      r := Fetch(tier, now, random);
      if r.Success? && Expired(r.value, now) {
        ghost var fetched, held, first := cache, store, r;
        r := Renew(tier, now, random);
        RefetchLoaded(tier, now, random, old(cache), old(store), fetched, held, first, cache, store, r);
      } else {
        FetchLoaded(tier, now, random, old(cache), old(store), cache, store, r);
      }
    }

    /** The miss branch of `#lazyload`: read the row, or create one when there is none, and cache it. */
    method Fetch(tier: Tier, now: int, random: string -> seq<byte>) returns (r: Result<Material, CertError>)
      requires Id(tier) !in cache
      modifies this
      ensures Fetched(tier, now, random, old(cache), old(store), cache, store, r)
      decreases Rank(tier), Measure(Id(tier)), 1
    {
      var id := Id(tier);
      var read := Read(store, id);
      if read.Success? {
        r := read;
        FetchedRead(tier, now, random, cache, store);
      } else if read.error == NotFound {
        r := Eagerload(tier, now, random);
        FetchedMade(tier, now, random, old(cache), old(store), cache, store, r);
        if r.Failure? {
          return;
        }
      } else {
        FetchedBroken(tier, now, random, cache, store);
        return read;
      }
      cache := cache[id := r.value];
    }

    /**
     * `#eagerload`: draw a password, have the PKI layer issue the
     * certificate (loading the issuer first), and insert it; when the
     * insert loses the race, read and return the row that won instead.
     */
    method Eagerload(tier: Tier, now: int, random: string -> seq<byte>) returns (r: Result<Material, CertError>)
      requires Id(tier) !in cache && Id(tier) !in store.rows && Id(tier) !in store.faults
      modifies this
      ensures Made(tier, now, random, old(cache), old(store), cache, store, r)
      decreases Rank(tier), Measure(Id(tier)), 0
    {
      var id := Id(tier);
      var keyPass := GenerateRandomPassword(random(id));
      var issuer: Option<Material> := None;
      ghost var up: Result<Material, CertError> := Failure(NotFound);
      if tier != Tier.Root {
        var loaded := Lazyload(Parent(tier), now, random);
        up := loaded;
        if loaded.Failure? {
          MadeFailed(tier, now, random, old(cache), old(store), cache, store, loaded);
          return Failure(loaded.error);
        }
        issuer := Some(loaded.value);
      }
      assert issuer == IssuerIn(tier, cache);
      var m := Issue(tier, id, issuer, Days(tier), now, keyPass);
      ghost var held := store;
      r := Settle(id, m, now);
      MadeSettled(tier, now, random, old(cache), old(store), cache, held, up, store, r);
    }

    /**
     * The end of `#eagerload`: persist the material just made; when the
     * insert loses the race, read the row that won and return it instead.
     */
    method Settle(id: string, m: Material, now: int) returns (r: Result<Material, CertError>)
      requires id !in store.faults && !Expired(m, now)
      modifies this
      ensures cache == old(cache) && Settled(id, m, now, old(store), store, r)
    {
      var won := Persist(id, m.validity, m.cert, m.key, m.pass);
      if won {
        r := Success(m);
      } else {
        r := Read(store, id);
      }
    }
  }
}

/**
 * The configuration record of a multipress project (`config.Config`), the
 * names, paths and URLs derived from it, and the allocator that hands out
 * instance identifiers `user<n>` (`InstancesConfig.NextIdentifier`).
 */
module Config {
  import opened Errors
  import opened Strconv

  datatype CredentialsConfig = CredentialsConfig(
    dbName: string,
    dbUser: string,
    dbPassword: string,
    username: string,
    password: string,
    email: string)

  datatype ResourcesConfig = ResourcesConfig(memory: string)

  datatype MysqlConfig = MysqlConfig(resources: ResourcesConfig, rootPassword: string)

  datatype ModelConfig = ModelConfig(resources: ResourcesConfig, credentials: CredentialsConfig)

  datatype CaddyConfig = CaddyConfig(resources: ResourcesConfig, tlsIssuer: string)

  /** `config.Config`; a nil section pointer is None. */
  class Config {
    var project: string
    var baseDomain: string
    var uid: int
    var gid: int
    var caddy: Option<CaddyConfig>
    var mysql: Option<MysqlConfig>
    var model: Option<ModelConfig>
    var instances: InstancesConfig?

    /** A `Config{...}` literal: the scalar settings given, every section nil. */
    constructor (project: string, baseDomain: string, uid: int, gid: int)
      ensures this.project == project && this.baseDomain == baseDomain
      ensures this.uid == uid && this.gid == gid
      ensures caddy.None? && mysql.None? && model.None? && instances == null
    {
      this.project := project;
      this.baseDomain := baseDomain;
      this.uid := uid;
      this.gid := gid;
      caddy := None;
      mysql := None;
      model := None;
      instances := null;
    }

    function VolumePath(): string { "./volumes" }

    function BackupsPath(): string { "./backups" }

    function NetworkName(): string reads this`project { project + "-network" }

    function CaddyContainerName(): string reads this`project { project + "-caddy" }

    function BackupsContainerName(): string reads this`project { project + "-backups" }

    function MysqlContainerName(): string reads this`project { project + "-mysql" }

    function PhpMyAdminContainerName(): string reads this`project { project + "-phpmyadmin" }

    function ModelContainerName(): string reads this`project { project + "-model" }

    function BackupsUrl(): string reads this`baseDomain { "https://backups." + baseDomain }

    function ModelUrl(): string reads this`baseDomain { "https://model." + baseDomain }

    function PhpMyAdminUrl(): string reads this`baseDomain { "https://phpmyadmin." + baseDomain }

    function InstanceUrl(identifier: string): string reads this`baseDomain
    {
      "https://" + identifier + "." + baseDomain
    }

    function InstanceVolumePath(identifier: string): string { VolumePath() + "/" + identifier }

    function ModelVolumePath(): string { VolumePath() + "/model" }

    function MysqlVolumePath(): string { VolumePath() + "/mysql" }

    function InstanceContainerName(identifier: string): string reads this`project
    {
      project + "-" + identifier
    }
  }

  /** `p + a == p + b` only if `a == b`. */
  lemma CancelPrefix(p: string, a: string, b: string)
    requires p + a == p + b
    ensures a == b
  {
    assert a == (p + a)[|p|..];
    assert b == (p + b)[|p|..];
  }

  /** Two strings with a common prefix differ when they differ just after it. */
  lemma DifferAfterPrefix(p: string, a: string, b: string)
    requires |a| > 0 && |b| > 0 && a[0] != b[0]
    ensures p + a != p + b
  {
    assert (p + a)[|p|] == a[0];
    assert (p + b)[|p|] == b[0];
  }

  /**
   * The six service containers and the network of a project all get
   * different names: the project name, a dash, and a fixed role word.
   */
  lemma ServiceNamesDistinct(cfg: Config)
    ensures var names := [cfg.NetworkName(), cfg.CaddyContainerName(), cfg.BackupsContainerName(),
                          cfg.MysqlContainerName(), cfg.PhpMyAdminContainerName(), cfg.ModelContainerName()];
            forall i, j :: 0 <= i < j < |names| ==> names[i] != names[j]
    ensures forall i :: 0 <= i < 6 ==>
            ([cfg.NetworkName(), cfg.CaddyContainerName(), cfg.BackupsContainerName(),
              cfg.MysqlContainerName(), cfg.PhpMyAdminContainerName(), cfg.ModelContainerName()][i]
             == cfg.project + "-" + ["network", "caddy", "backups", "mysql", "phpmyadmin", "model"][i])
  {
    var p := cfg.project + "-";
    var roles := ["network", "caddy", "backups", "mysql", "phpmyadmin", "model"];
    var names := [cfg.NetworkName(), cfg.CaddyContainerName(), cfg.BackupsContainerName(),
                  cfg.MysqlContainerName(), cfg.PhpMyAdminContainerName(), cfg.ModelContainerName()];
    forall i | 0 <= i < 6 ensures names[i] == p + roles[i] {
      assert cfg.project + "-" + roles[i] == p + roles[i];
    }
    forall i, j | 0 <= i < j < 6 ensures names[i] != names[j] {
      if names[i] == names[j] {
        CancelPrefix(p, roles[i], roles[j]);
      }
    }
  }

  /** Distinct identifiers give distinct container names, URLs and volume paths. */
  lemma InstanceNamesInjective(cfg: Config, a: string, b: string)
    ensures cfg.InstanceContainerName(a) == cfg.InstanceContainerName(b) ==> a == b
    ensures cfg.InstanceVolumePath(a) == cfg.InstanceVolumePath(b) ==> a == b
    ensures cfg.InstanceUrl(a) == cfg.InstanceUrl(b) ==> a == b
  {
    if cfg.InstanceContainerName(a) == cfg.InstanceContainerName(b) {
      CancelPrefix(cfg.project + "-", a, b);
    }
    if cfg.InstanceVolumePath(a) == cfg.InstanceVolumePath(b) {
      assert cfg.InstanceVolumePath(a) == "./volumes/" + a && cfg.InstanceVolumePath(b) == "./volumes/" + b;
      CancelPrefix("./volumes/", a, b);
    }
    if cfg.InstanceUrl(a) == cfg.InstanceUrl(b) {
      var sa, sb := a + "." + cfg.baseDomain, b + "." + cfg.baseDomain;
      assert cfg.InstanceUrl(a) == "https://" + sa && cfg.InstanceUrl(b) == "https://" + sb;
      CancelPrefix("https://", sa, sb);
      assert |a| == |b|;
      assert a == sa[..|a|] && b == sb[..|b|];
    }
  }

  // ---------------------------------------------------------------------
  // Identifier allocation

  const InstancePrefix: string := "user"

  /** The identifier the allocator prints for counter value n: `fmt.Sprintf("%s%d", "user", n)`. */
  function Identifier(n: nat): string
  {
    InstancePrefix + FormatDecimal(n)
  }

  /**
   * What a credential key contributes to the scan for the largest suffix:
   * for `user<rest>` with `strconv.Atoi(rest)` succeeding, `uint64` of the
   * number; every other key is skipped (None), never an error.
   */
  function Suffix(key: string): (r: Option<Uint64>)
    ensures r.Some? ==> |key| >= |InstancePrefix| && key[..|InstancePrefix|] == InstancePrefix
  {
    if |key| >= |InstancePrefix| && key[..|InstancePrefix|] == InstancePrefix then
      match Atoi(key[|InstancePrefix|..])
      case Some(n) => Some(ToUint64(n))
      case None => None
    else None
  }

  /** m is what the scan leaves in `maxNumber`: the largest suffix among the keys, or 0. */
  ghost predicate IsMaxSuffix(m: Uint64, keys: set<string>)
  {
    && (forall k :: k in keys && Suffix(k).Some? ==> Suffix(k).value <= m)
    && (m == 0 || exists k :: k in keys && Suffix(k) == Some(m))
  }

  /** The scan's result is determined by the keys. */
  lemma IsMaxSuffixUnique(m1: Uint64, m2: Uint64, keys: set<string>)
    requires IsMaxSuffix(m1, keys) && IsMaxSuffix(m2, keys)
    ensures m1 == m2
  {
    if m1 != 0 {
      var k1 :| k1 in keys && Suffix(k1) == Some(m1);
      assert m1 <= m2;
    }
    if m2 != 0 {
      var k2 :| k2 in keys && Suffix(k2) == Some(m2);
      assert m2 <= m1;
    }
  }

  /** How particular keys are read: sign, leading zeros, non-numbers and the uint64 wrap of negatives. */
  lemma SuffixExamples()
    ensures Suffix("user") == None
    ensures Suffix("userx") == None
    ensures Suffix("admin7") == None
    ensures Suffix("user007") == Some(7)
    ensures Suffix("user+3") == Some(3)
    ensures Suffix("user-1") == Some(Uint64Modulus - 1)
  {
    assert "user"[..4] == InstancePrefix;
    assert "userx"[4..] == "x";
    assert "user007"[..4] == InstancePrefix && "user007"[4..] == "007";
    assert DigitsValue("007") == 7 by {
      assert "007"[..2] == "00" && "00"[..1] == "0" && "0"[..0] == "";
    }
    assert "user+3"[..4] == InstancePrefix && "user+3"[4..] == "+3" && "+3"[1..] == "3";
    assert DigitsValue("3") == 3 by { assert "3"[..0] == ""; }
    assert "user-1"[..4] == InstancePrefix && "user-1"[4..] == "-1" && "-1"[1..] == "1";
    assert DigitsValue("1") == 1 by { assert "1"[..0] == ""; }
  }

  /** An identifier the allocator printed reads back as its own number. */
  lemma SuffixOfIdentifier(n: nat)
    requires n <= MaxInt64
    ensures Suffix(Identifier(n)) == Some(n)
  {
    var id := Identifier(n);
    assert id[..|InstancePrefix|] == InstancePrefix;
    assert id[|InstancePrefix|..] == FormatDecimal(n);
    AtoiOfFormatDecimal(n);
  }

  /**
   * Freshness: a counter value above the scanned maximum that still fits in
   * an `int` yields an identifier that is none of the scanned keys.
   */
  lemma IdentifierFresh(keys: set<string>, seed: Uint64, n: nat)
    requires IsMaxSuffix(seed, keys)
    requires seed < n <= MaxInt64
    ensures Identifier(n) !in keys
  {
    if Identifier(n) in keys {
      SuffixOfIdentifier(n);
      assert false;
    }
  }

  /**
   * An allocated identifier (`user<n>`) never names the same container,
   * volume directory or site as one of the project's fixed services.
   */
  lemma AllocatedNamesAvoidServices(cfg: Config, n: nat)
    ensures var name := cfg.InstanceContainerName(Identifier(n));
            name !in {cfg.NetworkName(), cfg.CaddyContainerName(), cfg.BackupsContainerName(),
                      cfg.MysqlContainerName(), cfg.PhpMyAdminContainerName(), cfg.ModelContainerName()}
    ensures cfg.InstanceVolumePath(Identifier(n)) !in {cfg.ModelVolumePath(), cfg.MysqlVolumePath()}
    ensures cfg.InstanceUrl(Identifier(n)) !in {cfg.ModelUrl(), cfg.BackupsUrl(), cfg.PhpMyAdminUrl()}
  {
    var id := Identifier(n);
    assert id[0] == 'u';
    var p := cfg.project + "-";
    assert cfg.InstanceContainerName(id) == p + id;
    var roles := ["network", "caddy", "backups", "mysql", "phpmyadmin", "model"];
    forall i | 0 <= i < 6 ensures p + id != p + roles[i] {
      DifferAfterPrefix(p, id, roles[i]);
    }
    assert cfg.NetworkName() == p + roles[0] && cfg.CaddyContainerName() == p + roles[1];
    assert cfg.BackupsContainerName() == p + roles[2] && cfg.MysqlContainerName() == p + roles[3];
    assert cfg.PhpMyAdminContainerName() == p + roles[4] && cfg.ModelContainerName() == p + roles[5];
    var v := "./volumes/";
    assert cfg.InstanceVolumePath(id) == v + id;
    assert cfg.ModelVolumePath() == v + "model" && cfg.MysqlVolumePath() == v + "mysql";
    DifferAfterPrefix(v, id, "model");
    DifferAfterPrefix(v, id, "mysql");
    var h, d := "https://", "." + cfg.baseDomain;
    assert cfg.InstanceUrl(id) == h + (id + d);
    assert cfg.ModelUrl() == h + ("model" + d);
    assert cfg.BackupsUrl() == h + ("backups" + d);
    assert cfg.PhpMyAdminUrl() == h + ("phpmyadmin" + d);
    DifferAfterPrefix(h, id + d, "model" + d);
    DifferAfterPrefix(h, id + d, "backups" + d);
    DifferAfterPrefix(h, id + d, "phpmyadmin" + d);
  }

  /** The identifiers for counter values seed+1 .. seed+count are pairwise distinct and all fresh. */
  lemma BatchIdentifiersFresh(keys: set<string>, seed: Uint64, count: nat)
    requires IsMaxSuffix(seed, keys)
    requires seed + count <= MaxInt64
    ensures forall a, b :: seed < a < b <= seed + count ==> Identifier(a) != Identifier(b)
    ensures forall a :: seed < a <= seed + count ==> Identifier(a) !in keys
  {
    forall a, b | seed < a < b <= seed + count ensures Identifier(a) != Identifier(b) {
      if Identifier(a) == Identifier(b) {
        CancelPrefix(InstancePrefix, FormatDecimal(a), FormatDecimal(b));
        FormatDecimalInjective(a, b);
      }
    }
    forall a | seed < a <= seed + count ensures Identifier(a) !in keys {
      IdentifierFresh(keys, seed, a);
    }
  }

  /** The loop over the credential keys that seeds the counter (config.go, lines 165-174). */
  method ScanMaxSuffix(keys: set<string>) returns (maxNumber: Uint64)
    ensures IsMaxSuffix(maxNumber, keys)
  {
    maxNumber := 0;
    var remaining := keys;
    ghost var largestKey: string := "";
    while remaining != {}
      invariant remaining <= keys
      invariant forall k :: k in keys - remaining && Suffix(k).Some? ==> Suffix(k).value <= maxNumber
      invariant maxNumber != 0 ==> largestKey in keys - remaining && Suffix(largestKey) == Some(maxNumber)
      decreases remaining
    {
      var key :| key in remaining;
      if |key| >= |InstancePrefix| && key[..|InstancePrefix|] == InstancePrefix {
        var number := Atoi(key[|InstancePrefix|..]);
        if number.Some? && ToUint64(number.value) > maxNumber {
          maxNumber := ToUint64(number.value);
          largestKey := key;
        }
      }
      remaining := remaining - {key};
    }
  }

  /** Adding one to the wrapped value of x wraps x + 1. */
  lemma IncrementWraps(x: nat)
    ensures Increment(x % Uint64Modulus) == (x + 1) % Uint64Modulus
  {
    var q, r := x / Uint64Modulus, x % Uint64Modulus;
    assert x == q * Uint64Modulus + r;
    if r < Uint64Modulus - 1 {
      assert x + 1 == q * Uint64Modulus + (r + 1);
    } else {
      assert x + 1 == (q + 1) * Uint64Modulus;
    }
  }

  /** The counter after one more `Add(1)`, and the freshness of the identifier it prints. */
  lemma NextCounterValue(keys: set<string>, seed: Uint64, issued: nat, value: Uint64)
    requires IsMaxSuffix(seed, keys)
    requires value == (seed + issued) % Uint64Modulus
    ensures Increment(value) == (seed + issued + 1) % Uint64Modulus
    ensures seed + issued + 1 <= MaxInt64 ==> Increment(value) == seed + issued + 1
    ensures seed + issued + 1 <= MaxInt64 ==> Identifier(Increment(value)) !in keys
  {
    IncrementWraps(seed + issued);
    if seed + issued + 1 <= MaxInt64 {
      IdentifierFresh(keys, seed, seed + issued + 1);
    }
  }

  /** `config.InstancesConfig`; `counter` is the lazily created `_counter` (None while nil). */
  class InstancesConfig {
    var counter: Option<Uint64>
    var resources: ResourcesConfig
    var credentials: map<string, CredentialsConfig>

    /** The counter's value when it was seeded. */
    ghost var seed: Uint64
    /** The credential keys the seeding scan saw. */
    ghost var seededFrom: set<string>
    /** How many identifiers have been handed out since seeding. */
    ghost var issued: nat

    ghost predicate Valid()
      reads this
    {
      && (counter.None? ==> issued == 0)
      && (counter.Some? ==> IsMaxSuffix(seed, seededFrom) && counter.value == (seed + issued) % Uint64Modulus)
    }

    /** An `InstancesConfig{...}` literal: nil counter. */
    constructor (resources: ResourcesConfig, credentials: map<string, CredentialsConfig>)
      ensures Valid()
      ensures this.resources == resources && this.credentials == credentials
      ensures counter.None?
    {
      this.resources := resources;
      this.credentials := credentials;
      counter := None;
      seed := 0;
      seededFrom := {};
      issued := 0;
    }

    /**
     * `NextIdentifier`: on the first call, seed the counter with the largest
     * `user<n>` suffix among the credential keys; on every call, add one and
     * return `"user" + counter`.
     */
    method NextIdentifier() returns (id: string)
      requires Valid()
      modifies this`counter, this`seed, this`seededFrom, this`issued
      ensures Valid() && counter.Some?
      ensures id == Identifier(counter.value)
      ensures old(counter).None? ==> seededFrom == credentials.Keys && counter.value == Increment(seed) && issued == 1
      ensures old(counter).Some? ==> seed == old(seed) && seededFrom == old(seededFrom) && issued == old(issued) + 1
      ensures old(counter).Some? ==> counter.value == Increment(old(counter).value)
      ensures seed + issued <= MaxInt64 ==> id !in seededFrom
    {
      if counter.None? {
        var maxNumber := ScanMaxSuffix(credentials.Keys);
        counter := Some(maxNumber);
        seed, seededFrom, issued := maxNumber, credentials.Keys, 0;
      }
      var nextNumber := Increment(counter.value);
      NextCounterValue(seededFrom, seed, issued, counter.value);
      counter := Some(nextNumber);
      issued := issued + 1;
      id := Identifier(nextNumber);
    }
  }
}

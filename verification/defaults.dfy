/**
 * The default records a new project starts from (config/default.go). The
 * process's uid and gid and the random draws behind each generated password
 * are parameters.
 */
module Defaults {
  import opened Errors
  import C = Config
  import opened Password

  const PasswordLength: nat := 16

  /** `NewDefaultConfig`: project "multipress", the caller's uid/gid, no base domain, every section nil. */
  method NewDefaultConfig(uid: int, gid: int) returns (cfg: C.Config)
    ensures fresh(cfg)
    ensures cfg.project == "multipress" && cfg.baseDomain == ""
    ensures cfg.uid == uid && cfg.gid == gid
    ensures cfg.caddy.None? && cfg.mysql.None? && cfg.model.None? && cfg.instances == null
  {
    cfg := new C.Config("multipress", "", uid, gid);
  }

  /** `NewDefaultCaddyConfig`: 256M of memory, certificates from Caddy's internal issuer. */
  function NewDefaultCaddyConfig(): (c: C.CaddyConfig)
    ensures c.resources.memory == "256M" && c.tlsIssuer == "internal"
  {
    C.CaddyConfig(C.ResourcesConfig("256M"), "internal")
  }

  /** `NewDefaultMysqlConfig`: 2G of memory and a generated root password. */
  function NewDefaultMysqlConfig(root: RandomSource): (c: C.MysqlConfig)
    ensures c.resources.memory == "2G"
    ensures |c.rootPassword| == PasswordLength && forall ch :: ch in c.rootPassword ==> ch in Charset
  {
    PasswordShape(PasswordLength, root);
    C.MysqlConfig(C.ResourcesConfig("2G"), PasswordOf(PasswordLength, root))
  }

  /**
   * `NewDefaultModelConfig`: the template site's database `model` owned by
   * user `model`, its administrator `admin` at `admin@model.<base domain>`,
   * and two generated passwords.
   */
  function NewDefaultModelConfig(cfg: C.Config, dbPassword: RandomSource, password: RandomSource): (m: C.ModelConfig)
    reads cfg`baseDomain
    ensures m.resources.memory == "512M"
    ensures m.credentials.dbName == "model" && m.credentials.dbUser == "model"
    ensures m.credentials.username == "admin"
    ensures m.credentials.email == "admin@" + cfg.ModelUrl()[|"https://"|..]
    ensures |m.credentials.dbPassword| == PasswordLength && forall ch :: ch in m.credentials.dbPassword ==> ch in Charset
    ensures |m.credentials.password| == PasswordLength && forall ch :: ch in m.credentials.password ==> ch in Charset
  {
    PasswordShape(PasswordLength, dbPassword);
    PasswordShape(PasswordLength, password);
    C.ModelConfig(
      C.ResourcesConfig("512M"),
      C.CredentialsConfig(
        "model", "model", PasswordOf(PasswordLength, dbPassword),
        "admin", PasswordOf(PasswordLength, password),
        "admin@model." + cfg.baseDomain))
  }

  /** `NewDefaultInstancesConfig`: 512M per instance, no credentials yet, counter not seeded. */
  method NewDefaultInstancesConfig(cfg: C.Config) returns (instances: C.InstancesConfig)
    ensures fresh(instances) && instances.Valid()
    ensures instances.resources.memory == "512M"
    ensures instances.credentials == map[]
    ensures instances.counter.None?
  {
    instances := new C.InstancesConfig(C.ResourcesConfig("512M"), map[]);
  }

  /**
   * `NewDefaultInstanceCredentialConfig`: database, database user and site
   * administrator all named after the identifier; the administrator's mail
   * is `<id>@<id>.<base domain>`, at the instance's own site.
   */
  function NewDefaultInstanceCredentialConfig(cfg: C.Config, identifier: string,
                                              dbPassword: RandomSource, password: RandomSource): (c: C.CredentialsConfig)
    reads cfg`baseDomain
    ensures c.dbName == identifier && c.dbUser == identifier && c.username == identifier
    ensures c.email == identifier + "@" + cfg.InstanceUrl(identifier)[|"https://"|..]
    ensures |c.dbPassword| == PasswordLength && forall ch :: ch in c.dbPassword ==> ch in Charset
    ensures |c.password| == PasswordLength && forall ch :: ch in c.password ==> ch in Charset
  {
    PasswordShape(PasswordLength, dbPassword);
    PasswordShape(PasswordLength, password);
    C.CredentialsConfig(
      identifier, identifier, PasswordOf(PasswordLength, dbPassword),
      identifier, PasswordOf(PasswordLength, password),
      identifier + "@" + identifier + "." + cfg.baseDomain)
  }

  /** Instances with different identifiers get different database, user, login and mail. */
  lemma InstanceCredentialsDistinct(cfg: C.Config, a: string, b: string,
                                    d1: RandomSource, p1: RandomSource, d2: RandomSource, p2: RandomSource)
    ensures var ca, cb := NewDefaultInstanceCredentialConfig(cfg, a, d1, p1), NewDefaultInstanceCredentialConfig(cfg, b, d2, p2);
            (ca.dbName == cb.dbName || ca.dbUser == cb.dbUser || ca.username == cb.username || ca.email == cb.email) ==> a == b
  {
    var ea := a + "@" + a + "." + cfg.baseDomain;
    var eb := b + "@" + b + "." + cfg.baseDomain;
    if ea == eb {
      assert |ea| == 2 * |a| + 2 + |cfg.baseDomain| && |eb| == 2 * |b| + 2 + |cfg.baseDomain|;
      assert a == ea[..|a|] && b == eb[..|b|];
    }
  }

  /**
   * The template site's credentials never coincide with those of an instance
   * whose identifier came from the allocator (`user<n>`).
   */
  lemma ModelCredentialsApartFromInstances(cfg: C.Config, n: nat,
                                           md: RandomSource, mp: RandomSource, d: RandomSource, p: RandomSource)
    ensures var m := NewDefaultModelConfig(cfg, md, mp).credentials;
            var c := NewDefaultInstanceCredentialConfig(cfg, C.Identifier(n), d, p);
            m.dbName != c.dbName && m.dbUser != c.dbUser && m.username != c.username && m.email != c.email
  {
    var id := C.Identifier(n);
    assert id[0] == 'u';
    var c := NewDefaultInstanceCredentialConfig(cfg, id, d, p);
    assert c.email == id + ("@" + id + "." + cfg.baseDomain);
    assert c.email[0] == 'u';
    assert NewDefaultModelConfig(cfg, md, mp).credentials.email[0] == 'a';
  }
}

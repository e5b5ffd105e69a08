/**
 * Server configuration read from the environment (`config.ts`): the admin list,
 * the realm password-verification blob, the ICE server list and the two
 * predicates `isPrivateIp` and `isAdmin`. The environment is a parameter.
 */
module Config {
  import opened Wrappers
  import opened Text

  /** An ICE server entry handed to clients: STUN entries carry no credentials. */
  datatype IceServer = IceServer(urls: seq<string>, username: Option<string>, credential: Option<string>)

  /**
   * The environment variables the model reads. Numeric variables appear already
   * parsed (`None` when unset or empty).
   */
  datatype Env = Env(
    realmName: Option<string>,
    realmDescription: Option<string>,
    realmPasswordVerify: Option<string>,
    realmPasswordVerifyNonce: Option<string>,
    retentionDays: Option<int>,
    fileRetentionDays: Option<int>,
    allowDm: Option<string>,
    realmAdmins: Option<string>,
    stunServers: Option<string>,
    turnServers: Option<string>,
    turnUsername: Option<string>,
    turnCredential: Option<string>,
    maxMembers: int,
    maxVoiceParticipants: int,
    s3Bucket: Option<string>)

  datatype ServerConfig = ServerConfig(
    realmName: string,
    realmDescription: string,
    encrypted: bool,
    retentionDays: Option<int>,
    fileRetentionDays: Option<int>,
    allowDirectMessages: bool,
    admins: seq<string>,
    passwordVerify: Option<string>,
    passwordVerifyNonce: Option<string>,
    iceServers: seq<IceServer>,
    maxMembers: int,
    maxVoiceParticipants: int,
    s3Enabled: bool)

  const GoogleStun := "stun:stun.l.google.com:19302"

  /** JavaScript truthiness of an optional string: present and non-empty. */
  predicate Truthy(s: Option<string>) {
    s.Some? && s.value != ""
  }

  /** `REALM_ADMINS?.split(";").map(trim).filter(Boolean) ?? []`. */
  function ParseAdmins(raw: Option<string>): (admins: seq<string>)
    ensures raw.None? ==> admins == []
    ensures forall i :: 0 <= i < |admins| ==> Clean(admins[i]) && ';' !in admins[i]
  {
    match raw
    case None => []
    case Some(s) => SplitTrimmed(s, ';')
  }

  /** `isAdmin`: membership in the configured admin list. */
  predicate IsAdmin(cfg: ServerConfig, publicKey: string) {
    publicKey in cfg.admins
  }

  /** A list of keys written as `k1;k2;...` is read back as exactly those keys. */
  lemma {:induction false} ParseAdminsOfJoin(keys: seq<string>)
    requires |keys| >= 1
    requires forall i :: 0 <= i < |keys| ==> Clean(keys[i]) && ';' !in keys[i]
    ensures ParseAdmins(Some(Join(keys, ';'))) == keys
  {
    SplitJoin(keys, ';');
    TrimNonEmptyOfClean(keys, ';');
  }

  /** Trimming and filtering leave a list of clean strings unchanged. */
  lemma {:induction false} TrimNonEmptyOfClean(parts: seq<string>, c: char)
    requires forall i :: 0 <= i < |parts| ==> Clean(parts[i])
    ensures TrimNonEmpty(parts, c) == parts
  {
    if |parts| > 0 {
      CleanTrim(parts[0]);
      TrimNonEmptyOfClean(parts[1..], c);
    }
  }

  /** A clean string is its own trim. */
  lemma CleanTrim(s: string)
    requires Clean(s)
    ensures Trim(s) == s
  {
    assert TrimStart(s) == s;
  }

  /** `raw?.trim() || null`. */
  function TrimOrNull(raw: Option<string>): (r: Option<string>)
    ensures r.Some? ==> Clean(r.value)
    ensures r.None? <==> raw.None? || AllWhitespace(raw.value)
  {
    match raw
    case None => None
    case Some(s) =>
      TrimEmptyIffWhitespace(s);
      var t := Trim(s);
      if t == "" then None else Some(t)
  }

  /** The STUN and TURN entries, in that order (`buildIceServers`). */
  function BuildIceServers(stunRaw: Option<string>, turnRaw: Option<string>, turnUsername: Option<string>, turnCredential: Option<string>): (servers: seq<IceServer>)
    ensures |servers| <= 2
    ensures forall i :: 0 <= i < |servers| ==> |servers[i].urls| > 0
    ensures forall i :: 0 <= i < |servers| ==> forall j :: 0 <= j < |servers[i].urls| ==> Clean(servers[i].urls[j]) && ',' !in servers[i].urls[j]
    // a server with credentials is the TURN entry, and it comes last
    ensures forall i :: 0 <= i < |servers| && (servers[i].username.Some? || servers[i].credential.Some?) ==> i == |servers| - 1
  {
    var stunUrls := if stunRaw.None? then [GoogleStun] else SplitTrimmed(stunRaw.value, ',');
    assert Clean(GoogleStun) && ',' !in GoogleStun;
    var stun := if |stunUrls| > 0 then [IceServer(stunUrls, None, None)] else [];
    var turnUrls := if Truthy(turnRaw) then SplitTrimmed(turnRaw.value, ',') else [];
    var turn := if |turnUrls| > 0 then [IceServer(turnUrls, turnUsername, turnCredential)] else [];
    stun + turn
  }

  /** With `STUN_SERVERS` unset, the first server is the public Google STUN server. */
  lemma DefaultStun(turnRaw: Option<string>, user: Option<string>, cred: Option<string>)
    ensures var servers := BuildIceServers(None, turnRaw, user, cred);
      |servers| >= 1 && servers[0] == IceServer([GoogleStun], None, None)
  {
  }

  /**
   * With `STUN_SERVERS` set, the list starts with a STUN entry carrying exactly its
   * split, trimmed, non-empty pieces and no credentials, precisely when there is at
   * least one such piece.
   */
  lemma StunEntry(stunRaw: string, turnRaw: Option<string>, user: Option<string>, cred: Option<string>)
    ensures var servers := BuildIceServers(Some(stunRaw), turnRaw, user, cred);
      |SplitTrimmed(stunRaw, ',')| > 0 <==>
        |servers| >= 1 && servers[0] == IceServer(SplitTrimmed(stunRaw, ','), None, None)
  {
  }

  /** `STUN_SERVERS=""` (or only commas and spaces) disables STUN: any entry left is the TURN one. */
  lemma {:induction false} StunDisabled(stunRaw: string, turnRaw: Option<string>, user: Option<string>, cred: Option<string>)
    requires forall i :: 0 <= i < |stunRaw| ==> stunRaw[i] == ',' || IsJsWhitespace(stunRaw[i])
    ensures var servers := BuildIceServers(Some(stunRaw), turnRaw, user, cred);
      forall i :: 0 <= i < |servers| ==> servers[i].username == user && servers[i].credential == cred
  {
    SplitOfSeparatorsAndBlanks(stunRaw, ',');
  }

  /** Splitting a string of separators and whitespace leaves only blank pieces, all dropped. */
  lemma {:induction false} SplitOfSeparatorsAndBlanks(s: string, c: char)
    requires forall i :: 0 <= i < |s| ==> s[i] == c || IsJsWhitespace(s[i])
    ensures SplitTrimmed(s, c) == []
  {
    var parts := Split(s, c);
    SplitPiecesBlank(s, c);
    TrimNonEmptyOfBlank(parts, c);
  }

  lemma {:induction false} SplitPiecesBlank(s: string, c: char)
    requires forall i :: 0 <= i < |s| ==> s[i] == c || IsJsWhitespace(s[i])
    ensures forall i :: 0 <= i < |Split(s, c)| ==> AllWhitespace(Split(s, c)[i])
  {
    if |s| > 0 {
      SplitPiecesBlank(s[1..], c);
    }
  }

  lemma {:induction false} TrimNonEmptyOfBlank(parts: seq<string>, c: char)
    requires forall i :: 0 <= i < |parts| ==> AllWhitespace(parts[i])
    ensures TrimNonEmpty(parts, c) == []
  {
    if |parts| > 0 {
      TrimEmptyIffWhitespace(parts[0]);
      TrimNonEmptyOfBlank(parts[1..], c);
    }
  }

  /** A TURN entry appears exactly when `TURN_SERVERS` yields at least one url, and it carries the credentials. */
  lemma TurnEntry(stunRaw: Option<string>, turnRaw: Option<string>, user: Option<string>, cred: Option<string>)
    ensures var servers := BuildIceServers(stunRaw, turnRaw, user, cred);
      var turnUrls := if Truthy(turnRaw) then SplitTrimmed(turnRaw.value, ',') else [];
      (|turnUrls| > 0 <==> |servers| > 0 && servers[|servers| - 1] == IceServer(turnUrls, user, cred))
  {
  }

  /** The configuration as `config.ts` derives it from the environment. */
  function FromEnv(env: Env): (cfg: ServerConfig)
    ensures cfg.encrypted <==> Truthy(env.realmPasswordVerify)
    ensures cfg.passwordVerify.Some? ==> cfg.encrypted
    ensures cfg.allowDirectMessages <==> env.allowDm == Some("true")
    ensures forall k :: IsAdmin(cfg, k) <==> k in ParseAdmins(env.realmAdmins)
  {
    var pv := TrimOrNull(env.realmPasswordVerify);
    ServerConfig(
      env.realmName.GetOr("My Realm"),
      env.realmDescription.GetOr("A Concord server"),
      Truthy(env.realmPasswordVerify),
      env.retentionDays,
      env.fileRetentionDays,
      env.allowDm == Some("true"),
      ParseAdmins(env.realmAdmins),
      pv,
      TrimOrNull(env.realmPasswordVerifyNonce),
      BuildIceServers(env.stunServers, env.turnServers, env.turnUsername, env.turnCredential),
      env.maxMembers,
      env.maxVoiceParticipants,
      Truthy(env.s3Bucket))
  }

  /** `isPrivateIp` as written: the 172 range is tested with the prefixes "172.2" and "172.3". */
  predicate IsPrivateIp(ip: Option<string>) {
    !Truthy(ip) ||
    var s := ip.value;
    StartsWith(s, "10.") ||
    StartsWith(s, "172.16.") || StartsWith(s, "172.17.") || StartsWith(s, "172.18.") ||
    StartsWith(s, "172.19.") || StartsWith(s, "172.2") || StartsWith(s, "172.3") ||
    StartsWith(s, "192.168.") ||
    s == "127.0.0.1" ||
    s == "localhost"
  }

  /** A missing or empty address counts as private. */
  lemma UnsetIsPrivate()
    ensures IsPrivateIp(None) && IsPrivateIp(Some(""))
  {
  }

  /** The two decimal digits of `n`. */
  function TwoDigits(n: nat): (r: string)
    requires 10 <= n < 100
    ensures |r| == 2 && '1' <= r[0] <= '9' && '0' <= r[1] <= '9'
  {
    ['0' + (n / 10) as char, '0' + (n % 10) as char]
  }

  /** The private 172 block 172.16.0.0/12: second octet 16 to 31. */
  predicate IsPrivate172(s: string) {
    exists n :: 16 <= n <= 31 && StartsWith(s, "172." + TwoDigits(n) + ".")
  }

  /** `isPrivateIp` with the 172 test it evidently intends (RFC 1918's 172.16.0.0/12). */
  predicate IsPrivateIpIntended(ip: Option<string>) {
    !Truthy(ip) ||
    var s := ip.value;
    StartsWith(s, "10.") || IsPrivate172(s) || StartsWith(s, "192.168.") ||
    s == "127.0.0.1" || s == "localhost"
  }

  /** The public address 172.217.0.1 and the out-of-range 172.32.0.1 are classified private. */
  lemma PrivateIpOverMatch()
    ensures IsPrivateIp(Some("172.217.0.1")) && !IsPrivateIpIntended(Some("172.217.0.1"))
    ensures IsPrivateIp(Some("172.32.0.1")) && !IsPrivateIpIntended(Some("172.32.0.1"))
  {
    forall n | 16 <= n <= 31
      ensures !StartsWith("172.217.0.1", "172." + TwoDigits(n) + ".")
      ensures !StartsWith("172.32.0.1", "172." + TwoDigits(n) + ".")
    {
      var p := "172." + TwoDigits(n) + ".";
      assert p[6] == '.';
      assert p[4..6] == TwoDigits(n);
    }
    assert !IsPrivate172("172.217.0.1");
    assert !StartsWith("172.217.0.1", "10.") by { assert "172.217.0.1"[1] == '7'; }
    assert !StartsWith("172.217.0.1", "192.168.") by { assert "172.217.0.1"[1] == '7'; }
  }

  /** The intended test accepts `172.n.*` for a two-digit octet `n` exactly when 16 <= n <= 31. */
  lemma {:induction false} IntendedAccepts172(n: nat, rest: string)
    requires 10 <= n < 100
    ensures IsPrivateIpIntended(Some("172." + TwoDigits(n) + "." + rest)) <==> 16 <= n <= 31
  {
    var s := "172." + TwoDigits(n) + "." + rest;
    assert s[..4] == "172.";
    assert !StartsWith(s, "10.") by { assert s[0] == '1' && s[1] == '7'; }
    assert !StartsWith(s, "192.168.") by { assert s[1] == '7'; }
    if 16 <= n <= 31 {
      assert StartsWith(s, "172." + TwoDigits(n) + ".");
    } else {
      forall m | 16 <= m <= 31
        ensures !StartsWith(s, "172." + TwoDigits(m) + ".")
      {
        PrefixFixesOctet(n, m, rest);
      }
    }
  }

  /** `172.<n>.<rest>` starts with `172.<m>.` only when the two-digit octets agree. */
  lemma PrefixFixesOctet(n: nat, m: nat, rest: string)
    requires 10 <= n < 100 && 10 <= m < 100
    ensures StartsWith("172." + TwoDigits(n) + "." + rest, "172." + TwoDigits(m) + ".") ==> n == m
  {
    var s := "172." + TwoDigits(n) + "." + rest;
    var p := "172." + TwoDigits(m) + ".";
    if StartsWith(s, p) {
      assert s[4..6] == p[4..6];
      TwoDigitsInjective(n, m);
    }
  }

  lemma TwoDigitsInjective(n: nat, m: nat)
    requires 10 <= n < 100 && 10 <= m < 100
    requires TwoDigits(n) == TwoDigits(m)
    ensures n == m
  {
    assert TwoDigits(n)[0] == TwoDigits(m)[0] && TwoDigits(n)[1] == TwoDigits(m)[1];
    assert n / 10 == m / 10 && n % 10 == m % 10;
  }

  /** Outside the 172 block the as-written and intended tests agree. */
  lemma AgreeOutside172(ip: Option<string>)
    requires Truthy(ip) ==> !StartsWith(ip.value, "172.")
    ensures IsPrivateIp(ip) <==> IsPrivateIpIntended(ip)
  {
  }
}

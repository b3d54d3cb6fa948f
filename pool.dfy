/** The configuration of one upstream mining-pool connection (`xmrig::Pool`):
    how it is decoded from a JSON object, gated, compared, encoded back,
    printed and turned into a client.

    `PoolConfig` is the value of a pool (the C++ class has value semantics and
    is copied into every client); its pure queries are member functions.
    `Decode` and `Encode` specify the JSON constructor and `toJSON`; the class
    `Pool` keeps the fields that those two write one after another and is
    proved against them. */
module Stratum {
  import opened Common
  import opened Json

  // Member names of the JSON object.
  const KeyDaemon := "daemon"
  const KeyDaemonPollInterval := "daemon-poll-interval"
  const KeyEnabled := "enabled"
  const KeyFingerprint := "tls-fingerprint"
  const KeyKeepalive := "keepalive"
  const KeyPass := "pass"
  const KeyRigId := "rig-id"
  const KeySelfSelect := "self-select"
  const KeyTls := "tls"
  const KeyUrl := "url"
  const KeyUser := "user"

  // Colour codes of the printable name (bright green, bright cyan, bright red).
  const Green := 32
  const Cyan := 36
  const Red := 31

  /** An xmrig `String`: either null or a character sequence. */
  type Text = Option<string>

  /** `String::toJSON`: a null string becomes a JSON null. */
  function TextJson(t: Text): Value {
    match t
    case None => Null
    case Some(s) => Str(s)
  }

  /** An endpoint (`xmrig::Url`), seen through the three queries the pool uses:
      its printed form `url()`, `isValid()` and `isTLS()`. */
  datatype Url = Url(text: Text, valid: bool, tls: bool)

  /** `Url()` and `Url(nullptr)`: no text, not valid. */
  const NullUrl := Url(None, false, false)

  /** The collaborators of the pool that live outside this model: URL parsing,
      the host/port constructor of `Url`, the two constants of the header, and
      what `setKeepAlive(int)` and `setKeepAlive(bool)` store. */
  datatype Externals = Externals(
    parseUrl: string -> Url,
    urlFromParts: (string, uint16, bool) -> Url,
    defaultPollInterval: uint64,
    keepAliveTimeout: int32,
    keepAliveFromInt: int32 -> int32,
    keepAliveFromBool: bool -> int32)

  /** `Url(const char *)`. */
  function UrlOf(ext: Externals, t: Text): Url {
    match t
    case None => NullUrl
    case Some(s) => ext.parseUrl(s)
  }

  /** The build-time features `XMRIG_FEATURE_TLS` and `XMRIG_FEATURE_HTTP`. */
  datatype Features = Features(tls: bool, http: bool)

  datatype Mode = ModePool | ModeDaemon | ModeSelfSelect

  /** The client variants the factory can create. */
  datatype ClientKind = StratumClient | DaemonClient | SelfSelectClient

  /** The mode each client variant serves. */
  function ServedMode(kind: ClientKind): Mode {
    match kind
    case StratumClient => ModePool
    case DaemonClient => ModeDaemon
    case SelfSelectClient => ModeSelfSelect
  }

  /** A created client: its variant, its id, whether it was given the user
      agent, and the pool handed to it by `setPool`. */
  datatype Client = Client(kind: ClientKind, id: int, userAgent: bool, pool: PoolConfig)

  /** One coloured piece of the printable name. */
  datatype Segment = Segment(prefix: string, colour: int, text: string)

  /** The text a `Url` prints: its string, or nothing when it has none. */
  function Display(u: Url): string {
    match u.text
    case None => ""
    case Some(s) => s
  }

  /** Every stored field of a pool. The two flags of `m_flags` (enabled and
      TLS) are two booleans. */
  datatype PoolConfig = PoolConfig(
    keepAlive: int32,
    enabled: bool,
    tlsFlag: bool,
    mode: Mode,
    fingerprint: Text,
    password: Text,
    rigId: Text,
    url: Url,
    user: Text,
    pollInterval: uint64,
    daemon: Url)
  {
    /** `isValid()`: the endpoint is valid. */
    predicate IsValid() {
      url.valid
    }

    /** `isTLS()`: TLS was requested or the endpoint's scheme implies it. */
    predicate IsTls() {
      tlsFlag || url.tls
    }

    /** `isEnabled()`: the one gate consulted before connecting. */
    function IsEnabled(f: Features): (r: bool)
      ensures r <==> enabled && IsValid() && (f.tls || !IsTls()) && (f.http || mode.ModePool?)
    {
      if !f.tls && IsTls() then false
      else if !f.http && mode.ModeDaemon? then false
      else if !f.http && mode.ModeSelfSelect? then false
      else enabled && IsValid()
    }

    /** `isEqual()`: field-by-field comparison. */
    function IsEqual(other: PoolConfig): (r: bool)
      ensures r <==> this == other
    {
      && enabled == other.enabled
      && tlsFlag == other.tlsFlag
      && keepAlive == other.keepAlive
      && mode == other.mode
      && fingerprint == other.fingerprint
      && password == other.password
      && rigId == other.rigId
      && url == other.url
      && user == other.user
      && pollInterval == other.pollInterval
      && daemon == other.daemon
    }

    /** `createClient()`: the variant is chosen by the mode alone; `None` is the
        null pointer the factory asserts against. */
    function CreateClient(f: Features, id: int): (r: Option<Client>)
      ensures r.Some? <==> mode.ModePool? || f.http
      ensures r.Some? ==> ServedMode(r.value.kind) == mode
      ensures r.Some? ==> r.value.id == id && r.value.pool == this
      ensures r.Some? ==> (r.value.userAgent <==> !mode.ModeDaemon?)
    {
      if mode.ModePool? then Some(Client(StratumClient, id, true, this))
      else if f.http && mode.ModeDaemon? then Some(Client(DaemonClient, id, false, this))
      else if f.http && mode.ModeSelfSelect? then Some(Client(SelfSelectClient, id, true, this))
      else None
    }

    /** `printableName()`: the endpoint coloured by enablement and TLS, then,
        for self-select, the daemon endpoint coloured by its own TLS. */
    function PrintableName(f: Features): (r: seq<Segment>)
      ensures |r| == if mode.ModeSelfSelect? then 2 else 1
      ensures r[0].prefix == "" && r[0].text == Display(url)
      ensures r[0].colour == Red <==> !IsEnabled(f)
      ensures r[0].colour == Green <==> IsEnabled(f) && IsTls()
      ensures r[0].colour == Cyan <==> IsEnabled(f) && !IsTls()
      ensures |r| == 2 ==> r[1].prefix == " self-select " && r[1].text == Display(daemon)
      ensures |r| == 2 ==> r[1].colour == if daemon.tls then Green else Cyan
    {
      var main := Segment("", if IsEnabled(f) then (if IsTls() then Green else Cyan) else Red, Display(url));
      if mode.ModeSelfSelect? then
        [main, Segment(" self-select ", if daemon.tls then Green else Cyan, Display(daemon))]
      else
        [main]
    }
  }

  /** The mode is tied to the daemon endpoint: self-select exactly when that
      endpoint is valid. Every constructor establishes it. */
  predicate ModeMatchesDaemon(c: PoolConfig) {
    (c.mode.ModeSelfSelect?) == c.daemon.valid
  }

  /** The state the member initialisers give a pool with endpoint `url`. */
  function Initial(ext: Externals, url: Url): (c: PoolConfig)
    ensures c.enabled && !c.tlsFlag && c.mode.ModePool? && c.keepAlive == 0
    ensures c.url == url && c.pollInterval == ext.defaultPollInterval
    ensures c.daemon == NullUrl
    ensures c.user.None? && c.password.None? && c.rigId.None? && c.fingerprint.None?
  {
    PoolConfig(0, true, false, ModePool, None, None, None, url, None, ext.defaultPollInterval, NullUrl)
  }

  /** What the `keepalive` member leaves in `m_keepAlive`: an int or a bool is
      passed to the matching `setKeepAlive`; any other value changes nothing. */
  function KeepAliveFrom(ext: Externals, v: Value, current: int32): int32 {
    if IsInt(v) then ext.keepAliveFromInt(v.n)
    else if v.Bool? then ext.keepAliveFromBool(v.b)
    else current
  }

  /** `Pool(const rapidjson::Value &object)`. An invalid endpoint stops the
      decoding with every other field at its initial value; otherwise the mode
      is chosen first-match: a valid `self-select` endpoint, then a true
      `daemon` flag, then plain pool. */
  function Decode(ext: Externals, obj: seq<Member>): (c: PoolConfig)
    ensures c.url == UrlOf(ext, GetString(obj, KeyUrl))
    ensures !c.IsValid() ==> c == Initial(ext, c.url)
    ensures c.IsValid() ==> c.daemon == UrlOf(ext, GetString(obj, KeySelfSelect))
    ensures c.IsValid() ==> c.user == GetString(obj, KeyUser) && c.password == GetString(obj, KeyPass) &&
                            c.rigId == GetString(obj, KeyRigId) && c.fingerprint == GetString(obj, KeyFingerprint)
    ensures c.IsValid() ==> c.mode == if c.daemon.valid then ModeSelfSelect
                                     else if Find(obj, KeyDaemon) == Some(Bool(true)) then ModeDaemon
                                     else ModePool
    ensures ModeMatchesDaemon(c)
    ensures c.IsValid() ==> (c.enabled <==> Find(obj, KeyEnabled) != Some(Bool(false)))
    ensures c.IsValid() ==> (c.tlsFlag <==> Find(obj, KeyTls) == Some(Bool(true)) || c.url.tls)
    ensures var v := Find(obj, KeyDaemonPollInterval);
            c.IsValid() ==> c.pollInterval == if v.Some? && IsUint64(v.value) then v.value.n else ext.defaultPollInterval
    ensures var v := GetValue(obj, KeyKeepalive);
            !c.IsValid() || !(IsInt(v) || v.Bool?) ==> c.keepAlive == 0
    ensures var v := GetValue(obj, KeyKeepalive);
            c.IsValid() && IsInt(v) ==> c.keepAlive == ext.keepAliveFromInt(v.n)
    ensures var v := GetValue(obj, KeyKeepalive);
            c.IsValid() && v.Bool? ==> c.keepAlive == ext.keepAliveFromBool(v.b)
  {
    var url := UrlOf(ext, GetString(obj, KeyUrl));
    var init := Initial(ext, url);
    if !url.valid then init
    else
      var daemon := UrlOf(ext, GetString(obj, KeySelfSelect));
      var mode :=
        if daemon.valid then ModeSelfSelect
        else if GetBool(obj, KeyDaemon, false) then ModeDaemon
        else ModePool;
      PoolConfig(
        keepAlive := KeepAliveFrom(ext, GetValue(obj, KeyKeepalive), init.keepAlive),
        enabled := GetBool(obj, KeyEnabled, true),
        tlsFlag := GetBool(obj, KeyTls, false) || url.tls,
        mode := mode,
        fingerprint := GetString(obj, KeyFingerprint),
        password := GetString(obj, KeyPass),
        rigId := GetString(obj, KeyRigId),
        url := url,
        user := GetString(obj, KeyUser),
        pollInterval := GetUint64(obj, KeyDaemonPollInterval, ext.defaultPollInterval),
        daemon := daemon)
  }

  /** How `toJSON` writes `m_keepAlive`: as a boolean for 0 and for the default
      timeout, as the integer otherwise. */
  function KeepAliveJson(ext: Externals, k: int32): Value {
    if k == 0 || k == ext.keepAliveTimeout then Bool(k > 0) else Number(k)
  }

  /** `toJSON()`: the members in the order the source adds them, with the
      mode deciding which blocks are present. */
  function Encode(ext: Externals, c: PoolConfig): seq<Member> {
    var head := [Member(KeyUrl, TextJson(c.url.text))] + [Member(KeyUser, TextJson(c.user))];
    var credentials :=
      if c.mode.ModeDaemon? then head
      else head + [Member(KeyPass, TextJson(c.password))] + [Member(KeyRigId, TextJson(c.rigId))]
                + [Member(KeyKeepalive, KeepAliveJson(ext, c.keepAlive))];
    var flags := credentials + [Member(KeyEnabled, Bool(c.enabled))] + [Member(KeyTls, Bool(c.IsTls()))]
                 + [Member(KeyFingerprint, TextJson(c.fingerprint))] + [Member(KeyDaemon, Bool(c.mode.ModeDaemon?))];
    if c.mode.ModeDaemon? then flags + [Member(KeyDaemonPollInterval, Number(c.pollInterval))]
    else flags + [Member(KeySelfSelect, TextJson(c.daemon.text))]
  }

  /** `toJSON` never writes the same name twice, so every member it writes
      is the one `FindMember` returns. */
  lemma EncodeDistinctNames(ext: Externals, c: PoolConfig)
    ensures DistinctNames(Encode(ext, c))
  {
  }

  /** A pool object. Its fields are written one after another by the
      constructors and by `setKeepAlive`; `Value()` is the pool they make up. */
  class Pool {
    var keepAlive: int32
    var enabled: bool
    var tlsFlag: bool
    var mode: Mode
    var fingerprint: Text
    var password: Text
    var rigId: Text
    var url: Url
    var user: Text
    var pollInterval: uint64
    var daemon: Url

    function Value(): PoolConfig
      reads this
    {
      PoolConfig(keepAlive, enabled, tlsFlag, mode, fingerprint, password, rigId, url, user, pollInterval, daemon)
    }

    predicate Valid()
      reads this
    {
      ModeMatchesDaemon(Value())
    }

    /** `Pool(const char *url)`. */
    constructor FromUrl(ext: Externals, u: Text)
      ensures Valid()
      ensures Value() == Initial(ext, UrlOf(ext, u))
    {
      keepAlive := 0;
      enabled, tlsFlag := true, false;
      mode := ModePool;
      fingerprint, password, rigId, user := None, None, None, None;
      pollInterval := ext.defaultPollInterval;
      daemon := NullUrl;
      url := UrlOf(ext, u);
    }

    /** `Pool(const rapidjson::Value &object)`. The fields are written in the
        source's order; `setKeepAlive` is inlined as the value it stores. */
    constructor FromJson(ext: Externals, obj: seq<Member>)
      ensures Valid()
      ensures Value() == Decode(ext, obj)
    {
      keepAlive := 0;
      enabled, tlsFlag := true, false;
      mode := ModePool;
      fingerprint, password, rigId, user := None, None, None, None;
      pollInterval := ext.defaultPollInterval;
      daemon := NullUrl;
      var endpoint := UrlOf(ext, GetString(obj, KeyUrl));
      url := endpoint;

      if endpoint.valid {
        user := GetString(obj, KeyUser);
        password := GetString(obj, KeyPass);
        rigId := GetString(obj, KeyRigId);
        fingerprint := GetString(obj, KeyFingerprint);
        pollInterval := GetUint64(obj, KeyDaemonPollInterval, ext.defaultPollInterval);
        var selfSelect := UrlOf(ext, GetString(obj, KeySelfSelect));
        daemon := selfSelect;

        enabled := GetBool(obj, KeyEnabled, true);
        tlsFlag := GetBool(obj, KeyTls, false) || endpoint.tls;

        if selfSelect.valid {
          mode := ModeSelfSelect;
        } else if GetBool(obj, KeyDaemon, false) {
          mode := ModeDaemon;
        }

        var keepalive := GetValue(obj, KeyKeepalive);
        if IsInt(keepalive) {
          keepAlive := ext.keepAliveFromInt(keepalive.n);
        } else if keepalive.Bool? {
          keepAlive := ext.keepAliveFromBool(keepalive.b);
        }
      }
    }

    /** `Pool(host, port, user, password, keepAlive, tls)`: the TLS flag is set
        from the argument whatever the endpoint says. */
    constructor FromParts(ext: Externals, host: string, port: uint16, user: Text, password: Text, keepAlive: int32, tls: bool)
      ensures Valid()
      ensures Value() == Initial(ext, ext.urlFromParts(host, port, tls)).(
                keepAlive := keepAlive, tlsFlag := tls, user := user, password := password)
    {
      this.keepAlive := keepAlive;
      enabled, tlsFlag := true, false;
      mode := ModePool;
      fingerprint, rigId := None, None;
      this.password := password;
      this.user := user;
      pollInterval := ext.defaultPollInterval;
      daemon := NullUrl;
      url := ext.urlFromParts(host, port, tls);
      new;
      tlsFlag := tls;
    }

    /** `setKeepAlive(int)`. */
    method SetKeepAliveInt(ext: Externals, k: int32)
      modifies this
      ensures Value() == old(Value()).(keepAlive := ext.keepAliveFromInt(k))
      ensures Valid() == old(Valid())
    {
      keepAlive := ext.keepAliveFromInt(k);
    }

    /** `setKeepAlive(bool)`. */
    method SetKeepAliveBool(ext: Externals, enable: bool)
      modifies this
      ensures Value() == old(Value()).(keepAlive := ext.keepAliveFromBool(enable))
      ensures Valid() == old(Valid())
    {
      keepAlive := ext.keepAliveFromBool(enable);
    }

    /** `toJSON()`: members appended one by one under the mode conditions. */
    method ToJson(ext: Externals) returns (obj: seq<Member>)
      ensures obj == Encode(ext, Value())
    {
      obj := [Member(KeyUrl, TextJson(url.text))];
      obj := obj + [Member(KeyUser, TextJson(user))];

      if !mode.ModeDaemon? {
        obj := obj + [Member(KeyPass, TextJson(password))];
        obj := obj + [Member(KeyRigId, TextJson(rigId))];

        if keepAlive == 0 || keepAlive == ext.keepAliveTimeout {
          obj := obj + [Member(KeyKeepalive, Bool(keepAlive > 0))];
        } else {
          obj := obj + [Member(KeyKeepalive, Number(keepAlive))];
        }
      }

      obj := obj + [Member(KeyEnabled, Bool(enabled))];
      obj := obj + [Member(KeyTls, Bool(tlsFlag || url.tls))];
      obj := obj + [Member(KeyFingerprint, TextJson(fingerprint))];
      obj := obj + [Member(KeyDaemon, Bool(mode.ModeDaemon?))];

      if mode.ModeDaemon? {
        obj := obj + [Member(KeyDaemonPollInterval, Number(pollInterval))];
      } else {
        obj := obj + [Member(KeySelfSelect, TextJson(daemon.text))];
      }
    }
  }
}

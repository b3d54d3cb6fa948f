/** What the encoder writes, and how far decoding its output gives the pool
    back. The round trip loses the members `toJSON` leaves out (the poll
    interval outside daemon mode; password, rig id, keep-alive and the
    self-select endpoint in daemon mode), and the TLS flag comes back as
    `isTLS()`, which `toJSON` writes in its place. */
module PoolProperties {
  import opened Common
  import opened Json
  import opened Stratum

  /** Parsing the printed form of `u` gives `u` back. */
  predicate Reparses(ext: Externals, u: Url) {
    UrlOf(ext, u.text) == u
  }

  /** The two `setKeepAlive` overloads and the timeout constant behave as
      documented: `true` stores the (positive) default timeout, `false`
      stores 0. */
  predicate KeepAliveSettersAsDocumented(ext: Externals) {
    && ext.keepAliveTimeout > 0
    && ext.keepAliveFromBool(true) == ext.keepAliveTimeout
    && ext.keepAliveFromBool(false) == 0
  }

  /** `keepAlive` survives being written as `toJSON` writes it: the int
      setter stores the values that are written as integers. */
  predicate KeepAliveSurvives(ext: Externals, k: int32) {
    && KeepAliveSettersAsDocumented(ext)
    && (k == 0 || k == ext.keepAliveTimeout || ext.keepAliveFromInt(k) == k)
  }

  /** The members `toJSON` writes in daemon mode: endpoint, user, flags,
      fingerprint and a true `daemon`. */
  lemma DaemonEncodeFields(ext: Externals, c: PoolConfig)
    requires c.mode.ModeDaemon?
    ensures var e := Encode(ext, c);
            && Find(e, KeyUrl) == Some(TextJson(c.url.text))
            && Find(e, KeyUser) == Some(TextJson(c.user))
            && Find(e, KeyEnabled) == Some(Bool(c.enabled))
            && Find(e, KeyTls) == Some(Bool(c.IsTls()))
            && Find(e, KeyFingerprint) == Some(TextJson(c.fingerprint))
            && Find(e, KeyDaemon) == Some(Bool(true))
  {
    var e := Encode(ext, c);
    EncodeDistinctNames(ext, c);
    FindDistinct(e, 0);
    FindDistinct(e, 1);
    FindDistinct(e, 2);
    FindDistinct(e, 3);
    FindDistinct(e, 4);
    FindDistinct(e, 5);
  }

  /** In daemon mode `toJSON` writes the poll interval. */
  lemma DaemonEncodePollInterval(ext: Externals, c: PoolConfig)
    requires c.mode.ModeDaemon?
    ensures Find(Encode(ext, c), KeyDaemonPollInterval) == Some(Number(c.pollInterval))
  {
    EncodeDistinctNames(ext, c);
    FindDistinct(Encode(ext, c), 6);
  }

  /** In daemon mode `toJSON` writes no password, rig id, keep-alive or
      self-select endpoint. */
  lemma DaemonEncodeOmits(ext: Externals, c: PoolConfig)
    requires c.mode.ModeDaemon?
    ensures var e := Encode(ext, c);
            && Find(e, KeyPass) == None
            && Find(e, KeyRigId) == None
            && Find(e, KeyKeepalive) == None
            && Find(e, KeySelfSelect) == None
  {
    var e := Encode(ext, c);
    FindAbsent(e, KeyPass);
    FindAbsent(e, KeyRigId);
    FindAbsent(e, KeyKeepalive);
    FindAbsent(e, KeySelfSelect);
  }

  /** The members `toJSON` writes first outside daemon mode: endpoint,
      credentials and the keep-alive (a boolean for 0 and the default
      timeout, the integer otherwise). */
  lemma PoolEncodeCredentials(ext: Externals, c: PoolConfig)
    requires !c.mode.ModeDaemon?
    ensures var e := Encode(ext, c);
            && Find(e, KeyUrl) == Some(TextJson(c.url.text))
            && Find(e, KeyUser) == Some(TextJson(c.user))
            && Find(e, KeyPass) == Some(TextJson(c.password))
            && Find(e, KeyRigId) == Some(TextJson(c.rigId))
            && Find(e, KeyKeepalive) == Some(
                 if c.keepAlive == 0 || c.keepAlive == ext.keepAliveTimeout
                 then Bool(c.keepAlive > 0) else Number(c.keepAlive))
  {
    var e := Encode(ext, c);
    EncodeDistinctNames(ext, c);
    assert e[..5] == [Member(KeyUrl, TextJson(c.url.text)), Member(KeyUser, TextJson(c.user)),
                      Member(KeyPass, TextJson(c.password)), Member(KeyRigId, TextJson(c.rigId)),
                      Member(KeyKeepalive, KeepAliveJson(ext, c.keepAlive))];
    FindDistinct(e, 0);
    FindDistinct(e, 1);
    FindDistinct(e, 2);
    FindDistinct(e, 3);
    FindDistinct(e, 4);
  }

  /** The flags and the fingerprint `toJSON` writes outside daemon mode. */
  lemma PoolEncodeFlags(ext: Externals, c: PoolConfig)
    requires !c.mode.ModeDaemon?
    ensures var e := Encode(ext, c);
            && Find(e, KeyEnabled) == Some(Bool(c.enabled))
            && Find(e, KeyTls) == Some(Bool(c.IsTls()))
            && Find(e, KeyFingerprint) == Some(TextJson(c.fingerprint))
  {
    var e := Encode(ext, c);
    EncodeDistinctNames(ext, c);
    FindDistinct(e, 5);
    FindDistinct(e, 6);
    FindDistinct(e, 7);
  }

  /** Outside daemon mode `toJSON` writes a false `daemon` and the
      self-select endpoint, and no poll interval. */
  lemma PoolEncodeSelfSelect(ext: Externals, c: PoolConfig)
    requires !c.mode.ModeDaemon?
    ensures var e := Encode(ext, c);
            && Find(e, KeyDaemon) == Some(Bool(false))
            && Find(e, KeySelfSelect) == Some(TextJson(c.daemon.text))
            && Find(e, KeyDaemonPollInterval) == None
  {
    var e := Encode(ext, c);
    EncodeDistinctNames(ext, c);
    FindDistinct(e, 8);
    FindDistinct(e, 9);
    FindAbsent(e, KeyDaemonPollInterval);
  }

  /** With the setters as documented, a keep-alive written by `toJSON` is read
      back as the same value exactly when it survives the int setter: 0 and
      the timeout are written as booleans and always come back. */
  lemma KeepAliveRoundTrip(ext: Externals, k: int32)
    requires KeepAliveSettersAsDocumented(ext)
    ensures KeepAliveFrom(ext, KeepAliveJson(ext, k), 0) == k <==> KeepAliveSurvives(ext, k)
  {
  }

  /** Decoding `toJSON`'s output of a pool or self-select configuration gives
      every field back except three. The poll interval is not written and
      comes back as the default. The TLS flag comes back as `isTLS()`, which
      is what `toJSON` writes, so a TLS-scheme endpoint whose flag was clear
      (a pool built from a URL string) comes back with the flag set. The
      keep-alive comes back as what the setters store for the written value,
      which is the keep-alive itself when `KeepAliveSurvives` holds. */
  lemma {:induction false} RoundTrip(ext: Externals, c: PoolConfig)
    requires !c.mode.ModeDaemon?
    requires c.IsValid() && ModeMatchesDaemon(c)
    requires Reparses(ext, c.url) && Reparses(ext, c.daemon)
    ensures Decode(ext, Encode(ext, c)) ==
              c.(pollInterval := ext.defaultPollInterval, tlsFlag := c.IsTls(),
                 keepAlive := KeepAliveFrom(ext, KeepAliveJson(ext, c.keepAlive), 0))
  {
    var e := Encode(ext, c);
    PoolEncodeCredentials(ext, c);
    PoolEncodeFlags(ext, c);
    PoolEncodeSelfSelect(ext, c);
    assert GetString(e, KeyUrl) == c.url.text && GetString(e, KeySelfSelect) == c.daemon.text;
    assert GetValue(e, KeyKeepalive) == KeepAliveJson(ext, c.keepAlive);
  }

  /** Decoding `toJSON`'s output of a daemon configuration gives every field
      back except password, rig id, keep-alive and the self-select endpoint,
      which are not written and come back at their initial values, and the
      TLS flag, which comes back as `isTLS()`. */
  lemma {:induction false} DaemonRoundTrip(ext: Externals, c: PoolConfig)
    requires c.mode.ModeDaemon?
    requires c.IsValid() && ModeMatchesDaemon(c)
    requires Reparses(ext, c.url)
    ensures Decode(ext, Encode(ext, c)) ==
              c.(password := None, rigId := None, keepAlive := 0, daemon := NullUrl, tlsFlag := c.IsTls())
  {
    DaemonEncodeFields(ext, c);
    DaemonEncodePollInterval(ext, c);
    DaemonEncodeOmits(ext, c);
  }

  /** Exactly when `isEqual` holds between a pool and the decoding of its
      JSON: the TLS flag must already be set whenever the endpoint's scheme
      implies TLS; then, outside daemon mode, the poll interval must be the
      default and the keep-alive must survive the setters, and in daemon mode
      no field that `toJSON` drops may be set. */
  lemma {:induction false} RoundTripIsEqualExactly(ext: Externals, c: PoolConfig)
    requires c.IsValid() && ModeMatchesDaemon(c)
    requires KeepAliveSettersAsDocumented(ext)
    requires Reparses(ext, c.url) && (!c.mode.ModeDaemon? ==> Reparses(ext, c.daemon))
    ensures Decode(ext, Encode(ext, c)).IsEqual(c) <==>
              (c.url.tls ==> c.tlsFlag) &&
              if c.mode.ModeDaemon?
              then c.password.None? && c.rigId.None? && c.keepAlive == 0 && c.daemon == NullUrl
              else c.pollInterval == ext.defaultPollInterval && KeepAliveSurvives(ext, c.keepAlive)
  {
    if c.mode.ModeDaemon? {
      DaemonRoundTrip(ext, c);
    } else {
      RoundTrip(ext, c);
      KeepAliveRoundTrip(ext, c.keepAlive);
    }
  }

  /** A pool built from a URL string whose scheme implies TLS keeps the TLS
      flag clear; its JSON round trip sets the flag, so `isEqual` fails even
      though every other field comes back. */
  lemma UrlStringTlsPoolRoundTrip(ext: Externals, u: Url)
    requires u.valid && u.tls && Reparses(ext, u)
    requires KeepAliveSettersAsDocumented(ext)
    ensures Decode(ext, Encode(ext, Initial(ext, u))) == Initial(ext, u).(tlsFlag := true)
    ensures !Decode(ext, Encode(ext, Initial(ext, u))).IsEqual(Initial(ext, u))
  {
    RoundTrip(ext, Initial(ext, u));
  }

  /** The gate protects the factory: an enabled pool always gets a client,
      so the factory's assertion cannot fire for it. */
  lemma EnabledPoolGetsClient(c: PoolConfig, f: Features, id: int)
    requires c.IsEnabled(f)
    ensures c.CreateClient(f, id).Some?
    ensures c.CreateClient(f, id).value.pool == c
  {
  }

  /** `isEqual` is reflexive and symmetric, and it is exactly the field-by-field
      comparison of the source: any single differing field makes it false. */
  lemma IsEqualProperties(a: PoolConfig, b: PoolConfig)
    ensures a.IsEqual(a)
    ensures a.IsEqual(b) == b.IsEqual(a)
    ensures a.IsEqual(b) <==>
              a.enabled == b.enabled && a.tlsFlag == b.tlsFlag && a.keepAlive == b.keepAlive &&
              a.mode == b.mode && a.fingerprint == b.fingerprint && a.password == b.password &&
              a.rigId == b.rigId && a.url == b.url && a.user == b.user &&
              a.pollInterval == b.pollInterval && a.daemon == b.daemon
  {
  }
}

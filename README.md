# Pool configuration model (xmrig `Pool`)

This project is a Dafny model of `xmrig::Pool`. A `Pool` is the configuration of one upstream
mining-pool connection: its endpoint, credentials, flags, keep-alive and connection mode. The
model covers:

- the three constructors, including decoding from a JSON object;
- the `isEnabled` gate and the `isEqual` comparison;
- the client factory;
- the JSON encoder and the colour-coded printable name.

Files:

- `common.dfy` (module `Common`): `Option` and the fixed-width integer ranges the pool stores
  (`int32` keep-alive, `uint16` port, `uint64` poll interval).
- `json.dfy` (module `Json`): a rapidjson value as a datatype. An object is the ordered sequence
  of its members. `Find` is `FindMember`, which returns the first member with a name. The
  `Json::getString/getBool/getUint64/getValue` lookups are built on it.
- `pool.dfy` (module `Stratum`): the model of `Pool.cpp`.
  - `PoolConfig` is the value of a pool: its eleven stored fields, with the two bits of
    `m_flags` (enabled and TLS) as two booleans. It carries the pure queries `IsEnabled`,
    `IsEqual`, `CreateClient` and `PrintableName`.
  - `Decode` and `Encode` specify the JSON constructor and `toJSON`.
  - The class `Pool` holds the same fields as variables. Its constructors, the two
    `setKeepAlive` overloads and `ToJson` write them step by step, as the source does. Each one
    is proved against `Initial`, `Decode` or `Encode`, and each constructor establishes the
    invariant that the mode is self-select exactly when the daemon endpoint is valid.
- `pool_properties.dfy` (module `PoolProperties`): which members the encoder writes in each
  mode, and the round trip `Decode(Encode(c))`. The round trip loses the members the encoder
  leaves out, and it returns the TLS flag as `isTLS()`, the value the encoder writes.

Collaborators that the pool uses but that live elsewhere are fields of the `Externals` record:

- URL parsing (`Url(const char *)`) and `Url(host, port, tls)`;
- the constants `kDefaultPollInterval` and `kKeepAliveTimeout`;
- the values the two `setKeepAlive` overloads store.

The build features `XMRIG_FEATURE_TLS` and `XMRIG_FEATURE_HTTP` are the `Features` record. A
`Url` is seen only through its printed text, `isValid()` and `isTLS()`. The round-trip lemmas
state their assumptions about these collaborators as preconditions:

- parsing an endpoint's printed text gives the endpoint back (`Reparses`). Outside daemon mode
  this is also assumed of the self-select endpoint, which in POOL mode is always invalid, so
  the assumption covers invalid endpoints too, not only well-formed URLs;
- `setKeepAlive(true)` stores the positive default timeout and `setKeepAlive(false)` stores 0
  (`KeepAliveSettersAsDocumented`, used where the result depends on it).

Whether `setKeepAlive(int)` keeps each value the encoder writes as an integer
(`KeepAliveSurvives`) is not assumed: `RoundTrip` gives the keep-alive back as what the
setters store for the written value, and `RoundTripIsEqualExactly` makes survival part of its
condition. `Pool(host, port, ...)` stores its keep-alive raw (Pool.cpp:113), so a pool whose
keep-alive the int setter would change can be built.

`toJSON` does not write every stored field, and it writes `isTLS()` in place of the TLS flag.
So `decode(encode(c))` is not `c` in every mode:

- outside daemon mode, `toJSON` does not write `daemon-poll-interval`, so the poll interval comes
  back as the default, and the keep-alive comes back through the setters, which may change it;
- in daemon mode it writes neither `pass`, `rig-id` nor `keepalive`, so these come back at
  their initial values;
- in daemon mode it does not write `self-select` either, so the self-select endpoint comes back
  at its initial value. This matters for every self-select endpoint other than the null one
  (`NullUrl`);
- in every mode, `toJSON` writes `tls` as `isTLS()` (Pool.cpp:214), and decoding sets the flag
  from it (Pool.cpp:93). A pool built from a URL string whose scheme implies TLS
  (Pool.cpp:68-73) has the flag clear, so it comes back with the flag set and fails `isEqual`
  (`UrlStringTlsPoolRoundTrip`).

`RoundTripIsEqualExactly` states exactly when the round trip passes `isEqual`.

`kDefaultUser` and `kDefaultPassword` (Pool.cpp:62-63) are used by the `user()` and
`password()` accessors of the header. Decoding stores a null string, and `isEqual` compares
the stored fields, so the model keeps the raw nullable strings (`Text`).

## Model

| member | source | states |
|---|---|---|
| Stratum.Initial | src/base/net/stratum/Pool.cpp:76-83 | the member initialisers: enabled set, TLS clear, POOL mode, keep-alive 0, the default poll interval, null strings, no daemon endpoint |
| Stratum.Decode | src/base/net/stratum/Pool.cpp:76-109 | the endpoint is the parsed `url` member. If it is invalid, every other field is at its initial value. Otherwise: enabled unless `enabled` is false; TLS flag iff `tls` is true or the scheme implies TLS; mode chosen first-match (valid self-select, then `daemon` true, then pool), so a valid self-select endpoint wins over `daemon: true`; mode is self-select iff the daemon endpoint is valid; poll interval from a uint64 member, else the default; keep-alive set only by an int or a bool `keepalive`; user, password, rig id and fingerprint are the `user`, `pass`, `rig-id` and `tls-fingerprint` strings |
| Stratum.Pool.FromJson | src/base/net/stratum/Pool.cpp:76-109 | the fields written one after another end equal to `Decode` of the object, and the mode/daemon invariant holds |
| Stratum.Pool.FromUrl | src/base/net/stratum/Pool.cpp:68-73 | only the endpoint is set from the string; every other field is at its initial value |
| Stratum.Pool.FromParts | src/base/net/stratum/Pool.cpp:112-121 | endpoint built from host, port and tls; user, password and keep-alive stored as given; TLS flag equals the argument whatever the endpoint says |
| Stratum.Pool.SetKeepAliveInt | src/base/net/stratum/Pool.cpp:102-105 | only the keep-alive changes, to what the int setter stores; the invariant is kept |
| Stratum.Pool.SetKeepAliveBool | src/base/net/stratum/Pool.cpp:106-108 | only the keep-alive changes, to what the bool setter stores; the invariant is kept |
| Stratum.PoolConfig.IsEnabled | src/base/net/stratum/Pool.cpp:124-145 | enabled iff the flag is set, the endpoint is valid, TLS is built in or the pool is not TLS, and HTTP is built in or the mode is POOL |
| Stratum.PoolConfig.IsEqual | src/base/net/stratum/Pool.cpp:148-161 | true iff the two pools agree on every stored field |
| PoolProperties.IsEqualProperties | src/base/net/stratum/Pool.cpp:148-161 | `isEqual` is reflexive and symmetric, and it holds iff all eleven stored fields agree, so any single differing field makes it false |
| Stratum.PoolConfig.CreateClient | src/base/net/stratum/Pool.cpp:164-187 | a client exists iff the mode is POOL or HTTP is built in; its variant serves the pool's mode; it gets the requested id and, through `setPool`, this very pool; every variant except the daemon client gets the user agent |
| PoolProperties.EnabledPoolGetsClient | src/base/net/stratum/Pool.cpp:164-187 | for an enabled pool the factory always yields a client holding that pool, so its assertion cannot fire |
| Stratum.Pool.ToJson | src/base/net/stratum/Pool.cpp:190-226 | the members appended one by one under the mode conditions form exactly `Encode` of the pool |
| Stratum.EncodeDistinctNames | src/base/net/stratum/Pool.cpp:196-223 | the encoded object never holds the same name twice, so every member written is the one `FindMember` returns |
| PoolProperties.PoolEncodeCredentials | src/base/net/stratum/Pool.cpp:198-211 | outside daemon mode: `url`, `user`, `pass` and `rig-id` carry the pool's values; `keepalive` is the boolean (keep-alive > 0) when the keep-alive is 0 or the default timeout, and the integer otherwise |
| PoolProperties.PoolEncodeFlags | src/base/net/stratum/Pool.cpp:213-215 | outside daemon mode: `enabled`, `tls` (the pool's `isTLS`) and `tls-fingerprint` carry the pool's values |
| PoolProperties.PoolEncodeSelfSelect | src/base/net/stratum/Pool.cpp:216-223 | outside daemon mode: `daemon` is false, `self-select` carries the daemon endpoint's text, and there is no `daemon-poll-interval` |
| PoolProperties.DaemonEncodeFields | src/base/net/stratum/Pool.cpp:198-216 | in daemon mode: `url`, `user`, `enabled`, `tls` and `tls-fingerprint` carry the pool's values and `daemon` is true |
| PoolProperties.DaemonEncodePollInterval | src/base/net/stratum/Pool.cpp:218-220 | in daemon mode `daemon-poll-interval` carries the poll interval |
| PoolProperties.DaemonEncodeOmits | src/base/net/stratum/Pool.cpp:201-211 | in daemon mode `pass`, `rig-id`, `keepalive` and `self-select` are absent |
| PoolProperties.KeepAliveRoundTrip | src/base/net/stratum/Pool.cpp:205-210 | with `setKeepAlive(bool)` as documented, a keep-alive written as the encoder writes it is read back unchanged by the decoder's int/bool rule iff the int setter keeps it (0 and the timeout, written as booleans, always come back) |
| PoolProperties.RoundTrip | src/base/net/stratum/Pool.cpp:198-223 | for a valid pool or self-select configuration, decoding the encoding gives every field back, except that the poll interval comes back as the default, the TLS flag as `isTLS()`, and the keep-alive as what the setters store for the written value |
| PoolProperties.DaemonRoundTrip | src/base/net/stratum/Pool.cpp:198-223 | for a valid daemon configuration, decoding the encoding gives every field back except the password, rig id, keep-alive and self-select endpoint, which come back at their initial values, and the TLS flag, which comes back as `isTLS()` |
| PoolProperties.RoundTripIsEqualExactly | src/base/net/stratum/Pool.cpp:198-223 | the decoded encoding `isEqual`s the pool iff the TLS flag is already set whenever the scheme implies TLS and, in daemon mode, no dropped field is set, or otherwise the poll interval is the default and the int setter keeps the keep-alive |
| PoolProperties.UrlStringTlsPoolRoundTrip | src/base/net/stratum/Pool.cpp:68-73 | a pool built from a URL string whose scheme implies TLS comes back from the round trip with the TLS flag set, and so fails `isEqual` |
| Stratum.PoolConfig.PrintableName | src/base/net/stratum/Pool.cpp:229-238 | the main segment has no prefix and shows the endpoint in 31 iff the pool is not enabled, in 32 iff it is enabled and TLS, and in 36 iff it is enabled and plain; a " self-select " segment with the daemon endpoint follows iff the mode is SELF_SELECT, in 32 iff the daemon is TLS and otherwise 36, never 31 |

## Left out

- Stratum.Initial: keep-alive 0, POOL mode and the null strings come from the in-class initialisers of `Pool.h`, which is not part of this model; these defaults are assumed, and only the flags, poll interval and endpoint are set at the cited lines.

- The `APP_DEBUG` `print()` logging (`src/base/net/stratum/Pool.cpp:241-252`): it is pure I/O.
- Stratum.PoolConfig.CreateClient: the concrete `Client`, `DaemonClient` and `SelfSelectClient` classes, the heap allocation, the listener handle and the user-agent string are not modelled. The result records only the variant, the id, whether a user agent is passed and the pool given to `setPool`. The debug-build `assert` is not modelled either: a missing client is `None`, as in a release build.
- URL parsing, `Url(host, port, tls)`, `Url::isValid()` and `Url::isTLS()` are not part of this model. They are abstract fields of `Externals`, or the `valid`/`tls` fields of `Url`.
- `Pool::isTLS()` and `Pool::isValid()` live in the header, which is not part of this model. They are taken to be "TLS flag or TLS endpoint" and "valid endpoint".
- `Json::getString/getBool/getUint64/getValue` (`Json.cpp` is not part of this model) are modelled as a lookup of the first member with the name. The value is used when it has the expected type, and the default is used otherwise.
- JSON numbers are integers only. Floating-point numbers and the rapidjson allocator and document are left out.
- `kDefaultPollInterval`, `kKeepAliveTimeout` and the bodies of `setKeepAlive(int)` and `setKeepAlive(bool)` belong to the header. They are abstract, and the model asserts nothing about how negative integers are stored.
- The `user()` and `password()` accessors with their `"x"` defaults (`kDefaultUser`, `kDefaultPassword`) belong to the header. The model keeps the stored nullable strings.
- Stratum.PoolConfig.PrintableName: the ANSI escape bytes are replaced by the integer colour codes of each segment. An endpoint with no text prints as the empty string. In the source this depends on `String::data()`, which is not part of this model.
- The bit set `m_flags` is two booleans. This file sets no other flag.

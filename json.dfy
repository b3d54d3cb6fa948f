/** The structured-data boundary of the pool configuration: a rapidjson value
    and the `Json::get*` lookups that the decoder uses.

    An object is kept as the ordered sequence of its members, as rapidjson keeps
    it: `AddMember` appends, and `FindMember` returns the FIRST member with the
    requested name (an object may hold the same name twice). */
module Json {
  import opened Common

  /** A rapidjson value. Numbers are integers; rapidjson's type tests
      (`IsInt`, `IsUint64`) are range tests on them. */
  datatype Value =
    | Null
    | Bool(b: bool)
    | Number(n: int)
    | Str(s: string)
    | Array(items: seq<Value>)
    | Object(members: seq<Member>)

  datatype Member = Member(name: string, value: Value)

  /** rapidjson `IsInt()`: a number that fits in 32 bits. */
  predicate IsInt(v: Value) {
    v.Number? && -0x8000_0000 <= v.n < 0x8000_0000
  }

  /** rapidjson `IsUint64()`: a number in [0, 2^64). */
  predicate IsUint64(v: Value) {
    v.Number? && 0 <= v.n < 0x1_0000_0000_0000_0000
  }

  /** `FindMember`: the value of the first member called `key`, if any. */
  function Find(obj: seq<Member>, key: string): Option<Value> {
    if obj == [] then None
    else if obj[0].name == key then Some(obj[0].value)
    else Find(obj[1..], key)
  }

  /** No name occurs twice among the members. */
  predicate DistinctNames(obj: seq<Member>) {
    forall i, j :: 0 <= i < j < |obj| ==> obj[i].name != obj[j].name
  }

  /** The member at position `i` is what `FindMember` returns for its name when
      no earlier member has that name. */
  lemma {:induction false} FindAt(obj: seq<Member>, i: nat)
    requires i < |obj|
    requires forall j :: 0 <= j < i ==> obj[j].name != obj[i].name
    ensures Find(obj, obj[i].name) == Some(obj[i].value)
  {
    if i > 0 {
      var tail := obj[1..];
      assert tail[i - 1] == obj[i];
      forall j | 0 <= j < i - 1 ensures tail[j].name != tail[i - 1].name {
        assert tail[j] == obj[j + 1];
      }
      FindAt(tail, i - 1);
    }
  }

  /** In an object with distinct names every member is found by its name. */
  lemma FindDistinct(obj: seq<Member>, i: nat)
    requires DistinctNames(obj) && i < |obj|
    ensures Find(obj, obj[i].name) == Some(obj[i].value)
  {
    FindAt(obj, i);
  }

  /** `FindMember` finds nothing when no member carries the name. */
  lemma {:induction false} FindAbsent(obj: seq<Member>, key: string)
    requires forall m :: m in obj ==> m.name != key
    ensures Find(obj, key) == None
  {
    if obj != [] {
      assert obj[0] in obj;
      forall m | m in obj[1..] ensures m.name != key {
        assert m in obj;
      }
      FindAbsent(obj[1..], key);
    }
  }

  /** `Json::getString(obj, key)`: the string if the member exists and is a
      string, otherwise the default null pointer (here `None`). */
  function GetString(obj: seq<Member>, key: string): Option<string> {
    match Find(obj, key)
    case Some(Str(s)) => Some(s)
    case _ => None
  }

  /** `Json::getBool(obj, key, defaultValue)`. */
  function GetBool(obj: seq<Member>, key: string, default: bool): bool {
    match Find(obj, key)
    case Some(Bool(b)) => b
    case _ => default
  }

  /** `Json::getUint64(obj, key, defaultValue)`. */
  function GetUint64(obj: seq<Member>, key: string, default: uint64): uint64 {
    match Find(obj, key)
    case Some(v) => if IsUint64(v) then v.n else default
    case None => default
  }

  /** `Json::getValue(obj, key)`: the member's value, or a null value. */
  function GetValue(obj: seq<Member>, key: string): Value {
    match Find(obj, key)
    case Some(v) => v
    case None => Null
  }
}

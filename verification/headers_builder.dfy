/** `HeadersBuilder`: an immutable builder of HTTP header dictionaries. */
module Headers {
  import opened Wrappers

  const AuthorizationKey: string := "Authorization"
  const BearerPrefix: string := "Bearer "

  /** A builder holds the headers accumulated so far; every step returns a
      new value and leaves the receiver as it was. */
  datatype HeadersBuilder = HeadersBuilder(headers: map<string, string>) {

    /** `build()`: the accumulated dictionary. */
    function Build(): map<string, string> {
      headers
    }

    /** `add(key:value:)`: a new builder with `key` set to `value`, last write
        winning; the other entries are those of the receiver. */
    function Add(key: string, value: string): (b: HeadersBuilder)
      ensures key in b.Build() && b.Build()[key] == value
      ensures b.Build().Keys == Build().Keys + {key}
      ensures forall k :: k in Build() && k != key ==> b.Build()[k] == Build()[k]
    {
      HeadersBuilder(headers[key := value])
    }

    /** `addAuthorization()`, with the access token read from the environment
        passed in as `token`. */
    function AddAuthorization(token: string): (b: HeadersBuilder)
      ensures b == Add(AuthorizationKey, BearerPrefix + token)
      ensures b.Build()[AuthorizationKey] == "Bearer " + token
    {
      Add(AuthorizationKey, BearerPrefix + token)
    }
  }

  /** `init()`: a builder without headers. */
  function Empty(): (b: HeadersBuilder)
    ensures b.Build() == map[]
  {
    HeadersBuilder(map[])
  }

  /** The builder reached from `Empty()` by adding `pairs` left to right. */
  function AddAll(pairs: seq<(string, string)>): HeadersBuilder {
    if pairs == [] then Empty()
    else AddAll(pairs[..|pairs| - 1]).Add(pairs[|pairs| - 1].0, pairs[|pairs| - 1].1)
  }

  /** Reference meaning of a sequence of `add` calls: the value of the last
      pair whose key is `key`. */
  function LastWrite(pairs: seq<(string, string)>, key: string): Option<string> {
    if pairs == [] then None
    else if pairs[|pairs| - 1].0 == key then Some(pairs[|pairs| - 1].1)
    else LastWrite(pairs[..|pairs| - 1], key)
  }

  /** `build()` after a chain of `add` calls yields exactly the last value
      written to each key and nothing else. */
  lemma {:induction false} AddAllIsLastWrite(pairs: seq<(string, string)>, key: string)
    ensures key in AddAll(pairs).Build() <==> LastWrite(pairs, key).Some?
    ensures key in AddAll(pairs).Build() ==> AddAll(pairs).Build()[key] == LastWrite(pairs, key).value
  {
    if pairs != [] {
      AddAllIsLastWrite(pairs[..|pairs| - 1], key);
    }
  }

  /** Overwriting a key: after A=1, B=2, adding A=3 builds {A:3, B:2},
      while the earlier builder still builds {A:1, B:2}. */
  lemma OverwriteKeepsEarlierBuilder()
    ensures var b := Empty().Add("A", "1").Add("B", "2");
            b.Build() == map["A" := "1", "B" := "2"]
            && b.Add("A", "3").Build() == map["A" := "3", "B" := "2"]
  {
  }
}

/** The Swagger converter (`SwaggerConverter`, bzt/modules/swagger.py): it
    loads a Swagger specification and turns it into a Taurus scenario whose
    default address is the specification's host and base path and which has
    one request per path. */
module Swagger {
  import opened Wrappers

  /** A JSON value as `json.load` with `object_pairs_hook=OrderedDict`
      returns it. An object keeps its members in document order, duplicates
      included; `Get` and `Keys` give the ordered dictionary built from them. */
  datatype Json =
    | Null
    | Bool(b: bool)
    | Num(n: int)
    | Str(s: string)
    | Arr(items: seq<Json>)
    | Obj(members: seq<(string, Json)>)

  /** Python's truth value of a loaded JSON value. */
  predicate Truthy(j: Json) {
    match j
    case Null => false
    case Bool(b) => b
    case Num(n) => n != 0
    case Str(s) => s != []
    case Arr(items) => items != []
    case Obj(members) => members != []
  }

  /** `d.get(key)`: the value of the last member with that key, as a later
      pair overrides an earlier one in the ordered dictionary. */
  function Get(members: seq<(string, Json)>, key: string): Option<Json> {
    if members == [] then None
    else if members[|members| - 1].0 == key then Some(members[|members| - 1].1)
    else Get(members[..|members| - 1], key)
  }

  /** The ordered dictionary's keys: each key once, where it first appears. */
  function Keys(members: seq<(string, Json)>): seq<string> {
    if members == [] then []
    else
      var earlier := Keys(members[..|members| - 1]);
      var key := members[|members| - 1].0;
      if key in earlier then earlier else earlier + [key]
  }

  /** Why a conversion fails, with the Python exception it stands for. */
  datatype SwaggerError =
    | SpecFileMissing(path: string)  // ValueError from `_read_spec`
    | SpecNotMapping                 // AttributeError: the document has no `.get`
    | NoDefaultAddress               // KeyError: `+=` on an unset 'default-address'
    | AddressTypeError               // TypeError: host and basePath do not add up
    | PathsNotMapping                // 'paths' is absent or not an object

  /** Python's numbers: `bool` is a kind of `int`. */
  predicate Numeric(j: Json) { j.Bool? || j.Num? }

  function NumberOf(j: Json): int
    requires Numeric(j)
  {
    if j.Bool? then (if j.b then 1 else 0) else j.n
  }

  /** What iterating over a value yields, for `list +=`: a string's
      characters, a list's items, an object's keys. */
  function Iterate(j: Json): Result<seq<Json>, SwaggerError> {
    match j
    case Str(s) => Success(seq(|s|, i requires 0 <= i < |s| => Str([s[i]])))
    case Arr(items) => Success(items)
    case Obj(members) => Success(seq(|Keys(members)|, i requires 0 <= i < |Keys(members)| => Str(Keys(members)[i])))
    case _ => Failure(AddressTypeError)
  }

  /** `a += b` on loaded JSON values: strings concatenate, a list is
      extended by whatever `b` iterates over, numbers add, and anything else
      raises `TypeError`. */
  function PyIAdd(a: Json, b: Json): (r: Result<Json, SwaggerError>)
    ensures r.Success? && a.Str? ==> r.value.Str? && a.s <= r.value.s
    ensures r.Success? && a.Arr? ==> r.value.Arr? && a.items <= r.value.items
    ensures r.Success? ==> a.Str? || a.Arr? || Numeric(a)
  {
    if a.Str? && b.Str? then Success(Str(a.s + b.s))
    else if a.Arr? then
      var more :- Iterate(b);
      Success(Arr(a.items + more))
    else if Numeric(a) && Numeric(b) then Success(Num(NumberOf(a) + NumberOf(b)))
    else Failure(AddressTypeError)
  }

  /** A request of the scenario: `{'url': path}`. */
  datatype Request = Request(url: string)

  /** The scenario dictionary: `default-address` when it is set, and
      `requests`. */
  datatype Scenario = Scenario(defaultAddress: Option<Json>, requests: seq<Request>)

  /** The `default-address` of a specification object: its host, followed by
      its base path. */
  function AddressOf(spec: seq<(string, Json)>): (r: Result<Option<Json>, SwaggerError>)
    ensures r.Success? && r.value.Some? ==> Get(spec, "host").Some? && Truthy(Get(spec, "host").value)
    ensures r == Failure(NoDefaultAddress) ==> Get(spec, "basePath").Some?
  {
    var host := Get(spec, "host");
    var base := Get(spec, "basePath");
    var address := if host.Some? && Truthy(host.value) then host else None;
    if base.Some? && Truthy(base.value) then
      if address.None? then Failure(NoDefaultAddress)
      else
        var joined :- PyIAdd(address.value, base.value);
        Success(Some(joined))
    else Success(address)
  }

  /** One request per path, in the order given. */
  function RequestsOf(paths: seq<string>): seq<Request> {
    if paths == [] then []
    else RequestsOf(paths[..|paths| - 1]) + [Request(paths[|paths| - 1])]
  }

  /** The paths the loop visits: the keys of the `paths` object. */
  function PathKeys(spec: seq<(string, Json)>): Result<seq<string>, SwaggerError> {
    var paths := Get(spec, "paths");
    if paths.Some? && paths.value.Obj? then Success(Keys(paths.value.members))
    else Failure(PathsNotMapping)
  }

  /** `convert_to_scenario` once the specification has been loaded. */
  function Convert(spec: Json): (r: Result<Scenario, SwaggerError>)
    ensures r.Success? ==> spec.Obj? && Get(spec.members, "paths").Some? && Get(spec.members, "paths").value.Obj?
    ensures r.Success? && r.value.defaultAddress.Some? ==> Get(spec.members, "host").Some?
  {
    if !spec.Obj? then Failure(SpecNotMapping)
    else
      var address :- AddressOf(spec.members);
      var paths :- PathKeys(spec.members);
      Success(Scenario(address, RequestsOf(paths)))
  }

  class SwaggerConverter {
    var specFile: string
    /** The loaded specification; `None` until `_read_spec` has run. */
    var specDict: Option<Json>

    constructor (specFile: string)
      ensures this.specFile == specFile && specDict == None
    {
      this.specFile := specFile;
      specDict := None;
    }

    /** `_read_spec`: `files` holds what `json.load` makes of each existing
        file. A missing file leaves the converter as it was. */
    method ReadSpec(files: map<string, Json>) returns (found: bool)
      modifies this
      ensures found <==> specFile in files
      ensures found ==> specDict == Some(files[specFile])
      ensures !found ==> specDict == old(specDict)
      ensures specFile == old(specFile)
    {
      if specFile !in files {
        return false;
      }
      specDict := Some(files[specFile]);
      return true;
    }

    /** `convert_to_scenario`: loads the specification, then builds the
        scenario. */
    method ConvertToScenario(files: map<string, Json>) returns (r: Result<Scenario, SwaggerError>)
      modifies this
      ensures specFile == old(specFile)
      ensures specFile in files ==> specDict == Some(files[specFile]) && r == Convert(files[specFile])
      ensures specFile !in files ==> specDict == old(specDict) && r == Failure(SpecFileMissing(specFile))
    {
      var found := ReadSpec(files);
      if !found {
        return Failure(SpecFileMissing(specFile));
      }
      var spec := specDict.value;
      if !spec.Obj? {
        return Failure(SpecNotMapping);
      }
      var address := AddressOf(spec.members);
      if address.Failure? {
        return Failure(address.error);
      }
      var paths := PathKeys(spec.members);
      if paths.Failure? {
        return Failure(paths.error);
      }
      var requests := CollectRequests(paths.value);
      return Success(Scenario(address.value, requests));
    }
  }

  /** The `for` loop: one `{'url': path}` appended per path. */
  method CollectRequests(paths: seq<string>) returns (requests: seq<Request>)
    ensures requests == RequestsOf(paths)
  {
    requests := [];
    for i := 0 to |paths|
      invariant requests == RequestsOf(paths[..i])
    {
      assert paths[..i + 1][..i] == paths[..i];
      requests := requests + [Request(paths[i])];
    }
    assert paths[..|paths|] == paths;
  }

  /** The loop makes one request per path, for that path, in order. */
  lemma {:induction false} RequestsOfSpec(paths: seq<string>)
    ensures |RequestsOf(paths)| == |paths|
    ensures forall i :: 0 <= i < |paths| ==> RequestsOf(paths)[i].url == paths[i]
  {
    if paths != [] {
      RequestsOfSpec(paths[..|paths| - 1]);
    }
  }

  /** A key is among the ordered dictionary's keys exactly when some member
      has it, and then `get` finds it. */
  lemma {:induction false} KeysMembers(members: seq<(string, Json)>, key: string)
    ensures key in Keys(members) <==> exists i :: 0 <= i < |members| && members[i].0 == key
    ensures Get(members, key).Some? <==> key in Keys(members)
  {
    if members != [] {
      var init := members[..|members| - 1];
      KeysMembers(init, key);
      if key in Keys(init) {
        var i :| 0 <= i < |init| && init[i].0 == key;
        assert members[i].0 == key;
      }
      if exists i :: 0 <= i < |members| && members[i].0 == key {
        var i :| 0 <= i < |members| && members[i].0 == key;
        if i < |init| { assert init[i].0 == key; }
      }
    }
  }

  /** No key appears twice. */
  lemma {:induction false} KeysDistinct(members: seq<(string, Json)>)
    ensures forall i, j :: 0 <= i < j < |Keys(members)| ==> Keys(members)[i] != Keys(members)[j]
  {
    if members != [] {
      KeysDistinct(members[..|members| - 1]);
    }
  }

  /** With no duplicate key, the keys are the members' keys in document
      order. */
  lemma {:induction false} KeysWithoutDuplicates(members: seq<(string, Json)>)
    requires forall i, j :: 0 <= i < j < |members| ==> members[i].0 != members[j].0
    ensures Keys(members) == seq(|members|, i requires 0 <= i < |members| => members[i].0)
  {
    if members != [] {
      var init := members[..|members| - 1];
      var last := members[|members| - 1].0;
      KeysWithoutDuplicates(init);
      KeysMembers(init, last);
      forall i | 0 <= i < |init|
        ensures init[i].0 != last
      {
        assert init[i] == members[i];
      }
    }
  }

  /** How the default address comes about: the host when it is set, joined
      with the base path when that is set too (for two strings, with no
      separator); no address without either; and a failure for a base path
      without a host, or a host and base path `+=` cannot join. */
  lemma AddressCases(spec: seq<(string, Json)>)
    ensures var host, base := Get(spec, "host"), Get(spec, "basePath");
            var hasHost := host.Some? && Truthy(host.value);
            var hasBase := base.Some? && Truthy(base.value);
            && (AddressOf(spec) == Success(None) <==> !hasHost && !hasBase)
            && (AddressOf(spec) == Failure(NoDefaultAddress) <==> !hasHost && hasBase)
            && (hasHost && !hasBase ==> AddressOf(spec) == Success(host))
            && (hasHost && hasBase ==>
                  AddressOf(spec) ==
                    (match PyIAdd(host.value, base.value)
                     case Success(j) => Success(Some(j))
                     case Failure(e) => Failure(e)))
            && (hasHost && hasBase && host.value.Str? && base.value.Str? ==>
                  AddressOf(spec) == Success(Some(Str(host.value.s + base.value.s))))
            && (AddressOf(spec).Success? && AddressOf(spec).value.Some? ==> hasHost)
  {
  }

  /** When the conversion succeeds, and why it fails. */
  lemma ConvertOutcome(spec: Json)
    ensures Convert(spec).Success? <==>
              spec.Obj? && AddressOf(spec.members).Success? && PathKeys(spec.members).Success?
    ensures !spec.Obj? ==> Convert(spec) == Failure(SpecNotMapping)
    ensures spec.Obj? && AddressOf(spec.members).Failure? ==> Convert(spec) == Failure(AddressOf(spec.members).error)
    ensures spec.Obj? && AddressOf(spec.members).Success? && PathKeys(spec.members).Failure? ==>
              Convert(spec) == Failure(PathsNotMapping)
  {
  }

  /** A converted scenario has exactly one request per key of `paths`, with
      the key as its url, in the dictionary's order and each key once; the
      path objects themselves play no part. */
  lemma RequestsArePaths(spec: Json)
    requires Convert(spec).Success?
    ensures spec.Obj? && Get(spec.members, "paths").Some? && Get(spec.members, "paths").value.Obj?
    ensures var paths := Get(spec.members, "paths").value.members;
            var requests := Convert(spec).value.requests;
            && |requests| == |Keys(paths)|
            && (forall i :: 0 <= i < |requests| ==> requests[i].url == Keys(paths)[i])
            && (forall i, j :: 0 <= i < j < |requests| ==> requests[i] != requests[j])
            && (forall key :: Get(paths, key).Some? <==> Request(key) in requests)
  {
    var paths := Get(spec.members, "paths").value.members;
    var keys := Keys(paths);
    var requests := Convert(spec).value.requests;
    assert requests == RequestsOf(keys);
    RequestsOfSpec(keys);
    KeysDistinct(paths);
    forall key
      ensures Get(paths, key).Some? <==> Request(key) in requests
    {
      KeysMembers(paths, key);
      if Request(key) in requests {
        var i :| 0 <= i < |requests| && requests[i] == Request(key);
        assert keys[i] == key;
      }
      if key in keys {
        var i :| 0 <= i < |keys| && keys[i] == key;
        assert requests[i] == Request(key);
      }
    }
  }

  /** The fourteen paths of the Swagger pet store sample, in document order. */
  const PetstorePaths: seq<string> :=
    ["/pet", "/pet/findByStatus", "/pet/findByTags", "/pet/{petId}", "/pet/{petId}/uploadImage",
     "/store/inventory", "/store/order", "/store/order/{orderId}",
     "/user", "/user/createWithArray", "/user/createWithList", "/user/login", "/user/logout",
     "/user/{username}"]

  lemma PetstorePathsDistinct()
    ensures forall i, j :: 0 <= i < j < |PetstorePaths| ==> PetstorePaths[i] != PetstorePaths[j]
  {
  }

  /** The pet store sample converts to the address `petstore.swagger.io/v2`
      and the fourteen requests in document order, wherever its `host`,
      `basePath` and `paths` members stand, whatever else the document holds
      and whatever its path objects say. */
  lemma Petstore(members: seq<(string, Json)>, paths: seq<(string, Json)>)
    requires Get(members, "host") == Some(Str("petstore.swagger.io"))
    requires Get(members, "basePath") == Some(Str("/v2"))
    requires Get(members, "paths") == Some(Obj(paths))
    requires |paths| == |PetstorePaths|
    requires forall i :: 0 <= i < |paths| ==> paths[i].0 == PetstorePaths[i]
    ensures var r := Convert(Obj(members));
            && r.Success?
            && r.value.defaultAddress == Some(Str("petstore.swagger.io/v2"))
            && |r.value.requests| == 14
            && forall i :: 0 <= i < 14 ==> r.value.requests[i].url == PetstorePaths[i]
  {
    assert "petstore.swagger.io" + "/v2" == "petstore.swagger.io/v2";
    assert AddressOf(members) == Success(Some(Str("petstore.swagger.io/v2")));
    PetstorePathsDistinct();
    KeysWithoutDuplicates(paths);
    assert Keys(paths) == PetstorePaths;
    RequestsOfSpec(PetstorePaths);
  }
}

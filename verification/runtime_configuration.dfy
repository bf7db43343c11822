/** The library's own configuration object and its resource registry. */
module RuntimeConfiguration {
  import opened Pairs
  import opened Wrappers
  import opened RubyValue

  /** `resources` is keyed by symbol name and keeps insertion order, like a Ruby hash. */
  datatype Configuration = Configuration(
    baseUrl: Option<string>,
    headers: seq<(Value, Value)>,
    timeout: int,
    resources: seq<(string, Value)>)

  /** `Configuration.new`. */
  function New(): (c: Configuration)
    ensures c.baseUrl.None? && c.headers == [] && c.timeout == 30 && c.resources == []
  {
    Configuration(None, [], 30, [])
  }

  /** `name.to_sym`: defined for strings and symbols; anything else raises. */
  function ToSym(name: Value): (r: Option<string>)
    ensures r.Some? <==> name.Str? || name.Sym?
  {
    match name
    case Str(s) => Some(s)
    case Sym(s) => Some(s)
    case _ => None
  }

  predicate UniqueKeys(rs: seq<(string, Value)>)
  {
    forall i, j :: 0 <= i < j < |rs| ==> rs[i].0 != rs[j].0
  }

  /** The value stored under `key`. */
  function Get(rs: seq<(string, Value)>, key: string): Option<Value>
  {
    if |rs| == 0 then None
    else if rs[0].0 == key then Some(rs[0].1)
    else Get(rs[1..], key)
  }

  /** `hash[key] = value`: an existing key keeps its place and takes the new value; a new
      key goes last. */
  function Store(rs: seq<(string, Value)>, key: string, value: Value): (r: seq<(string, Value)>)
    ensures key in Firsts(rs) ==> |r| == |rs|
    ensures key !in Firsts(rs) ==> r == rs + [(key, value)]
    ensures forall i :: 0 <= i < |rs| ==> r[i].0 == rs[i].0
    ensures forall i :: 0 <= i < |rs| && rs[i].0 != key ==> r[i] == rs[i]
  {
    if |rs| == 0 then [(key, value)]
    else if rs[0].0 == key then [(key, value)] + rs[1..]
    else [rs[0]] + Store(rs[1..], key, value)
  }

  /** Storing keeps keys unique: an existing key keeps its place, a new one is not yet there. */
  lemma StoreKeepsUnique(rs: seq<(string, Value)>, key: string, value: Value)
    requires UniqueKeys(rs)
    ensures UniqueKeys(Store(rs, key, value))
  {
    var r := Store(rs, key, value);
    if key !in Firsts(rs) {
      forall i | 0 <= i < |rs| ensures r[i].0 != key {
        assert Firsts(rs)[i] == rs[i].0;
      }
    }
  }

  /** After a store the key reads back the new value and every other key reads as before;
      keys stay unique. */
  lemma {:induction false} StoreThenGet(rs: seq<(string, Value)>, key: string, value: Value, other: string)
    requires UniqueKeys(rs)
    ensures UniqueKeys(Store(rs, key, value))
    ensures Get(Store(rs, key, value), key) == Some(value)
    ensures other != key ==> Get(Store(rs, key, value), other) == Get(rs, other)
    decreases |rs|
  {
    StoreKeepsUnique(rs, key, value);
    if |rs| > 0 && rs[0].0 != key {
      StoreThenGet(rs[1..], key, value, other);
      assert Store(rs, key, value)[1..] == Store(rs[1..], key, value);
    }
  }

  /** `add_resource(name, options = {})`; `None` when the name has no `to_sym`. */
  function AddResource(c: Configuration, name: Value, options: Value): (r: Option<Configuration>)
    ensures r.Some? <==> ToSym(name).Some?
    ensures r.Some? ==> r.value.baseUrl == c.baseUrl && r.value.headers == c.headers && r.value.timeout == c.timeout
  {
    match ToSym(name)
    case None => None
    case Some(key) => Some(c.(resources := Store(c.resources, key, options)))
  }

  /** `add_resource(name)` with the default options. */
  function AddResourceDefault(c: Configuration, name: Value): Option<Configuration>
  {
    AddResource(c, name, Hash([]))
  }

  /** A string name and a symbol name with the same text address the same entry; storing
      again overwrites only that entry. */
  lemma AddResourceByName(c: Configuration, s: string, options: Value)
    requires UniqueKeys(c.resources)
    ensures AddResource(c, Str(s), options) == AddResource(c, Sym(s), options)
    ensures var r := AddResource(c, Str(s), options).value;
      && Get(r.resources, s) == Some(options)
      && (forall other :: other != s ==> Get(r.resources, other) == Get(c.resources, other))
      && UniqueKeys(r.resources)
  {
    forall other | other != s
      ensures Get(Store(c.resources, s, options), other) == Get(c.resources, other)
    {
      StoreThenGet(c.resources, s, options, other);
    }
    StoreThenGet(c.resources, s, options, s);
  }

  /** `resources = hash`: `add_resource` for each entry in order; `None` when a name has no
      `to_sym`. The entries stored before that raise are kept by `SetResourcesInPlace`. */
  function SetResources(c: Configuration, entries: seq<(Value, Value)>): Option<Configuration>
    decreases |entries|
  {
    if |entries| == 0 then Some(c)
    else match AddResource(c, entries[0].0, entries[0].1)
      case None => None
      case Some(c2) => SetResources(c2, entries[1..])
  }

  /** `resources = hash` as the loop runs it, in place: each `add_resource` stores its entry
      before the next name is converted, so when a name has no `to_sym` the configuration
      keeps every entry stored before it. The flag is false exactly when the loop raised. */
  function SetResourcesInPlace(c: Configuration, entries: seq<(Value, Value)>): (r: (Configuration, bool))
    ensures r.1 <==> SetResources(c, entries).Some?
    ensures r.1 ==> r.0 == SetResources(c, entries).value
    ensures r.0.baseUrl == c.baseUrl && r.0.headers == c.headers && r.0.timeout == c.timeout
    decreases |entries|
  {
    if |entries| == 0 then (c, true)
    else match AddResource(c, entries[0].0, entries[0].1)
      case None => (c, false)
      case Some(c2) => SetResourcesInPlace(c2, entries[1..])
  }

  /** When the first name without `to_sym` is at `j`, the loop raises there and leaves the
      configuration exactly as assigning the entries before `j` would. */
  lemma {:induction false} InPlaceStopsAtFirstBadName(c: Configuration, entries: seq<(Value, Value)>, j: nat)
    requires j < |entries| && ToSym(entries[j].0).None?
    requires forall i :: 0 <= i < j ==> ToSym(entries[i].0).Some?
    ensures SetResources(c, entries[..j]).Some?
    ensures SetResourcesInPlace(c, entries) == (SetResources(c, entries[..j]).value, false)
    decreases j
  {
    if j > 0 {
      var c2 := AddResource(c, entries[0].0, entries[0].1).value;
      var rest := entries[1..];
      assert rest[j - 1] == entries[j];
      assert forall i :: 0 <= i < j - 1 ==> rest[i] == entries[i + 1];
      InPlaceStopsAtFirstBadName(c2, rest, j - 1);
      assert entries[..j][0] == entries[0] && entries[..j][1..] == rest[..j - 1];
    }
  }

  /** After a raising assignment every key holds the options of the last entry for it
      before the bad name, or its old value when no such entry names it. */
  lemma PartialAssignmentStores(c: Configuration, entries: seq<(Value, Value)>, j: nat, k: string)
    requires UniqueKeys(c.resources)
    requires j < |entries| && ToSym(entries[j].0).None?
    requires forall i :: 0 <= i < j ==> ToSym(entries[i].0).Some?
    ensures var r := SetResourcesInPlace(c, entries);
      && !r.1 && UniqueKeys(r.0.resources)
      && Get(r.0.resources, k) == (if LastFor(entries[..j], k).Some? then LastFor(entries[..j], k) else Get(c.resources, k))
  {
    InPlaceStopsAtFirstBadName(c, entries, j);
    SetResourcesStores(c, entries[..j], k);
  }

  /** `resources = {users: {}, 1 => {}}` raises at `1.to_sym`, with `:users` already stored. */
  lemma UsersKeptWhenLaterNameFails()
    ensures var entries := [(Sym("users"), Hash([])), (Int(1), Hash([]))];
      SetResourcesInPlace(New(), entries) == (New().(resources := [("users", Hash([]))]), false)
  {
    var entries := [(Sym("users"), Hash([])), (Int(1), Hash([]))];
    InPlaceStopsAtFirstBadName(New(), entries, 1);
    assert entries[..1] == [(Sym("users"), Hash([]))];
  }

  /** Assigning a hash of resources never removes a key that was already registered. */
  lemma {:induction false} SetResourcesKeepsKeys(c: Configuration, entries: seq<(Value, Value)>, k: string)
    requires k in Firsts(c.resources)
    requires SetResources(c, entries).Some?
    ensures k in Firsts(SetResources(c, entries).value.resources)
    decreases |entries|
  {
    if |entries| > 0 {
      var c2 := AddResource(c, entries[0].0, entries[0].1).value;
      var i :| 0 <= i < |c.resources| && c.resources[i].0 == k;
      assert c2.resources[i].0 == k;
      assert k in Firsts(c2.resources);
      SetResourcesKeepsKeys(c2, entries[1..], k);
    }
  }

  /** Every name in the assigned hash ends up registered. */
  lemma {:induction false} SetResourcesRegistersEvery(c: Configuration, entries: seq<(Value, Value)>, i: nat)
    requires i < |entries|
    requires SetResources(c, entries).Some?
    ensures ToSym(entries[i].0).Some?
    ensures ToSym(entries[i].0).value in Firsts(SetResources(c, entries).value.resources)
    decreases |entries|
  {
    var key := ToSym(entries[0].0);
    assert key.Some?;
    var c2 := AddResource(c, entries[0].0, entries[0].1).value;
    assert SetResources(c, entries) == SetResources(c2, entries[1..]);
    if i == 0 {
      var stored := Store(c.resources, key.value, entries[0].1);
      assert key.value in Firsts(stored) by {
        if key.value !in Firsts(c.resources) {
          assert stored[|stored| - 1].0 == key.value;
        }
      }
      if |entries| > 1 {
        SetResourcesKeepsKeys(c2, entries[1..], key.value);
      }
    } else {
      assert entries[i] == entries[1..][i - 1];
      SetResourcesRegistersEvery(c2, entries[1..], i - 1);
    }
  }

  /** The options of the last entry of `entries` whose name converts to `k`, if any. */
  function LastFor(entries: seq<(Value, Value)>, k: string): Option<Value>
    decreases |entries|
  {
    if |entries| == 0 then None
    else match LastFor(entries[1..], k)
      case Some(v) => Some(v)
      case None => if ToSym(entries[0].0) == Some(k) then Some(entries[0].1) else None
  }

  /** After `resources = hash` every key holds the options of the hash's last entry for it,
      whether that entry named it by string or by symbol; keys the hash does not name keep
      their value, and keys stay unique. */
  lemma {:induction false} SetResourcesStores(c: Configuration, entries: seq<(Value, Value)>, k: string)
    requires UniqueKeys(c.resources)
    requires SetResources(c, entries).Some?
    ensures var r := SetResources(c, entries).value;
      && UniqueKeys(r.resources)
      && Get(r.resources, k) == (if LastFor(entries, k).Some? then LastFor(entries, k) else Get(c.resources, k))
    decreases |entries|
  {
    if |entries| > 0 {
      var key := ToSym(entries[0].0).value;
      var c2 := AddResource(c, entries[0].0, entries[0].1).value;
      assert c2.resources == Store(c.resources, key, entries[0].1);
      StoreThenGet(c.resources, key, entries[0].1, k);
      SetResourcesStores(c2, entries[1..], k);
    }
  }

  /** Assigning a hash fails exactly when one of its names has no `to_sym`. */
  lemma {:induction false} SetResourcesFails(c: Configuration, entries: seq<(Value, Value)>)
    ensures SetResources(c, entries).Some? <==> forall i :: 0 <= i < |entries| ==> ToSym(entries[i].0).Some?
    decreases |entries|
  {
    if |entries| > 0 && ToSym(entries[0].0).Some? {
      var c2 := AddResource(c, entries[0].0, entries[0].1).value;
      SetResourcesFails(c2, entries[1..]);
      assert forall i :: 1 <= i < |entries| ==> entries[i] == entries[1..][i - 1];
    }
  }
}

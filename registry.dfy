/** The registry storage adapter: where a name lives (hive, view, subkey, leaf)
    and get/set/delete/clear over a store of string values. */
module Registry {
  import opened Results
  import opened Names

  datatype Hive = CurrentUser | LocalMachine
  datatype View = Registry64 | Registry32

  /** What the adapter asks of the machine on every call. */
  datatype Host = Host(elevated: bool, is64Bit: bool)

  /** A registry value: hive and view of the base key, subkey path, value name. */
  datatype Location = Location(hive: Hive, view: View, key: string, leaf: string)

  /** A name cut at its last separator: the group part (if any) and the leaf. */
  datatype Split = Split(group: Option<string>, leaf: string)

  /** LocalMachine exactly when the process is elevated and local storage is not forced. */
  function BaseHive(elevated: bool, forceLocalStorage: bool): (h: Hive)
    ensures h == LocalMachine <==> elevated && !forceLocalStorage
  {
    if elevated && !forceLocalStorage then LocalMachine else CurrentUser
  }

  function BaseView(is64Bit: bool): (v: View)
    ensures v == Registry64 <==> is64Bit
  {
    if is64Bit then Registry64 else Registry32
  }

  /** String.LastIndexOf for one character: -1 when the character does not occur. */
  function LastIndexOf(s: string, c: char): (r: int)
    ensures -1 <= r < |s|
    ensures r == -1 <==> c !in s
    ensures 0 <= r ==> s[r] == c && forall j :: r < j < |s| ==> s[j] != c
  {
    if s == [] then -1
    else if s[|s| - 1] == c then |s| - 1
    else LastIndexOf(s[..|s| - 1], c)
  }

  /** The name decomposition done by GetLocalKey. */
  function SplitName(name: string): (r: Split)
    ensures Separator !in name ==> r == Split(None, name)
    ensures Separator in name ==> r.group.Some? && r.group.value + [Separator] + r.leaf == name
    ensures Separator !in r.leaf
  {
    var i := LastIndexOf(name, Separator);
    if i < 0 then Split(None, name)
    else
      var r := Split(Some(name[..i]), name[i + 1..]);
      assert r.group.value + [Separator] + r.leaf == name;
      r
  }

  /** The key every value of an adapter with root path `path` lives under. */
  function RootKey(path: string): (key: string) {
    "Software\\" + path
  }

  /** GetLocalKey: the location addressed by `name`. */
  function LocalKey(host: Host, forceLocalStorage: bool, path: string, name: string): (loc: Location)
    ensures loc.hive == LocalMachine <==> host.elevated && !forceLocalStorage
    ensures loc.view == Registry64 <==> host.is64Bit
    ensures RootKey(path) <= loc.key && Separator !in loc.leaf
    ensures Separator !in name ==> loc.key == RootKey(path) && loc.leaf == name
  {
    var split := SplitName(name);
    Location(BaseHive(host.elevated, forceLocalStorage), BaseView(host.is64Bit),
             match split.group
             case None => RootKey(path)
             case Some(g) => RootKey(path) + [Separator] + g,
             split.leaf)
  }

  /** The hive depends on elevation and force-local only, never on the view. */
  lemma HiveIgnoresView(host: Host, forceLocalStorage: bool, path: string, name: string)
    ensures LocalKey(host, forceLocalStorage, path, name).hive ==
            LocalKey(Host(host.elevated, !host.is64Bit), forceLocalStorage, path, name).hive
    ensures LocalKey(host, forceLocalStorage, path, name).hive == LocalMachine <==>
            host.elevated && !forceLocalStorage
  {
  }

  /** Every value lives under Software\path; a name without a separator is the
      leaf of that key itself; otherwise the subkey and the leaf give back the name. */
  lemma LocalKeyShape(host: Host, forceLocalStorage: bool, path: string, name: string)
    ensures var loc := LocalKey(host, forceLocalStorage, path, name);
      && RootKey(path) <= loc.key
      && Separator !in loc.leaf
      && (Separator !in name ==> loc.key == RootKey(path) && loc.leaf == name)
      && (Separator in name ==> loc.key[|RootKey(path)| + 1..] + [Separator] + loc.leaf == name)
  {
    var loc := LocalKey(host, forceLocalStorage, path, name);
    if Separator in name {
      var g := SplitName(name).group.value;
      assert loc.key == RootKey(path) + [Separator] + g;
      assert loc.key[|RootKey(path)| + 1..] == g;
    }
  }

  /** Distinct names never share a location. */
  lemma LocalKeyInjective(host: Host, forceLocalStorage: bool, path: string, a: string, b: string)
    requires LocalKey(host, forceLocalStorage, path, a) == LocalKey(host, forceLocalStorage, path, b)
    ensures a == b
  {
    var la, lb := LocalKey(host, forceLocalStorage, path, a), LocalKey(host, forceLocalStorage, path, b);
    var sa, sb := SplitName(a), SplitName(b);
    var root := RootKey(path);
    match (sa.group, sb.group)
    case (None, None) =>
    case (Some(_), None) =>
    case (None, Some(_)) =>
    case (Some(g), Some(h)) =>
      assert la.key == root + [Separator] + g;
      assert lb.key == root + [Separator] + h;
      assert g == la.key[|root| + 1..] == h;
  }

  /** What GetValue().ToString() yields, with "" for a missing value. */
  function ValueOf(store: map<Location, string>, loc: Location): (value: string) {
    if loc in store then store[loc] else ""
  }

  /** Writing one name leaves the value read under every other name unchanged. */
  lemma WriteThenRead(store: map<Location, string>, host: Host, forceLocalStorage: bool, path: string,
                      written: string, value: string, read: string)
    ensures ValueOf(store[LocalKey(host, forceLocalStorage, path, written) := value],
                    LocalKey(host, forceLocalStorage, path, read)) ==
            if written == read then value else ValueOf(store, LocalKey(host, forceLocalStorage, path, read))
  {
    if LocalKey(host, forceLocalStorage, path, written) == LocalKey(host, forceLocalStorage, path, read) {
      LocalKeyInjective(host, forceLocalStorage, path, written, read);
    }
  }

  /** The machine's registry: its values, the process's current administrator
      status (read anew by every adapter call), and the operating system width. */
  class Store {
    var values: map<Location, string>
    var elevated: bool
    const is64Bit: bool

    constructor (values: map<Location, string>, elevated: bool, is64Bit: bool)
      ensures this.values == values && this.elevated == elevated && this.is64Bit == is64Bit
    {
      this.values := values;
      this.elevated := elevated;
      this.is64Bit := is64Bit;
    }

    function CurrentHost(): (host: Host)
      reads this
    {
      Host(elevated, is64Bit)
    }
  }

  /** RegistryAdapter: a root path and a force-local flag over the machine's store. */
  class RegistryAdapter {
    const forceLocalStorage: bool
    const path: string
    const store: Store

    constructor (forceLocalStorage: bool, path: string, store: Store)
      ensures this.forceLocalStorage == forceLocalStorage && this.path == path && this.store == store
    {
      this.forceLocalStorage := forceLocalStorage;
      this.path := path;
      this.store := store;
    }

    /** GetLocalKey, re-evaluated against the host on every call. */
    function GetLocalKey(name: string): (loc: Location)
      reads store
      ensures loc.hive == LocalMachine <==> store.elevated && !forceLocalStorage
      ensures loc.view == Registry64 <==> store.is64Bit
      ensures RootKey(path) <= loc.key && Separator !in loc.leaf
    {
      LocalKey(store.CurrentHost(), forceLocalStorage, path, name)
    }

    /** The stored string, or "" when no value is stored. */
    method Get(name: string) returns (value: string)
      ensures value == ValueOf(store.values, GetLocalKey(name))
      ensures value != "" ==> GetLocalKey(name) in store.values
    {
      var loc := LocalKey(Host(store.elevated, store.is64Bit), forceLocalStorage, path, name);
      value := "";
      if loc in store.values {
        value := store.values[loc];
      }
    }

    method Set(name: string, value: string)
      modifies store
      ensures store.elevated == old(store.elevated)
      ensures store.values == old(store.values)[old(GetLocalKey(name)) := value]
    {
      var loc := GetLocalKey(name);
      store.values := store.values[loc := value];
    }

    /** DeleteValue(name): removes the value; fails when there is none. */
    method Delete(name: string) returns (r: Outcome)
      modifies store
      ensures store.elevated == old(store.elevated)
      ensures var loc := old(GetLocalKey(name));
        if loc in old(store.values)
        then r == Pass && store.values == old(store.values) - {loc}
        else r == Fail(ValueNotFound(SplitName(name).leaf)) && store.values == old(store.values)
    {
      var loc := GetLocalKey(name);
      if loc in store.values {
        store.values := store.values - {loc};
        r := Pass;
      } else {
        r := Fail(ValueNotFound(loc.leaf));
      }
    }

    /** Clear overwrites the value with "" instead of removing it. */
    method Clear(name: string)
      modifies store
      ensures store.elevated == old(store.elevated)
      ensures store.values == old(store.values)[old(GetLocalKey(name)) := ""]
    {
      var loc := GetLocalKey(name);
      store.values := store.values[loc := ""];
    }
  }
}

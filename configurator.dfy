/** The Configurator facade. Its static fields become the fields of one
    object; the machine's registry is the store its adapter writes to. */
module Configuration {
  import opened Results
  import opened Names
  import opened Registry
  import opened Library
  import opened ConfigSpec

  class Configurator {
    var initialized: bool
    var forceLocalStorage: bool
    var path: string
    var adapter: RegistryAdapter?
    var library: ObservableDictionary
    const store: Store

    ghost predicate Valid()
      reads this, library
    {
      library.Valid() && (adapter != null ==> adapter.store == store)
    }

    /** The whole state this object and the registry stand for. */
    function Snap(): (s: Snapshot)
      reads this, library, store
    {
      Snapshot(initialized, forceLocalStorage, path,
               if adapter == null then None else Some(AdapterConf(adapter.forceLocalStorage, adapter.path)),
               library.Model(), library.observed, store.values, store.CurrentHost())
    }

    /** The static initial state: not initialised, no adapter, an empty library. */
    constructor (store: Store)
      ensures Valid() && this.store == store && fresh(library)
      ensures Snap() == Start(store.values, store.CurrentHost())
    {
      this.store := store;
      initialized, forceLocalStorage, path, adapter := false, false, "", null;
      library := new ObservableDictionary();
    }

    method Init(path: string, forceLocalStorage: bool) returns (r: Outcome)
      requires Valid()
      modifies this, library
      ensures Valid() && library == old(library)
      ensures Step(Snap(), r) == ConfigSpec.Init(old(Snap()), path, forceLocalStorage)
    {
      if path == "" {
        return Fail(InvalidPath);
      }
      library.Subscribe();
      initialized := true;
      this.forceLocalStorage := forceLocalStorage;
      this.path := Replace(Replace(path, '/', Separator), ':', Separator);
      adapter := new RegistryAdapter(forceLocalStorage, this.path, store);
      r := Pass;
    }

    /** The Library setter. */
    method SetLibrary(lib: ObservableDictionary) returns (r: Outcome)
      requires Valid() && lib.Valid()
      modifies this, lib, store
      ensures Valid() && library == lib
      ensures Step(Snap(), r) == ConfigSpec.SetLibrary(old(Snap()), old(lib.Model()), old(lib.observed))
    {
      library := lib;
      ghost var s0 := Snap();
      var keys := library.keys;
      var i := 0;
      r := Pass;
      while i < |keys|
        invariant 0 <= i <= |keys|
        invariant Valid() && library == lib && r == Pass
        invariant InitNames(Snap(), keys[i..]) == InitNames(s0, keys)
      {
        assert keys[i..][1..] == keys[i + 1..];
        ghost var before := Snap();
        r := InitName(keys[i]);
        if r.Fail? {
          assert InitNames(before, keys[i..]) == Step(Snap(), r);
          return;
        }
        i := i + 1;
      }
    }

    method IsSet(name: string) returns (r: Result<bool>)
      requires Valid()
      ensures r == ConfigSpec.IsSet(Snap(), name)
    {
      var clean := CleanAndCheckName(name);
      if clean.Err? {
        return Err(clean.error);
      }
      var value := adapter.Get(clean.value);
      r := Ok(value != "");
    }

    method Get(name: string) returns (r: Result<Value>)
      requires Valid()
      ensures r == ConfigSpec.Get(Snap(), name)
    {
      if library.IsNonPersistent(name) {
        return Ok(library.values[name]);
      }
      var clean := CleanAndCheckName(name);
      if clean.Err? {
        return Err(clean.error);
      }
      var value := adapter.Get(clean.value);
      if value == "" {
        r := Ok(library.values[clean.value]);
      } else {
        r := Ok(Val(value));
      }
    }

    method Set(name: string, value: Value) returns (r: Outcome)
      requires Valid()
      modifies library, store
      ensures Valid()
      ensures Step(Snap(), r) == ConfigSpec.Set(old(Snap()), name, value)
    {
      if library.IsNonPersistent(name) {
        library.Put(name, value);
        return Pass;
      }
      var clean := CleanAndCheckName(name);
      if clean.Err? {
        return Fail(clean.error);
      }
      var text := if value.Null? then "" else value.text;
      adapter.Set(clean.value, text);
      r := Pass;
    }

    method Delete(name: string) returns (r: Outcome)
      requires Valid()
      modifies store
      ensures Valid()
      ensures Step(Snap(), r) == ConfigSpec.Delete(old(Snap()), name)
    {
      if !initialized {
        return Fail(NotInitialized);
      }
      if adapter == null {
        return Fail(NoAdapter);
      }
      if library.IsNonPersistent(name) {
        return Pass;
      }
      r := adapter.Delete(name);
    }

    method DeleteAll() returns (r: Outcome)
      requires Valid()
      modifies store
      ensures Valid()
      ensures Step(Snap(), r) == ConfigSpec.DeleteAll(old(Snap()))
    {
      if !initialized {
        return Fail(NotInitialized);
      }
      if adapter == null {
        return Fail(NoAdapter);
      }
      ghost var s0 := Snap();
      var keys := library.keys;
      var i := 0;
      r := Pass;
      while i < |keys|
        invariant 0 <= i <= |keys|
        invariant Valid() && adapter != null && r == Pass
        invariant DeleteKeys(Snap(), keys[i..]) == DeleteKeys(s0, keys)
      {
        assert keys[i..][1..] == keys[i + 1..];
        ghost var before := Snap();
        if !library.IsNonPersistent(keys[i]) {
          r := adapter.Delete(keys[i]);
          if r.Fail? {
            assert DeleteKeys(before, keys[i..]) == Step(Snap(), r);
            return;
          }
        }
        i := i + 1;
      }
    }

    method Clear(name: string) returns (r: Outcome)
      requires Valid()
      modifies store
      ensures Valid()
      ensures Step(Snap(), r) == ConfigSpec.Clear(old(Snap()), name)
    {
      if !initialized {
        return Fail(NotInitialized);
      }
      if adapter == null {
        return Fail(NoAdapter);
      }
      if library.IsNonPersistent(name) {
        return Pass;
      }
      adapter.Clear(name);
      r := Pass;
    }

    method ClearAll() returns (r: Outcome)
      requires Valid()
      modifies store
      ensures Valid()
      ensures Step(Snap(), r) == ConfigSpec.ClearAll(old(Snap()))
    {
      if !initialized {
        return Fail(NotInitialized);
      }
      if adapter == null {
        return Fail(NoAdapter);
      }
      ghost var s0 := Snap();
      var keys := library.keys;
      var i := 0;
      while i < |keys|
        invariant 0 <= i <= |keys|
        invariant Valid() && adapter != null
        invariant ClearKeys(Snap(), keys[i..]) == ClearKeys(s0, keys)
      {
        assert keys[i..][1..] == keys[i + 1..];
        if !library.IsNonPersistent(keys[i]) {
          adapter.Clear(keys[i]);
        }
        i := i + 1;
      }
      r := Pass;
    }

    /** The private Init(name): the placeholder write. */
    method InitName(name: string) returns (r: Outcome)
      requires Valid()
      modifies library, store
      ensures Valid()
      ensures Step(Snap(), r) == ConfigSpec.InitName(old(Snap()), name)
    {
      if library.IsNonPersistent(name) {
        return Pass;
      }
      var clean := CleanAndCheckName(name);
      if clean.Err? {
        return Fail(clean.error);
      }
      var isSet := IsSet(clean.value);
      if isSet.Err? {
        return Fail(isSet.error);
      }
      if isSet.value {
        return Pass;
      }
      r := Set(clean.value, Val(""));
    }

    /** The private CleanAndCheckName. */
    method CleanAndCheckName(name: string) returns (r: Result<string>)
      requires Valid()
      ensures r == ConfigSpec.CleanAndCheckName(Snap(), name)
    {
      if !initialized {
        return Err(NotInitialized);
      }
      if adapter == null {
        return Err(NoAdapter);
      }
      var clean := name;
      if '/' in clean {
        clean := Replace(clean, '/', Separator);
      } else {
        ReplaceAbsent(clean, '/', Separator);
      }
      if ':' in clean {
        clean := Replace(clean, ':', Separator);
      } else {
        ReplaceAbsent(clean, ':', Separator);
      }
      assert clean == Normalize(name);
      if clean !in library.values {
        return Err(UnknownOption(clean));
      }
      r := Ok(clean);
    }

    /** The subscribed ItemAdded handler: InitName on the added key. */
    method OnItemAdded(event: Option<ItemAdded>) returns (r: Outcome)
      requires Valid()
      modifies library, store
      ensures Valid()
      ensures Step(Snap(), r) == Notify(old(Snap()), event)
    {
      if event.Some? && library.observed {
        r := InitName(event.value.key);
      } else {
        r := Pass;
      }
    }

    /** Library.Add(key, value), with the notification it fires. */
    method LibraryAdd(key: string, value: Value) returns (r: Outcome)
      requires Valid()
      modifies library, store
      ensures Valid()
      ensures Step(Snap(), r) == ConfigSpec.LibraryAdd(old(Snap()), key, value)
    {
      var event := library.Add(key, value);
      r := OnItemAdded(event);
    }

    /** Library.Add(key), with the notification it fires. */
    method LibraryAddKey(key: string) returns (r: Outcome)
      requires Valid()
      modifies library, store
      ensures Valid()
      ensures Step(Snap(), r) == ConfigSpec.LibraryAddKey(old(Snap()), key)
    {
      var event := library.AddKey(key);
      r := OnItemAdded(event);
    }
  }
}

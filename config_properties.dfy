/** What the Configurator promises, proved about its specification. */
module ConfigProperties {
  import opened Results
  import opened Names
  import opened Registry
  import opened Library
  import opened Options
  import opened ConfigSpec

  /** A persistent option that is not actively set reads as its library
      default and is not reported as set. */
  lemma UnsetReadsDefault(s: Snapshot, name: string)
    requires Good(s) && !s.lib.IsNonPersistent(name) && CleanAndCheckName(s, name).Ok?
    requires Stored(s, Normalize(name)) == ""
    ensures Get(s, name) == Ok(s.lib.values[Normalize(name)])
    ensures IsSet(s, name) == Ok(false)
  {
  }

  /** Before Init every operation on a persistent name throws
      NotInitialized and changes nothing. */
  lemma BeforeInitFails(s: Snapshot, name: string, v: Value)
    requires Good(s) && !s.initialized && !s.lib.IsNonPersistent(name)
    ensures Get(s, name) == Err(NotInitialized) && IsSet(s, name) == Err(NotInitialized)
    ensures Set(s, name, v) == Step(s, Fail(NotInitialized))
    ensures Delete(s, name) == Step(s, Fail(NotInitialized)) && Clear(s, name) == Step(s, Fail(NotInitialized))
    ensures DeleteAll(s) == Step(s, Fail(NotInitialized)) && ClearAll(s) == Step(s, Fail(NotInitialized))
    ensures InitName(s, name) == Step(s, Fail(NotInitialized))
  {
  }

  /** After Init a persistent name whose normalised form is not registered
      throws UnknownOption on Get, IsSet and Set, and nothing changes. */
  lemma UnregisteredFails(s: Snapshot, name: string, v: Value)
    requires Good(s) && Ready(s) == Pass && !s.lib.IsNonPersistent(name)
    requires Normalize(name) !in s.lib.values
    ensures Get(s, name) == Err(UnknownOption(Normalize(name)))
    ensures IsSet(s, name) == Err(UnknownOption(Normalize(name)))
    ensures Set(s, name, v) == Step(s, Fail(UnknownOption(Normalize(name))))
  {
  }

  /** Set then Get on a persistent option gives back the string written, or
      the default when that string is empty (Set with null included); the
      library itself is not touched. */
  lemma SetThenGet(s: Snapshot, name: string, v: Value)
    requires Good(s) && !s.lib.IsNonPersistent(name) && CleanAndCheckName(s, name).Ok?
    ensures var t := Set(s, name, v);
      && t.outcome == Pass
      && t.state == s.(store := t.state.store)
      && Get(t.state, name) == Ok(if Text(v) == "" then s.lib.values[Normalize(name)] else Val(Text(v)))
      && IsSet(t.state, name) == Ok(Text(v) != "")
  {
  }

  /** Set on one persistent option leaves what every other option reads unchanged. */
  lemma SetLeavesOthers(s: Snapshot, name: string, v: Value, other: string)
    requires Good(s) && !s.lib.IsNonPersistent(name) && CleanAndCheckName(s, name).Ok?
    requires Normalize(other) != Normalize(name)
    ensures Get(Set(s, name, v).state, other) == Get(s, other)
    ensures IsSet(Set(s, name, v).state, other) == IsSet(s, other)
  {
    var conf := s.adapter.value;
    WriteThenRead(s.store, s.host, conf.forceLocalStorage, conf.path, Normalize(name), Text(v), Normalize(other));
  }

  /** A non-persistent option lives in the library only: Get reads it even
      before Init, Set writes it there, Delete and Clear do nothing, and the
      registry is never touched. */
  lemma NonPersistentStaysInMemory(s: Snapshot, name: string, v: Value)
    requires Good(s) && s.lib.IsNonPersistent(name)
    ensures Get(s, name) == Ok(s.lib.values[name])
    ensures Set(s, name, v) == Step(s.(lib := s.lib.Put(name, v)), Pass)
    ensures Get(Set(s, name, v).state, name) == Ok(v)
    ensures Delete(s, name) == Step(s, Ready(s)) && Clear(s, name) == Step(s, Ready(s))
  {
  }

  /** Clear on a registered persistent option, spelled canonically, makes it
      unset and reads the default again; the option stays registered. */
  lemma ClearThenGet(s: Snapshot, name: string)
    requires Good(s) && Ready(s) == Pass
    requires IsClean(name) && name in s.lib.values && !s.lib.IsNonPersistent(name)
    ensures var t := Clear(s, name);
      && t.outcome == Pass && t.state.lib == s.lib
      && Loc(t.state, name) in t.state.store
      && IsSet(t.state, name) == Ok(false)
      && Get(t.state, name) == Ok(s.lib.values[name])
  {
    NormalizeKeepsClean(name);
  }

  /** Delete removes a stored value, after which the option reads its
      default; deleting a value that is not there throws and changes nothing. */
  lemma DeleteThenGet(s: Snapshot, name: string)
    requires Good(s) && Ready(s) == Pass
    requires IsClean(name) && name in s.lib.values && !s.lib.IsNonPersistent(name)
    ensures Loc(s, name) in s.store ==>
      var t := Delete(s, name);
      && t.outcome == Pass && t.state.lib == s.lib
      && Loc(t.state, name) !in t.state.store
      && Get(t.state, name) == Ok(s.lib.values[name])
      && Delete(t.state, name) == Step(t.state, Fail(ValueNotFound(SplitName(name).leaf)))
    ensures Loc(s, name) !in s.store ==>
      Delete(s, name) == Step(s, Fail(ValueNotFound(SplitName(name).leaf)))
  {
    NormalizeKeepsClean(name);
  }

  /** Delete and Clear hand the raw name to the adapter: spelled with ':' or
      '/', they address a different registry value from the option's own,
      which keeps what it held. */
  lemma RawNameMissesOption(s: Snapshot, name: string)
    requires Good(s) && Ready(s) == Pass && !s.lib.IsNonPersistent(name) && !IsClean(name)
    ensures Stored(Clear(s, name).state, Normalize(name)) == Stored(s, Normalize(name))
    ensures Stored(Delete(s, name).state, Normalize(name)) == Stored(s, Normalize(name))
  {
    var conf := s.adapter.value;
    if Loc(s, name) == Loc(s, Normalize(name)) {
      LocalKeyInjective(s.host, conf.forceLocalStorage, conf.path, name, Normalize(name));
    }
  }

  /** The non-persistent test looks at the name as written, so a `:` or `/`
      spelling of a non-persistent option goes to the registry, under the
      option's own normalised name. */
  lemma RawSpellingOfNonPersistent(s: Snapshot, raw: string, v: Value)
    requires Good(s) && Ready(s) == Pass
    requires !s.lib.IsNonPersistent(raw) && s.lib.IsNonPersistent(Normalize(raw))
    ensures Set(s, raw, v) == Step(s.(store := s.store[Loc(s, Normalize(raw)) := Text(v)]), Pass)
    ensures var stored := Stored(s, Normalize(raw));
      Get(s, raw) == Ok(if stored == "" then s.lib.values[Normalize(raw)] else Val(stored))
  {
  }

  /** IsSet has no non-persistent test: even for a non-persistent option it
      reports whether the registry holds a non-empty value. */
  lemma IsSetReadsRegistryForNonPersistent(s: Snapshot, k: string)
    requires Good(s) && Ready(s) == Pass && IsClean(k) && s.lib.IsNonPersistent(k)
    ensures IsSet(s, k) == Ok(Stored(s, k) != "")
  {
    NormalizeKeepsClean(k);
  }

  /** Delete and Clear never ask whether the name is registered: on a name
      the library does not hold they still reach the registry. */
  lemma DeleteClearSkipRegistration(s: Snapshot, name: string)
    requires Good(s) && Ready(s) == Pass && name !in s.lib.values
    ensures Clear(s, name) == Step(s.(store := s.store[Loc(s, name) := ""]), Pass)
    ensures Delete(s, name) == AdapterDelete(s, name)
  {
  }

  /** The three spellings of a name address the same option, as long as the
      raw spellings are not themselves non-persistent keys. */
  lemma SpellingsAgree(s: Snapshot, a: string, b: string, v: Value)
    requires Good(s) && Normalize(a) == Normalize(b)
    requires !s.lib.IsNonPersistent(a) && !s.lib.IsNonPersistent(b)
    ensures Get(s, a) == Get(s, b) && IsSet(s, a) == IsSet(s, b) && Set(s, a, v) == Set(s, b, v)
  {
  }

  /** An illustration of Names.SameNameUpToSeparators on one short name. */
  lemma SeparatorsInterchangeable()
    ensures Normalize("A:B") == Normalize("A/B") == Normalize("A\\B") == "A\\B"
  {
    var n := "A\\B";
    assert forall i :: 0 <= i < 3 ==> Normalize("A:B")[i] == n[i];
    assert forall i :: 0 <= i < 3 ==> Normalize("A/B")[i] == n[i];
    assert forall i :: 0 <= i < 3 ==> Normalize(n)[i] == n[i];
  }

  /** IsSet depends on the registry alone, never on the library's values. */
  lemma IsSetIgnoresLibraryValues(s: Snapshot, name: string, values: map<string, Value>)
    requires values.Keys == s.lib.values.Keys
    ensures IsSet(s.(lib := s.lib.(values := values)), name) == IsSet(s, name)
  {
  }

  /** The placeholder write never overwrites an actively set value. */
  lemma InitNameNeverOverwrites(s: Snapshot, name: string)
    requires Good(s) && CleanAndCheckName(s, name).Ok?
    requires Stored(s, Normalize(name)) != ""
    ensures InitName(s, name) == Step(s, Pass)
  {
    NormalizeIdempotent(name);
  }

  /** Running the placeholder write again on its own result changes nothing
      and ends the same way, so any number of stacked handlers, each running
      it once, leave the state one run leaves. */
  lemma InitNameIdempotent(s: Snapshot, name: string)
    requires Good(s)
    ensures InitName(InitName(s, name).state, name) == InitName(s, name)
  {
    if !s.lib.IsNonPersistent(name) && CleanAndCheckName(s, name).Ok? {
      var n := Normalize(name);
      if Stored(s, n) == "" {
        PlaceholderStable(s, name);
      } else {
        InitNameNeverOverwrites(s, name);
      }
    }
  }

  /** On an unset persistent option the placeholder write is Set(n, "")
      under the normalised name. */
  lemma InitNameUnsetIsSet(s: Snapshot, name: string)
    requires Good(s) && !s.lib.IsNonPersistent(name) && CleanAndCheckName(s, name).Ok?
    requires Stored(s, Normalize(name)) == ""
    ensures InitName(s, name) == Set(s, Normalize(name), Val(""))
  {
    NormalizeIdempotent(name);
  }

  /** Setting "" twice is setting it once. */
  lemma SetBlankTwice(s: Snapshot, n: string)
    requires Good(s) && CleanAndCheckName(s, n) == Ok(n)
    ensures Set(Set(s, n, Val("")).state, n, Val("")) == Set(s, n, Val(""))
  {
    var u := Set(s, n, Val("")).state;
    if s.lib.IsNonPersistent(n) {
      assert u.lib.Put(n, Val("")) == u.lib;
    } else {
      assert u.store[Loc(u, n) := ""] == u.store;
    }
  }

  /** The second run of a placeholder write that wrote "": it passes the same
      checks, finds the option unset again, and writes the same "". */
  lemma PlaceholderStable(s: Snapshot, name: string)
    requires Good(s) && !s.lib.IsNonPersistent(name) && CleanAndCheckName(s, name).Ok?
    requires Stored(s, Normalize(name)) == ""
    ensures InitName(InitName(s, name).state, name) == InitName(s, name)
  {
    var n := Normalize(name);
    NormalizeIdempotent(name);
    InitNameUnsetIsSet(s, name);
    var u := Set(s, n, Val("")).state;
    assert u.lib.nonPersistent == s.lib.nonPersistent && u.lib.values.Keys == s.lib.values.Keys;
    assert Stored(u, n) == "";
    InitNameUnsetIsSet(u, name);
    SetBlankTwice(s, n);
  }

  /** A raw spelling that is persistent while its normalised form is a
      non-persistent key: the placeholder write reaches Set with the
      normalised name, which overwrites the non-persistent value in the
      library with "" and leaves the registry alone. */
  lemma InitNameOverwritesNonPersistentTarget(s: Snapshot, raw: string)
    requires Good(s) && s.initialized && s.adapter.Some?
    requires !s.lib.IsNonPersistent(raw) && s.lib.IsNonPersistent(Normalize(raw))
    requires Stored(s, Normalize(raw)) == ""
    ensures var t := InitName(s, raw);
      && t == Step(s.(lib := s.lib.Put(Normalize(raw), Val(""))), Pass)
      && t.state.lib.values[Normalize(raw)] == Val("")
      && t.state.store == s.store
  {
    NormalizeIdempotent(raw);
  }

  /** For an unset persistent option the placeholder writes "" under its
      normalised name and nothing else; a non-persistent one is skipped. */
  lemma InitNameWritesPlaceholder(s: Snapshot, name: string)
    requires Good(s)
    ensures s.lib.IsNonPersistent(name) ==> InitName(s, name) == Step(s, Pass)
    ensures !s.lib.IsNonPersistent(name) && !s.lib.IsNonPersistent(Normalize(name)) &&
            CleanAndCheckName(s, name).Ok? && Stored(s, Normalize(name)) == "" ==>
      var t := InitName(s, name);
      && t == Step(s.(store := s.store[Loc(s, Normalize(name)) := ""]), Pass)
      && Get(t.state, name) == Ok(s.lib.values[Normalize(name)])
      && IsSet(t.state, name) == Ok(false)
  {
    NormalizeIdempotent(name);
  }

  /** Registering a new canonical name once the handler is subscribed: the
      option reads a value persisted by an earlier run if there is one, and
      its default otherwise. */
  lemma LibraryAddFresh(s: Snapshot, key: string, v: Value)
    requires Good(s) && s.initialized && s.adapter.Some? && s.observed
    requires IsClean(key) && key !in s.lib.values
    ensures var t := LibraryAdd(s, key, v);
      && t.outcome == Pass
      && t.state.lib == s.lib.Add(key, v).dict
      && Get(t.state, key) == Ok(if Stored(s, key) != "" then Val(Stored(s, key)) else v)
      && IsSet(t.state, key) == Ok(Stored(s, key) != "")
  {
    NormalizeKeepsClean(key);
    var s1 := s.(lib := s.lib.Add(key, v).dict);
    assert !s1.lib.IsNonPersistent(key);
    if Stored(s, key) != "" {
      InitNameNeverOverwrites(s1, key);
    } else {
      InitNameWritesPlaceholder(s1, key);
    }
  }

  /** A name added with ':' or '/' is stored as written, but the handler looks
      it up normalised: the add throws, and Get on that key then throws. */
  lemma LibraryAddUncleanKey(s: Snapshot, key: string, v: Value)
    requires Good(s) && s.initialized && s.adapter.Some? && s.observed
    requires key !in s.lib.values && Normalize(key) != key && Normalize(key) !in s.lib.values
    ensures var t := LibraryAdd(s, key, v);
      && t == Step(s.(lib := s.lib.Add(key, v).dict), Fail(UnknownOption(Normalize(key))))
      && Get(t.state, key) == Err(UnknownOption(Normalize(key)))
  {
  }

  /** A dictionary installed without a subscribed handler gets no
      placeholders for keys added to it later. */
  lemma UnobservedAddWritesNothing(s: Snapshot, key: string, v: Value)
    requires Good(s) && !s.observed
    ensures LibraryAdd(s, key, v) == Step(s.(lib := s.lib.Add(key, v).dict), Pass)
    ensures LibraryAddKey(s, key) == Step(s.(lib := s.lib.AddKey(key).dict), Pass)
  {
  }

  /** Init fails on an empty path; otherwise it leaves the library and the
      registry alone, binds an adapter to the normalised path, and from then
      on a name is accepted exactly when it is registered. */
  lemma InitEffect(s: Snapshot, path: string, forceLocalStorage: bool, name: string)
    ensures path == "" ==> Init(s, path, forceLocalStorage) == Step(s, Fail(InvalidPath))
    ensures path != "" ==>
      var t := Init(s, path, forceLocalStorage);
      && t.outcome == Pass && t.state.initialized && t.state.observed
      && t.state.lib == s.lib && t.state.store == s.store
      && t.state.path == Normalize(path) && IsClean(t.state.path)
      && t.state.adapter == Some(AdapterConf(forceLocalStorage, t.state.path))
      && (CleanAndCheckName(t.state, name).Ok? <==> Normalize(name) in s.lib.values)
  {
  }

  /** Membership in Targets: the location of some persistent name of ks. */
  lemma {:induction false} TargetsMember(s: Snapshot, ks: seq<string>, loc: Location)
    requires s.adapter.Some?
    ensures loc in Targets(s, ks) <==> exists k :: k in ks && !s.lib.IsNonPersistent(k) && Loc(s, k) == loc
  {
    if ks != [] {
      TargetsMember(s, ks[1..], loc);
      if loc in Targets(s, ks) && loc !in Targets(s, ks[1..]) {
        assert ks[0] in ks;
      }
      if exists k :: k in ks && !s.lib.IsNonPersistent(k) && Loc(s, k) == loc {
        var k :| k in ks && !s.lib.IsNonPersistent(k) && Loc(s, k) == loc;
        if k != ks[0] {
          assert k in ks[1..];
        }
      }
    }
  }

  lemma {:induction false} TargetsIgnoreStore(s: Snapshot, store: map<Location, string>, ks: seq<string>)
    requires s.adapter.Some?
    ensures Targets(s.(store := store), ks) == Targets(s, ks)
  {
    if ks != [] {
      TargetsIgnoreStore(s, store, ks[1..]);
    }
  }

  function Blank(locs: set<Location>): (m: map<Location, string>) {
    map loc | loc in locs :: ""
  }

  lemma BlankStep(m: map<Location, string>, loc: Location, locs: set<Location>)
    ensures m[loc := ""] + Blank(locs) == m + Blank({loc} + locs)
  {
  }

  /** The ClearAll loop writes "" at exactly the locations of the persistent
      names, whatever order it visits them in. */
  lemma {:induction false} ClearKeysEffect(s: Snapshot, ks: seq<string>)
    requires s.adapter.Some?
    ensures ClearKeys(s, ks) == s.(store := s.store + Blank(Targets(s, ks)))
    decreases |ks|
  {
    if ks == [] {
      assert s.store + Blank({}) == s.store;
    } else if s.lib.IsNonPersistent(ks[0]) {
      ClearKeysEffect(s, ks[1..]);
    } else {
      var s1 := s.(store := s.store[Loc(s, ks[0]) := ""]);
      ClearKeysEffect(s1, ks[1..]);
      TargetsIgnoreStore(s, s1.store, ks[1..]);
      BlankStep(s.store, Loc(s, ks[0]), Targets(s, ks[1..]));
    }
  }

  /** ClearAll clears every persistent library key and nothing else. */
  lemma ClearAllEffect(s: Snapshot)
    requires Ready(s) == Pass
    ensures ClearAll(s) == Step(s.(store := s.store + Blank(Targets(s, s.lib.keys))), Pass)
    ensures forall loc :: loc in Targets(s, s.lib.keys) <==>
      exists k :: k in s.lib.keys && !s.lib.IsNonPersistent(k) && Loc(s, k) == loc
  {
    ClearKeysEffect(s, s.lib.keys);
    forall loc ensures loc in Targets(s, s.lib.keys) <==>
      exists k :: k in s.lib.keys && !s.lib.IsNonPersistent(k) && Loc(s, k) == loc
    {
      TargetsMember(s, s.lib.keys, loc);
    }
  }

  /** The DeleteAll loop over distinct names succeeds exactly when every
      persistent name has a stored value, and then removes exactly those. */
  lemma {:induction false} DeleteKeysEffect(s: Snapshot, ks: seq<string>)
    requires s.adapter.Some? && Distinct(ks)
    ensures var t := DeleteKeys(s, ks);
      && (t.outcome == Pass <==> Targets(s, ks) <= s.store.Keys)
      && (t.outcome == Pass ==> t.state.store == s.store - Targets(s, ks))
      && (t.outcome.Fail? ==> t.outcome.error.ValueNotFound?)
    decreases |ks|
  {
    if ks == [] {
      return;
    }
    var rest := ks[1..];
    assert Distinct(rest);
    if s.lib.IsNonPersistent(ks[0]) {
      DeleteKeysEffect(s, rest);
      return;
    }
    var loc := Loc(s, ks[0]);
    if loc !in s.store {
      return;
    }
    var s1 := s.(store := s.store - {loc});
    DeleteKeysEffect(s1, rest);
    TargetsIgnoreStore(s, s1.store, rest);
    if loc in Targets(s, rest) {
      TargetsMember(s, rest, loc);
      var k :| k in rest && !s.lib.IsNonPersistent(k) && Loc(s, k) == loc;
      var conf := s.adapter.value;
      LocalKeyInjective(s.host, conf.forceLocalStorage, conf.path, k, ks[0]);
      assert false;
    }
  }

  /** DeleteAll removes every persistent library key's value, and throws on
      the first one that has none; the library is never changed. */
  lemma DeleteAllEffect(s: Snapshot)
    requires Good(s) && Ready(s) == Pass
    ensures var t := DeleteAll(s);
      && t.state == s.(store := t.state.store)
      && (t.outcome == Pass <==> Targets(s, s.lib.keys) <= s.store.Keys)
      && (t.outcome == Pass ==> t.state.store == s.store - Targets(s, s.lib.keys))
  {
    DeleteKeysEffect(s, s.lib.keys);
  }

  /** On a registered canonical name the placeholder write completes and
      changes no value any option reads, only creates the missing entry. */
  lemma InitNameOnRegistered(s: Snapshot, k: string)
    requires Good(s) && s.initialized && s.adapter.Some?
    requires IsClean(k) && k in s.lib.values
    ensures var t := InitName(s, k);
      && t.outcome == Pass && t.state == s.(store := t.state.store)
      && (forall loc :: ValueOf(t.state.store, loc) == ValueOf(s.store, loc))
      && t.state.store.Keys == s.store.Keys + (if s.lib.IsNonPersistent(k) then {} else {Loc(s, k)})
  {
    NormalizeKeepsClean(k);
    if !s.lib.IsNonPersistent(k) {
      assert CleanAndCheckName(s, k) == Ok(k);
      var loc0 := Loc(s, k);
      if Stored(s, k) != "" {
        InitNameNeverOverwrites(s, k);
        assert loc0 in s.store;
        assert s.store.Keys + {loc0} == s.store.Keys;
      } else {
        InitNameWritesPlaceholder(s, k);
        assert InitName(s, k).state.store == s.store[loc0 := ""];
        BlankUnset(s.store, loc0);
      }
    }
  }

  /** Proof helper: writing "" where nothing non-empty is stored changes no
      value read, and only adds the location. */
  lemma BlankUnset(store: map<Location, string>, loc0: Location)
    requires ValueOf(store, loc0) == ""
    ensures forall loc :: ValueOf(store[loc0 := ""], loc) == ValueOf(store, loc)
    ensures store[loc0 := ""].Keys == store.Keys + {loc0}
  {
  }

  /** The placeholder pass over registered canonical names: every persistent
      one ends up with a registry entry, and nothing any option reads changes. */
  lemma {:induction false} InitNamesOnRegistered(s: Snapshot, ks: seq<string>)
    requires Good(s) && s.initialized && s.adapter.Some?
    requires forall k :: k in ks ==> IsClean(k) && k in s.lib.values
    ensures var t := InitNames(s, ks);
      && t.outcome == Pass && t.state == s.(store := t.state.store)
      && (forall loc :: ValueOf(t.state.store, loc) == ValueOf(s.store, loc))
      && t.state.store.Keys == s.store.Keys + Targets(s, ks)
    decreases |ks|
  {
    if ks != [] {
      assert ks[0] in ks;
      InitNameOnRegistered(s, ks[0]);
      var s1 := InitName(s, ks[0]).state;
      forall k | k in ks[1..] ensures IsClean(k) && k in s1.lib.values {
        assert k in ks;
      }
      InitNamesOnRegistered(s1, ks[1..]);
      TargetsIgnoreStore(s, s1.store, ks[1..]);
    }
  }

  /** The Library setter, once initialised, on a dictionary of canonical
      names: the new dictionary and its subscription are installed, every
      persistent key gets a registry entry, and no stored value changes. */
  lemma SetLibraryEffect(s: Snapshot, d: Dict, observed: bool)
    requires Good(s) && Ready(s) == Pass && d.WellFormed()
    requires forall k :: k in d.keys ==> IsClean(k)
    ensures var t := SetLibrary(s, d, observed);
      var s1 := s.(lib := d, observed := observed);
      && t.outcome == Pass && t.state == s1.(store := t.state.store)
      && (forall loc :: ValueOf(t.state.store, loc) == ValueOf(s.store, loc))
      && t.state.store.Keys == s.store.Keys + Targets(s1, d.keys)
  {
    InitNamesOnRegistered(s.(lib := d, observed := observed), d.keys);
  }

  /** Every extension method fails on a member without a descriptor, and
      changes nothing. */
  lemma MissingDescriptorFails(s: Snapshot, v: Value)
    requires Good(s)
    ensures InitConfigurationValue(s, None) == Step(s, Fail(MissingMetadata))
    ensures GetConfigurationValue(s, None) == Err(MissingMetadata)
    ensures SetConfigurationValue(s, None, v) == Step(s, Fail(MissingMetadata))
    ensures GetConfigurationName(None) == Err(MissingMetadata)
  {
  }

  /** A NonPersistent descriptor leaves its key non-persistent with its
      default: the Add that follows finds the key present, so nothing fires
      and the registry is untouched. */
  lemma NonPersistentDescriptor(s: Snapshot, d: Descriptor)
    requires Good(s) && d.nonPersistent && RegistrationName(d) !in s.lib.values
    ensures var t := InitConfigurationValue(s, Some(d));
      && t == Step(s.(lib := s.lib.AddNonPersistent(RegistrationName(d), d.defaultValue).dict), Pass)
      && t.state.lib.IsNonPersistent(RegistrationName(d))
      && t.state.lib.values[RegistrationName(d)] == d.defaultValue
  {
  }

  /** The handler's run on a key just inserted, persistent and canonical:
      it completes, changes only the registry, and the key then reads a
      persisted value or its library value. */
  lemma NotifyOnFresh(s: Snapshot, key: string, payload: Value)
    requires Good(s) && s.initialized && s.adapter.Some? && s.observed
    requires IsClean(key) && key in s.lib.values && !s.lib.IsNonPersistent(key)
    ensures var t := Notify(s, Some(ItemAdded(key, payload)));
      && t.outcome == Pass && t.state == s.(store := t.state.store)
      && Get(t.state, key) == Ok(if Stored(s, key) != "" then Val(Stored(s, key)) else s.lib.values[key])
  {
    NormalizeKeepsClean(key);
    if Stored(s, key) != "" {
      InitNameNeverOverwrites(s, key);
    } else {
      InitNameWritesPlaceholder(s, key);
    }
  }

  /** For a persistent descriptor, InitConfigurationValue is one add, with
      its notification. */
  lemma PersistentInitIsAdd(s: Snapshot, d: Descriptor)
    requires Good(s) && !d.nonPersistent
    ensures InitConfigurationValue(s, Some(d)) ==
      if d.hasType then LibraryAddKey(s, RegistrationName(d))
      else LibraryAdd(s, RegistrationName(d), d.defaultValue)
  {
  }

  /** GetConfigurationValue reads the registered key, although it passes the
      un-normalised name, unless that raw name is itself non-persistent. */
  lemma GetConfigurationValueReadsRegistered(s: Snapshot, d: Descriptor)
    requires Good(s) && !s.lib.IsNonPersistent(ConfigurationName(d))
    requires !s.lib.IsNonPersistent(RegistrationName(d))
    ensures GetConfigurationValue(s, Some(d)) == Get(s, RegistrationName(d))
  {
    SpellingsAgree(s, ConfigurationName(d), RegistrationName(d), Null);
  }

  /** SetConfigurationValue, although it passes the un-normalised full name,
      writes the registered key. */
  lemma SetConfigurationValueWritesRegistered(s: Snapshot, d: Descriptor, v: Value)
    requires Good(s) && !s.lib.IsNonPersistent(ConfigurationName(d))
    requires !s.lib.IsNonPersistent(RegistrationName(d))
    ensures SetConfigurationValue(s, Some(d), v) == Set(s, RegistrationName(d), v)
  {
    SpellingsAgree(s, ConfigurationName(d), RegistrationName(d), v);
  }

  /** A fresh persistent descriptor that declares a type registers null;
      once the handler is subscribed, the key reads a persisted value, or null. */
  lemma TypedDescriptor(s: Snapshot, d: Descriptor)
    requires Good(s) && !d.nonPersistent && d.hasType && RegistrationName(d) !in s.lib.values
    ensures var t := InitConfigurationValue(s, Some(d));
      var name := RegistrationName(d);
      && t.state.lib == s.lib.AddKey(name).dict
      && !t.state.lib.IsNonPersistent(name)
      && (s.initialized && s.adapter.Some? && s.observed ==>
            && t.outcome == Pass
            && Get(t.state, name) == Ok(if Stored(s, name) != "" then Val(Stored(s, name)) else Null))
  {
    var name := RegistrationName(d);
    PersistentInitIsAdd(s, d);
    if s.initialized && s.adapter.Some? && s.observed {
      NotifyOnFresh(s.(lib := s.lib.AddKey(name).dict), name, Val(""));
    }
  }

  /** A fresh persistent descriptor with a default registers that default;
      once the handler is subscribed, the key reads a persisted value, or
      the default. */
  lemma DefaultDescriptor(s: Snapshot, d: Descriptor)
    requires Good(s) && !d.nonPersistent && !d.hasType && RegistrationName(d) !in s.lib.values
    ensures var t := InitConfigurationValue(s, Some(d));
      var name := RegistrationName(d);
      && t.state.lib == s.lib.Add(name, d.defaultValue).dict
      && !t.state.lib.IsNonPersistent(name)
      && (s.initialized && s.adapter.Some? && s.observed ==>
            && t.outcome == Pass
            && Get(t.state, name) == Ok(if Stored(s, name) != "" then Val(Stored(s, name)) else d.defaultValue))
  {
    var name := RegistrationName(d);
    PersistentInitIsAdd(s, d);
    if s.initialized && s.adapter.Some? && s.observed {
      NotifyOnFresh(s.(lib := s.lib.Add(name, d.defaultValue).dict), name, d.defaultValue);
    }
  }

  /** The DeleteAll loop over a + b is the loop over a, then over b unless
      a threw. */
  lemma {:induction false} DeleteKeysSplits(s: Snapshot, a: seq<string>, b: seq<string>)
    requires s.adapter.Some?
    ensures DeleteKeys(s, a + b) ==
      var st := DeleteKeys(s, a);
      if st.outcome.Fail? then st else DeleteKeys(st.state, b)
    decreases |a|
  {
    if a == [] {
      assert a + b == b;
    } else {
      assert (a + b)[0] == a[0] && (a + b)[1..] == a[1..] + b;
      if s.lib.IsNonPersistent(a[0]) {
        DeleteKeysSplits(s, a[1..], b);
      } else {
        var st := AdapterDelete(s, a[0]);
        if st.outcome.Pass? {
          DeleteKeysSplits(st.state, a[1..], b);
        }
      }
    }
  }

  /** The DeleteAll loop stops at the first persistent key with nothing stored:
      the deletes before it are kept, and nothing after it is deleted. */
  lemma DeleteKeysStopsAtMissing(s: Snapshot, before: seq<string>, k: string, after: seq<string>)
    requires s.adapter.Some?
    requires DeleteKeys(s, before).outcome == Pass
    requires !s.lib.IsNonPersistent(k) && Loc(s, k) !in DeleteKeys(s, before).state.store
    ensures DeleteKeys(s, before + [k] + after) ==
      Step(DeleteKeys(s, before).state, Fail(ValueNotFound(Loc(s, k).leaf)))
  {
    assert before + [k] + after == before + ([k] + after);
    DeleteKeysSplits(s, before, [k] + after);
    assert ([k] + after)[0] == k;
  }

  /** The scan of Init<T> over a + b is the scan over a, then over b unless a threw. */
  lemma {:induction false} ScanSplits(s: Snapshot, a: seq<Option<Descriptor>>, b: seq<Option<Descriptor>>)
    requires Good(s)
    ensures InitConfigurationValues(s, a + b) ==
      var st := InitConfigurationValues(s, a);
      if st.outcome.Fail? then st else InitConfigurationValues(st.state, b)
    decreases |a|
  {
    if a == [] {
      assert a + b == b;
    } else {
      assert (a + b)[0] == a[0] && (a + b)[1..] == a[1..] + b;
      var st := InitConfigurationValue(s, a[0]);
      if st.outcome.Pass? {
        ScanSplits(st.state, a[1..], b);
      }
    }
  }

  /** A member without a descriptor stops the scan with MissingMetadata,
      leaving the members before it registered. */
  lemma ScanStopsAtMissing(s: Snapshot, before: seq<Option<Descriptor>>, after: seq<Option<Descriptor>>)
    requires Good(s) && InitConfigurationValues(s, before).outcome == Pass
    ensures InitConfigurationValues(s, before + [None] + after) ==
      Step(InitConfigurationValues(s, before).state, Fail(MissingMetadata))
  {
    assert before + [None] + after == before + ([None] + after);
    ScanSplits(s, before, [None] + after);
  }

  /** A walk-through, for any new canonical key such as
      App\\Style: register it with default 0, read 0, set 5, read 5, clear,
      read 0 again. */
  lemma WalkThrough(s0: Snapshot, key: string)
    requires Good(s0) && s0.initialized && s0.adapter.Some? && s0.observed
    requires IsClean(key) && key !in s0.lib.values && Stored(s0, key) == ""
    ensures var s1 := LibraryAdd(s0, key, Val("0")).state;
      var s2 := Set(s1, key, Val("5")).state;
      var s3 := Clear(s2, key).state;
      && Get(s1, key) == Ok(Val("0"))
      && Get(s2, key) == Ok(Val("5"))
      && Get(s3, key) == Ok(Val("0"))
  {
    LibraryAddFresh(s0, key, Val("0"));
    var s1 := LibraryAdd(s0, key, Val("0")).state;
    NormalizeKeepsClean(key);
    SetThenGet(s1, key, Val("5"));
    var s2 := Set(s1, key, Val("5")).state;
    ClearThenGet(s2, key);
  }
}

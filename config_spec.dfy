/** The meaning of every Configurator operation and of the enum extensions,
    as functions from one snapshot of the whole state to the next. The
    imperative Configurator is proved to follow these. */
module ConfigSpec {
  import opened Results
  import opened Names
  import opened Registry
  import opened Library
  import opened Options

  /** What an adapter was constructed with. */
  datatype AdapterConf = AdapterConf(forceLocalStorage: bool, path: string)

  /** Configurator's static fields, the library's content and subscription,
      and the machine's registry. */
  datatype Snapshot = Snapshot(
    initialized: bool,
    forceLocalStorage: bool,
    path: string,
    adapter: Option<AdapterConf>,
    lib: Dict,
    observed: bool,
    store: map<Location, string>,
    host: Host)

  /** The state after an operation and whether it completed or threw. */
  datatype Step = Step(state: Snapshot, outcome: Outcome)

  ghost predicate Good(s: Snapshot) {
    s.lib.WellFormed()
  }

  /** The state the program starts in. */
  function Start(store: map<Location, string>, host: Host): (s: Snapshot)
    ensures Good(s) && !s.initialized && s.adapter.None?
  {
    Snapshot(false, false, "", None, Empty, false, store, host)
  }

  /** The location the adapter resolves `name` to. */
  function Loc(s: Snapshot, name: string): (loc: Location)
    requires s.adapter.Some?
  {
    LocalKey(s.host, s.adapter.value.forceLocalStorage, s.adapter.value.path, name)
  }

  /** What adapter Get returns for `name`. */
  function Stored(s: Snapshot, name: string): (value: string)
    requires s.adapter.Some?
  {
    ValueOf(s.store, Loc(s, name))
  }

  /** value.ToString(), or "" for null. */
  function Text(v: Value): (text: string) {
    match v
    case Null => ""
    case Val(t) => t
  }

  /** CleanAndCheckName: the normalised name, provided the configurator is
      initialised and the name is a library key. */
  function CleanAndCheckName(s: Snapshot, name: string): (r: Result<string>)
    ensures r.Ok? <==> s.initialized && s.adapter.Some? && Normalize(name) in s.lib.values
    ensures r.Ok? ==> r.value == Normalize(name) && IsClean(r.value)
    ensures !s.initialized ==> r == Err(NotInitialized)
    ensures s.initialized && r.Err? && s.adapter.Some? ==> r == Err(UnknownOption(Normalize(name)))
  {
    if !s.initialized then Err(NotInitialized)
    else if s.adapter.None? then Err(NoAdapter)
    else
      var n := Normalize(name);
      if n !in s.lib.values then Err(UnknownOption(n)) else Ok(n)
  }

  function IsSet(s: Snapshot, name: string): (r: Result<bool>)
  {
    match CleanAndCheckName(s, name)
    case Err(e) => Err(e)
    case Ok(n) => Ok(Stored(s, n) != "")
  }

  function Get(s: Snapshot, name: string): (r: Result<Value>)
    requires Good(s)
  {
    if s.lib.IsNonPersistent(name) then Ok(s.lib.values[name])
    else
      match CleanAndCheckName(s, name)
      case Err(e) => Err(e)
      case Ok(n) =>
        var stored := Stored(s, n);
        Ok(if stored == "" then s.lib.values[n] else Val(stored))
  }

  function Set(s: Snapshot, name: string, v: Value): (r: Step)
    requires Good(s)
    ensures Good(r.state)
  {
    if s.lib.IsNonPersistent(name) then Step(s.(lib := s.lib.Put(name, v)), Pass)
    else
      match CleanAndCheckName(s, name)
      case Err(e) => Step(s, Fail(e))
      case Ok(n) => Step(s.(store := s.store[Loc(s, n) := Text(v)]), Pass)
  }

  /** Adapter Delete: removes the value, or throws when there is none. */
  function AdapterDelete(s: Snapshot, name: string): (r: Step)
    requires s.adapter.Some?
    ensures r.state == s.(store := r.state.store)
  {
    var loc := Loc(s, name);
    if loc in s.store then Step(s.(store := s.store - {loc}), Pass)
    else Step(s, Fail(ValueNotFound(loc.leaf)))
  }

  /** The two checks Delete, Clear and their -All forms start with. */
  function Ready(s: Snapshot): (r: Outcome)
    ensures r == Pass <==> s.initialized && s.adapter.Some?
  {
    if !s.initialized then Fail(NotInitialized)
    else if s.adapter.None? then Fail(NoAdapter)
    else Pass
  }

  /** Delete hands the raw name to the adapter and never checks the library. */
  function Delete(s: Snapshot, name: string): (r: Step)
  {
    if Ready(s).Fail? then Step(s, Ready(s))
    else if s.lib.IsNonPersistent(name) then Step(s, Pass)
    else AdapterDelete(s, name)
  }

  /** Clear hands the raw name to the adapter, which writes "". */
  function Clear(s: Snapshot, name: string): (r: Step)
  {
    if Ready(s).Fail? then Step(s, Ready(s))
    else if s.lib.IsNonPersistent(name) then Step(s, Pass)
    else Step(s.(store := s.store[Loc(s, name) := ""]), Pass)
  }

  /** The locations of the persistent names among `ks`. */
  function Targets(s: Snapshot, ks: seq<string>): (locs: set<Location>)
    requires s.adapter.Some?
  {
    if ks == [] then {}
    else (if s.lib.IsNonPersistent(ks[0]) then {} else {Loc(s, ks[0])}) + Targets(s, ks[1..])
  }

  /** The loop of DeleteAll, from the key at the head of `ks` on. */
  function DeleteKeys(s: Snapshot, ks: seq<string>): (r: Step)
    requires s.adapter.Some?
    ensures r.state == s.(store := r.state.store)
    decreases |ks|
  {
    if ks == [] then Step(s, Pass)
    else if s.lib.IsNonPersistent(ks[0]) then DeleteKeys(s, ks[1..])
    else
      var st := AdapterDelete(s, ks[0]);
      if st.outcome.Fail? then st else DeleteKeys(st.state, ks[1..])
  }

  /** The loop of ClearAll. */
  function ClearKeys(s: Snapshot, ks: seq<string>): (r: Snapshot)
    requires s.adapter.Some?
    ensures r == s.(store := r.store)
    decreases |ks|
  {
    if ks == [] then s
    else if s.lib.IsNonPersistent(ks[0]) then ClearKeys(s, ks[1..])
    else ClearKeys(s.(store := s.store[Loc(s, ks[0]) := ""]), ks[1..])
  }

  function DeleteAll(s: Snapshot): (r: Step)
  {
    if Ready(s).Fail? then Step(s, Ready(s)) else DeleteKeys(s, s.lib.keys)
  }

  function ClearAll(s: Snapshot): (r: Step)
  {
    if Ready(s).Fail? then Step(s, Ready(s)) else Step(ClearKeys(s, s.lib.keys), Pass)
  }

  /** The private Init(name): write an empty placeholder for a persistent
      option that is not actively set. */
  function InitName(s: Snapshot, name: string): (r: Step)
    requires Good(s)
    ensures Good(r.state)
  {
    if s.lib.IsNonPersistent(name) then Step(s, Pass)
    else
      match CleanAndCheckName(s, name)
      case Err(e) => Step(s, Fail(e))
      case Ok(n) =>
        match IsSet(s, n)
        case Err(e) => Step(s, Fail(e))
        case Ok(isSet) => if isSet then Step(s, Pass) else Set(s, n, Val(""))
  }

  /** InitName for every name of `ks` in turn, stopping at the first throw. */
  function InitNames(s: Snapshot, ks: seq<string>): (r: Step)
    requires Good(s)
    ensures Good(r.state)
    decreases |ks|
  {
    if ks == [] then Step(s, Pass)
    else
      var st := InitName(s, ks[0]);
      if st.outcome.Fail? then st else InitNames(st.state, ks[1..])
  }

  /** The Library setter: the new dictionary replaces the old one (with its
      own subscription), then every key of it gets its placeholder. */
  function SetLibrary(s: Snapshot, d: Dict, observed: bool): (r: Step)
    requires d.WellFormed()
    ensures Good(r.state)
  {
    InitNames(s.(lib := d, observed := observed), d.keys)
  }

  /** Init(path, forceLocalStorage): check the path, subscribe the placeholder
      handler, and bind an adapter to the normalised path. */
  function Init(s: Snapshot, path: string, forceLocalStorage: bool): (r: Step)
    ensures Good(s) ==> Good(r.state)
  {
    if path == "" then Step(s, Fail(InvalidPath))
    else
      var p := Normalize(path);
      Step(s.(initialized := true, forceLocalStorage := forceLocalStorage, path := p,
              adapter := Some(AdapterConf(forceLocalStorage, p)), observed := true), Pass)
  }

  /** The ItemAdded handler, when one is subscribed, runs InitName on the key. */
  function Notify(s: Snapshot, event: Option<ItemAdded>): (r: Step)
    requires Good(s)
    ensures Good(r.state)
  {
    if event.Some? && s.observed then InitName(s, event.value.key) else Step(s, Pass)
  }

  /** Configurator.Library.Add(key, value). */
  function LibraryAdd(s: Snapshot, key: string, v: Value): (r: Step)
    requires Good(s)
    ensures Good(r.state)
  {
    var o := s.lib.Add(key, v);
    Notify(s.(lib := o.dict), o.event)
  }

  /** Configurator.Library.Add(key). */
  function LibraryAddKey(s: Snapshot, key: string): (r: Step)
    requires Good(s)
    ensures Good(r.state)
  {
    var o := s.lib.AddKey(key);
    Notify(s.(lib := o.dict), o.event)
  }

  /** Configurator.Library.AddNonPersistent(key, value): no notification. */
  function LibraryAddNonPersistent(s: Snapshot, key: string, v: Value): (r: Snapshot)
    requires Good(s)
    ensures Good(r)
  {
    s.(lib := s.lib.AddNonPersistent(key, v).dict)
  }

  /** InitConfigurationValue for one enum member. */
  function InitConfigurationValue(s: Snapshot, member: Option<Descriptor>): (r: Step)
    requires Good(s)
    ensures Good(r.state)
  {
    match member
    case None => Step(s, Fail(MissingMetadata))
    case Some(d) =>
      var name := RegistrationName(d);
      var s1 := if d.nonPersistent then LibraryAddNonPersistent(s, name, d.defaultValue) else s;
      if d.hasType then LibraryAddKey(s1, name)
      else LibraryAdd(s1, RegistrationName(d), d.defaultValue)
  }

  /** GetConfigurationValue: Get on the un-normalised full name. */
  function GetConfigurationValue(s: Snapshot, member: Option<Descriptor>): (r: Result<Value>)
    requires Good(s)
  {
    match member
    case None => Err(MissingMetadata)
    case Some(d) => Get(s, ConfigurationName(d))
  }

  /** SetConfigurationValue: Set on the un-normalised full name. */
  function SetConfigurationValue(s: Snapshot, member: Option<Descriptor>, v: Value): (r: Step)
    requires Good(s)
    ensures Good(r.state)
  {
    match member
    case None => Step(s, Fail(MissingMetadata))
    case Some(d) => Set(s, ConfigurationName(d), v)
  }

  /** The scan of Init<T>: every member in the order Enum.GetValues yields them, stopping at the first throw. */
  function InitConfigurationValues(s: Snapshot, members: seq<Option<Descriptor>>): (r: Step)
    requires Good(s)
    ensures Good(r.state)
    decreases |members|
  {
    if members == [] then Step(s, Pass)
    else
      var st := InitConfigurationValue(s, members[0]);
      if st.outcome.Fail? then st else InitConfigurationValues(st.state, members[1..])
  }

  /** Proof helper: one step of the scan, the definition unfolded once. */
  lemma ScanStep(s: Snapshot, members: seq<Option<Descriptor>>)
    requires Good(s) && members != []
    ensures InitConfigurationValues(s, members) ==
      var st := InitConfigurationValue(s, members[0]);
      if st.outcome.Fail? then st else InitConfigurationValues(st.state, members[1..])
  {
  }

  /** Init<T>(path, forceLocalStorage): the plain Init, then the scan. */
  function InitWithOptions(s: Snapshot, path: string, forceLocalStorage: bool,
                           members: seq<Option<Descriptor>>): (r: Step)
    requires Good(s)
    ensures Good(r.state)
  {
    var st := Init(s, path, forceLocalStorage);
    if st.outcome.Fail? then st else InitConfigurationValues(st.state, members)
  }
}

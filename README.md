# Qonfig, modelled in Dafny

Qonfig is a small .NET configuration library. The application declares named
options, each with a default value, in an option library (an
`ObservableDictionary`). The static `Configurator` reads and writes their
values in the Windows registry through a `RegistryAdapter`. Depending on the
process's privileges and a force-local flag, values go under
`HKLM\Software\<path>` or `HKCU\Software\<path>`.

The library's rules, as this model keeps them:
- A stored empty string means "not set", so the declared default is returned.
- Get, Set, Delete and Clear on a non-persistent option's own spelling never
  reach the registry. IsSet does, and so do Get and Set on a `:` or `/`
  spelling of it, because the non-persistent test looks at the name as written.
- `:` and `/` are accepted as group separators and rewritten to `\`.
- Enum members carrying an option attribute can register themselves with
  `Init<T>`.

## Layout

| file | module | models |
|---|---|---|
| `results.dfy` | `Results` | `Option`, `Result`, `Outcome` (completed, or threw with an `Error`) |
| `names.dfy` | `Names` | separator rewriting (`String.Replace`) and its laws |
| `registry.dfy` | `Registry` | `RegistryAdapter`: hive and view choice, name split, get/set/delete/clear on a `Store` class holding the registry as a map |
| `library.dfy` | `Library` | `ObservableDictionary` as a class, and its abstract value `Dict` |
| `options.dfy` | `Options` | the option attribute as a `Descriptor` datatype, and the names built from it |
| `config_spec.dfy` | `ConfigSpec` | every `Configurator` operation as a function from one `Snapshot` of the whole state to a `Step` (the new state and whether the operation threw) |
| `configurator.dfy` | `Configuration` | the imperative `Configurator` class, each method proved to follow its `ConfigSpec` function |
| `enum_extensions.dfy` | `EnumExtensions` | the enum extension methods and `Init<T>`, as methods on a `Configurator` |
| `config_properties.dfy` | `ConfigProperties` | what the library promises, proved about `ConfigSpec` |

A C# exception becomes an `Outcome` of `Fail(e)`, or an `Err(e)` result.
Effects that happen before the throw are kept in the state. For example, an
`Add` whose notification handler throws still leaves the key inserted.

The static fields of `Configurator` are the fields of one `Configurator`
object. The registry is a `Store` object shared by the configurator and its
adapter. It holds a `map<Location, string>`, where a `Location` is a hive,
a view, a subkey path and a value name. The store also holds the process's
current elevation and whether the operating system is 64-bit. Every adapter
call reads both again, as the source does.

A few `ConfigSpec` functions state their meaning in their own contracts
(`Start`, `CleanAndCheckName`, `Ready`, and the frame of `AdapterDelete`,
`DeleteKeys` and `ClearKeys`). Most of the others only promise to keep the
library well formed. The `Configuration` methods are proved to follow these
functions, and the `ConfigProperties` lemmas state what the functions mean.

## Model

| member | source | states |
|---|---|---|
| `Names.Replace` | Configurator.cs:221-222 | the result has the input's length, and each character equal to `from` becomes `to` while every other character is kept |
| `Names.ReplaceAbsent` | Configurator.cs:221-222 | the replace guarded by `Contains` may be skipped, because replacing an absent character changes nothing |
| `Names.Normalize` | Configurator.cs:30 | every `/` and `:` becomes `\`, every other character is kept, the length is unchanged, and the result contains neither `/` nor `:` |
| `Names.NormalizeIdempotent` | Configurator.cs:221-222 | normalising an already normalised name changes nothing |
| `Names.NormalizeKeepsClean` | Configurator.cs:221-222 | a name without `/` and `:` is returned as it is |
| `Names.ReplaceOrderIrrelevant` | Extensions/EnumConfigurationExtensions.cs:42 | replacing `:` first and `/` second gives the same string as the Configurator's `/`-then-`:` order |
| `Names.SameNameUpToSeparators` | Configurator.cs:221-223 | two names address the same option if and only if they have the same length and differ only where both hold one of the three separators |
| `Registry.BaseHive` | Adapters/RegistryAdapter.cs:74-87 | the hive is LocalMachine exactly when the process is elevated and local storage is not forced, and CurrentUser otherwise |
| `Registry.BaseView` | Adapters/RegistryAdapter.cs:74-87 | the 64-bit view is used exactly on a 64-bit operating system |
| `Registry.LastIndexOf` | Adapters/RegistryAdapter.cs:92 | -1 exactly when the character is absent; otherwise the index holds that character and no later index does |
| `Registry.SplitName` | Adapters/RegistryAdapter.cs:90-93 | a name without `\` is its own leaf with no group; otherwise group + `\` + leaf is the name; the leaf never contains `\` |
| `Registry.LocalKey` | Adapters/RegistryAdapter.cs:71-96 | the hive is LocalMachine exactly when elevated and local storage is not forced; the 64-bit view exactly on a 64-bit system; the subkey starts with `Software\` + path; the leaf has no `\`; a name without `\` is the leaf directly under `Software\` + path |
| `Registry.HiveIgnoresView` | Adapters/RegistryAdapter.cs:74-87 | the hive is the same under either view, and it is LocalMachine exactly when elevated and not forced local |
| `Registry.LocalKeyShape` | Adapters/RegistryAdapter.cs:88-94 | the subkey starts with `Software\` + path; the leaf has no `\`; a name without `\` is the leaf under that key; otherwise the extra subkey part, `\` and the leaf give back the name |
| `Registry.LocalKeyInjective` | Adapters/RegistryAdapter.cs:71-96 | two names resolving to the same location are the same name |
| `Registry.WriteThenRead` | Adapters/RegistryAdapter.cs:26-45 | after a set of one name, reading that name gives the value written, and reading any other name gives what it gave before |
| `Registry.RegistryAdapter.constructor` | Adapters/RegistryAdapter.cs:16-19 | the adapter keeps the force-local flag and root path it was built with |
| `Registry.RegistryAdapter.GetLocalKey` | Adapters/RegistryAdapter.cs:71-96 | the same choice of hive, view, subkey prefix and leaf as `Registry.LocalKey`, made from the store's current elevation and 64-bit flag |
| `Registry.RegistryAdapter.Get` | Adapters/RegistryAdapter.cs:26-35 | returns the stored string, or "" when no value is stored; a non-empty result means a value exists |
| `Registry.RegistryAdapter.Set` | Adapters/RegistryAdapter.cs:42-45 | the value at the name's location becomes the string, and nothing else in the registry changes |
| `Registry.RegistryAdapter.Delete` | Adapters/RegistryAdapter.cs:51-55 | an existing value is removed; a missing one makes DeleteValue throw with the leaf name and changes nothing |
| `Registry.RegistryAdapter.Clear` | Adapters/RegistryAdapter.cs:61-64 | the value is overwritten with "" rather than removed |
| `Library.IndexOf` | Dictionaries/ObservableDictionary.cs:83-94 | the number of keys enumerated before `key`: below the count exactly when the key is present, the key sits there, and no earlier key equals it |
| `Library.Dict.Add` | Dictionaries/ObservableDictionary.cs:37-45 | an absent key is appended with its value and exactly one ItemAdded(key, value) is produced; a present key changes nothing and fires nothing; keys stay unique |
| `Library.Dict.AddKey` | Dictionaries/ObservableDictionary.cs:66-74 | an absent key is inserted with null, but ItemAdded carries the payload ""; a present key changes nothing and fires nothing |
| `Library.Dict.AddNonPersistent` | Dictionaries/ObservableDictionary.cs:52-60 | an absent key is inserted and appended to the non-persistent list; no event in either case; afterwards the key is non-persistent exactly when it was absent or already non-persistent |
| `Library.Dict.Put` | Configurator.cs:139 | the indexer set replaces, or adds, the value without an event and without marking the key |
| `Library.AddsIdempotent` | Dictionaries/ObservableDictionary.cs:37-74 | after any of the three adds, a second add of the same key by any of the three changes nothing and fires nothing |
| `Library.NonPersistentThenAdd` | Extensions/EnumConfigurationExtensions.cs:44-49 | a key added non-persistent stays non-persistent with its value, and a following Add or Add(key) fires nothing |
| `Library.ObservableDictionary.constructor` | Dictionaries/ObservableDictionary.cs:16-20 | a new dictionary is empty, with no non-persistent keys and no handler |
| `Library.ObservableDictionary.IsNonPersistent` | Dictionaries/ObservableDictionary.cs:26-30 | true exactly when the key is in the non-persistent list; such a key is always a dictionary key |
| `Library.ObservableDictionary.TryGetKeyIndex` | Dictionaries/ObservableDictionary.cs:83-94 | true exactly when the key is present; then `idx` has advanced by the number of keys enumerated before it, and otherwise by the number of keys |
| `Library.ObservableDictionary.Add` | Dictionaries/ObservableDictionary.cs:37-45 | the dictionary changes as `Dict.Add` says and the returned event is the one `Dict.Add` fires; the invariant is kept |
| `Library.ObservableDictionary.AddKey` | Dictionaries/ObservableDictionary.cs:66-74 | the dictionary and event are those of `Dict.AddKey` |
| `Library.ObservableDictionary.AddNonPersistent` | Dictionaries/ObservableDictionary.cs:52-60 | the dictionary becomes what `Dict.AddNonPersistent` gives |
| `Library.ObservableDictionary.Put` | Configurator.cs:139 | the dictionary becomes what `Dict.Put` gives |
| `Library.ObservableDictionary.Subscribe` | Configurator.cs:27 | a handler is attached, and the contents are unchanged |
| `Options.ConfigurationName` | Extensions/EnumConfigurationExtensions.cs:20-21 | Name when Path is empty, and Path + `\` + Name otherwise; it always ends in Name |
| `Options.GetConfigurationName` | Extensions/EnumConfigurationExtensions.cs:12-24 | fails with MissingMetadata exactly when the member has no descriptor, and otherwise gives the full name |
| `Options.RegistrationName` | Extensions/EnumConfigurationExtensions.cs:39-42 | the `:`-then-`/` rewrite is the normalised full name, so the keys built at lines 42 and 49 agree and contain no `:` or `/` |
| `Options.CleanDescriptorKeepsName` | Extensions/EnumConfigurationExtensions.cs:39-49 | a descriptor whose name and path have no `:` or `/` registers under its full name unchanged |
| `ConfigSpec.Start` | Configurator.cs:55-71 | the initial state is not initialised, has no adapter, and has a well-formed (empty) library |
| `ConfigSpec.CleanAndCheckName` | Configurator.cs:216-224 | succeeds exactly when initialised, with an adapter, and the normalised name is a library key; it then returns that name, free of `:` and `/`; before Init it fails with NotInitialized, and after Init an unknown name fails with UnknownOption |
| `ConfigSpec.Ready` | Configurator.cs:154-155 | passes exactly when initialised and with an adapter |
| `ConfigSpec.DeleteKeys` | Configurator.cs:168-169 | the DeleteAll loop changes nothing but the registry; which values it removes, and when it completes, is `ConfigProperties.DeleteKeysEffect` |
| `ConfigSpec.ClearKeys` | Configurator.cs:192-193 | the ClearAll loop changes nothing but the registry; which values it blanks is `ConfigProperties.ClearKeysEffect` |
| `ConfigSpec.InitNames` | Configurator.cs:87-88 | the placeholder pass keeps the library well formed; what it writes is `ConfigProperties.InitNamesOnRegistered` |
| `ConfigSpec.InitConfigurationValues` | Configurator.cs:47-48 | the scan of the enum members keeps the library well formed; how it splits and where it stops is `ConfigProperties.ScanSplits` and `ConfigProperties.ScanStopsAtMissing` |
| `Configuration.Configurator.constructor` | Configurator.cs:55-71 | the object starts in the state `ConfigSpec.Start` describes |
| `Configuration.Configurator.Init` | Configurator.cs:22-33 | the new state and outcome are those of `ConfigSpec.Init` (see `ConfigProperties.InitEffect`) |
| `Configuration.Configurator.SetLibrary` | Configurator.cs:84-89 | the loop over the new dictionary's keys ends in the state and outcome of `ConfigSpec.SetLibrary` (see `ConfigProperties.SetLibraryEffect`) |
| `Configuration.Configurator.IsSet` | Configurator.cs:99-108 | returns `ConfigSpec.IsSet` of the current state and changes nothing |
| `Configuration.Configurator.Get` | Configurator.cs:116-129 | returns `ConfigSpec.Get` of the current state and changes nothing |
| `Configuration.Configurator.Set` | Configurator.cs:136-146 | the new state and outcome are those of `ConfigSpec.Set` |
| `Configuration.Configurator.Delete` | Configurator.cs:152-159 | the new state and outcome are those of `ConfigSpec.Delete` |
| `Configuration.Configurator.DeleteAll` | Configurator.cs:164-170 | the loop over the library ends in the state and outcome of `ConfigSpec.DeleteAll` (see `ConfigProperties.DeleteAllEffect`) |
| `Configuration.Configurator.Clear` | Configurator.cs:176-183 | the new state and outcome are those of `ConfigSpec.Clear` |
| `Configuration.Configurator.ClearAll` | Configurator.cs:188-194 | the loop over the library ends in the state of `ConfigSpec.ClearAll` (see `ConfigProperties.ClearAllEffect`) |
| `Configuration.Configurator.InitName` | Configurator.cs:202-209 | the new state and outcome are those of `ConfigSpec.InitName` |
| `Configuration.Configurator.CleanAndCheckName` | Configurator.cs:216-225 | the two guarded replaces compute `Normalize`; the result is `ConfigSpec.CleanAndCheckName` |
| `Configuration.Configurator.OnItemAdded` | Configurator.cs:27 | the subscribed handler runs the placeholder write on the added key, as `ConfigSpec.Notify` says |
| `Configuration.Configurator.LibraryAdd` | Dictionaries/ObservableDictionary.cs:37-45 | `Library.Add(key, value)` together with the handler it triggers, as `ConfigSpec.LibraryAdd` says |
| `Configuration.Configurator.LibraryAddKey` | Dictionaries/ObservableDictionary.cs:66-74 | `Library.Add(key)` together with the handler it triggers, as `ConfigSpec.LibraryAddKey` says |
| `EnumExtensions.InitConfigurationValue` | Extensions/EnumConfigurationExtensions.cs:31-53 | the state and outcome of `ConfigSpec.InitConfigurationValue` (see `ConfigProperties.NonPersistentDescriptor`, `ConfigProperties.TypedDescriptor` and `ConfigProperties.DefaultDescriptor`) |
| `EnumExtensions.GetConfigurationValue` | Extensions/EnumConfigurationExtensions.cs:60-74 | the result is Get on the un-normalised full name, or MissingMetadata |
| `EnumExtensions.SetConfigurationValue` | Extensions/EnumConfigurationExtensions.cs:81-96 | the effect is Set on the un-normalised full name, or MissingMetadata with nothing changed |
| `EnumExtensions.InitWithOptions` | Configurator.cs:42-49 | the plain Init, then the members scanned in order until one throws, as `ConfigSpec.InitWithOptions` says |
| `ConfigProperties.UnsetReadsDefault` | Configurator.cs:123-126 | a persistent option with an empty or missing stored string reads as its library default and is not set |
| `ConfigProperties.BeforeInitFails` | Configurator.cs:154-218 | before Init, Get, IsSet, Set, Delete, Clear, DeleteAll, ClearAll and the placeholder write, on a persistent name, all throw NotInitialized and change nothing |
| `ConfigProperties.UnregisteredFails` | Configurator.cs:223 | after Init, a persistent name whose normalised form is not registered makes Get, IsSet and Set throw UnknownOption with that form, with nothing changed |
| `ConfigProperties.SetThenGet` | Configurator.cs:142-144 | Set on a registered persistent option completes and changes only the registry; a later Get gives the string written, or the default when it is empty (so Set with null falls back to the default); IsSet is true exactly when the string is non-empty |
| `ConfigProperties.SetLeavesOthers` | Configurator.cs:142-144 | Set on one option leaves Get and IsSet of every option with another normalised name unchanged |
| `ConfigProperties.NonPersistentStaysInMemory` | Configurator.cs:119-181 | a non-persistent option is read from the library even before Init; Set writes only the library and Get then returns the value; Delete and Clear change nothing once their checks pass; on the option's own spelling the registry is never touched |
| `ConfigProperties.ClearThenGet` | Configurator.cs:176-183 | after Clear of a registered persistent name, its entry still exists, IsSet is false, Get returns the default, and the option stays registered |
| `ConfigProperties.DeleteThenGet` | Configurator.cs:152-159 | Delete of a stored value removes the entry, Get then returns the default, and a second Delete throws; Delete of a missing value throws ValueNotFound and changes nothing |
| `ConfigProperties.RawNameMissesOption` | Configurator.cs:152-183 | Delete and Clear on a name spelled with `:` or `/` leave the option's own stored value as it was, because they hand the raw name to the adapter |
| `ConfigProperties.RawSpellingOfNonPersistent` | Configurator.cs:116-146 | when a name as written is not non-persistent but its normalised form is a non-persistent option, Set writes the registry at the option's normalised name and Get reads the registry there, falling back to the library value |
| `ConfigProperties.IsSetReadsRegistryForNonPersistent` | Configurator.cs:99-108 | IsSet on a non-persistent option, once initialised with an adapter, reports whether the registry holds a non-empty value for it |
| `ConfigProperties.DeleteClearSkipRegistration` | Configurator.cs:152-183 | on a name the library does not hold, once initialised with an adapter, Clear still writes "" at the name's location and completes, and Delete is the adapter's delete of that name |
| `ConfigProperties.SpellingsAgree` | Configurator.cs:216-224 | names with the same normalised form give the same Get, IsSet and Set, unless a raw spelling is itself non-persistent |
| `ConfigProperties.SeparatorsInterchangeable` | Configurator.cs:221-222 | an illustration of `Names.SameNameUpToSeparators`: `A:B`, `A/B` and `A\B` all normalise to `A\B` |
| `ConfigProperties.IsSetIgnoresLibraryValues` | Configurator.cs:99-108 | IsSet does not depend on the library's values |
| `ConfigProperties.InitNameNeverOverwrites` | Configurator.cs:202-209 | the placeholder write leaves an option with a non-empty stored value untouched |
| `ConfigProperties.InitNameIdempotent` | Configurator.cs:202-209 | running the placeholder write twice on the same name gives the same state and outcome as running it once |
| `ConfigProperties.InitNameUnsetIsSet` | Configurator.cs:202-209 | on an unset persistent option the placeholder write is Set of "" under the normalised name |
| `ConfigProperties.SetBlankTwice` | Configurator.cs:136-146 | setting "" on a registered canonical name twice is the same as setting it once |
| `ConfigProperties.PlaceholderStable` | Configurator.cs:202-209 | after a placeholder write that wrote "", a second one writes the same "" and ends in the same state |
| `ConfigProperties.InitNameOverwritesNonPersistentTarget` | Configurator.cs:206-208 | when a raw spelling is persistent but its normalised form is a non-persistent key, and nothing is stored in the registry under the normalised name, the placeholder write replaces that key's in-memory value, whatever it was, with "" and leaves the registry unchanged |
| `ConfigProperties.InitNameWritesPlaceholder` | Configurator.cs:202-209 | a non-persistent name is skipped; for an unset persistent option, "" is written under the normalised name and nothing else changes; then Get returns the default and IsSet is false |
| `ConfigProperties.LibraryAddFresh` | Configurator.cs:27 | adding a new canonical key with the handler subscribed completes; Get then returns a value persisted earlier if there is one, and the added default otherwise |
| `ConfigProperties.LibraryAddUncleanKey` | Example.cs:50 | adding a persistent key spelled with `:` or `/` whose normalised form is not registered inserts it as written, but the handler throws UnknownOption for the normalised name, and Get on that key then throws |
| `ConfigProperties.UnobservedAddWritesNothing` | Dictionaries/ObservableDictionary.cs:101-107 | with no handler subscribed, Add and Add(key) change only the library |
| `ConfigProperties.InitEffect` | Configurator.cs:22-33 | Init with an empty path throws InvalidPath and changes nothing; otherwise it completes, keeps the library and registry, stores the normalised path and binds the adapter to that path and the force-local flag, after which a name is accepted exactly when its normalised form is registered |
| `ConfigProperties.TargetsMember` | Configurator.cs:168 | a location is visited by the -All loops exactly when it is the location of some persistent library key |
| `ConfigProperties.ClearKeysEffect` | Configurator.cs:192-193 | the ClearAll loop writes "" at exactly the locations of the persistent keys, and nothing else changes |
| `ConfigProperties.ClearAllEffect` | Configurator.cs:188-194 | ClearAll completes and blanks exactly the persistent library keys' values |
| `ConfigProperties.DeleteKeysEffect` | Configurator.cs:168-169 | the DeleteAll loop over distinct keys completes exactly when every persistent key has a stored value, and then removes exactly those values; otherwise it throws ValueNotFound |
| `ConfigProperties.DeleteKeysSplits` | Configurator.cs:168-169 | the DeleteAll loop over a + b is the loop over a, then over b unless a threw |
| `ConfigProperties.DeleteKeysStopsAtMissing` | Configurator.cs:168-169 | at the first persistent key with nothing stored the loop throws ValueNotFound with its leaf name, keeping the deletes made before it and making none after |
| `ConfigProperties.DeleteAllEffect` | Configurator.cs:164-170 | DeleteAll never changes the library; it completes exactly when every persistent key has a value, and then removes exactly those |
| `ConfigProperties.InitNameOnRegistered` | Configurator.cs:202-209 | on a registered canonical name the placeholder write completes, changes no value any option reads, and only creates the entry when it is missing |
| `ConfigProperties.InitNamesOnRegistered` | Configurator.cs:87-88 | the placeholder pass over registered canonical names completes, gives every persistent one an entry, and changes no value read |
| `ConfigProperties.SetLibraryEffect` | Configurator.cs:84-89 | installing a dictionary of canonical names after Init completes, makes it the library with its own subscription, gives every persistent key an entry, and leaves every stored value readable as before |
| `ConfigProperties.MissingDescriptorFails` | Extensions/EnumConfigurationExtensions.cs:12-96 | every extension method throws MissingMetadata on a member without a descriptor, with nothing changed |
| `ConfigProperties.NonPersistentDescriptor` | Extensions/EnumConfigurationExtensions.cs:44-49 | a NonPersistent descriptor for a new key registers it non-persistent with its default; the following Add hits the existing key, so no event fires and the registry is untouched |
| `ConfigProperties.PersistentInitIsAdd` | Extensions/EnumConfigurationExtensions.cs:46-49 | for a persistent descriptor, the registration is a bare Add(name) when the descriptor declares a type and Add(name, default) otherwise |
| `ConfigProperties.GetConfigurationValueReadsRegistered` | Extensions/EnumConfigurationExtensions.cs:69-71 | GetConfigurationValue, although it passes the un-normalised full name, reads the registered key, unless either spelling is non-persistent |
| `ConfigProperties.SetConfigurationValueWritesRegistered` | Extensions/EnumConfigurationExtensions.cs:88-92 | SetConfigurationValue, although it passes the un-normalised full name, writes the registered key, unless either spelling is non-persistent |
| `ConfigProperties.NotifyOnFresh` | Configurator.cs:27 | the handler's run on a newly inserted persistent canonical key completes and changes nothing but the registry; the key then reads a persisted value or its library value |
| `ConfigProperties.TypedDescriptor` | Extensions/EnumConfigurationExtensions.cs:46-47 | a new persistent descriptor that declares a type registers null and stays persistent; with the handler subscribed, it completes, and the key then reads a persisted value or null |
| `ConfigProperties.DefaultDescriptor` | Extensions/EnumConfigurationExtensions.cs:48-49 | a new persistent descriptor with a default registers that default and stays persistent; with the handler subscribed, it completes, and the key then reads a persisted value or the default |
| `ConfigProperties.ScanSplits` | Configurator.cs:46-48 | scanning a + b is scanning a, then b unless a threw |
| `ConfigProperties.ScanStopsAtMissing` | Configurator.cs:46-48 | a member without a descriptor stops the scan with MissingMetadata, and the members before it stay registered |
| `ConfigProperties.WalkThrough` | Configurator.cs:116-183 | for a new key without `:` or `/` (such as `App\Style`) and nothing stored for it, once initialised with the handler subscribed: after registering it with default 0, Get gives 0; Set 5 then Get gives 5; Clear then Get gives 0 |

## Left out

- Win32 registry calls: `OpenBaseKey` and `CreateSubKey` become a lookup in a map keyed by hive, view, subkey and value name. Creating subkeys as a side effect of every call, even a read, is invisible in that map and is not modelled.
- The registry's case-insensitive names are not modelled; names compare exactly.
- Registry.LocalKey: the subkey is kept as the literal string built from the path and the name's group. The registry's own fix-up of key names is not modelled: it reads a run of `\` as one, drops a trailing `\`, and opens the base key for an empty group. So `A\\B` and `A\B`, `\B` and `B`, or the root paths `Company\` and `Company`, address different values here but the same value in the registry. `Registry.LocalKeyInjective`, `Registry.WriteThenRead`, `ConfigProperties.SetLeavesOthers`, `ConfigProperties.RawNameMissesOption` and the "completes exactly when" half of `ConfigProperties.DeleteKeysEffect` and `ConfigProperties.DeleteAllEffect` rely on that separation.
- Access the registry refuses (a storage-access-denied error) is not modelled; every registry call succeeds.
- Elevation comes from `WindowsPrincipal` in Adapters/ConfigurationAdapter.cs. Here it is a field of the `Store` that each adapter call reads; ConfigurationAdapter.cs is not part of this model.
- The typed conversion `ChangeType<T>` (Extensions/ObjectChangeTypeExtension.cs) is left out. `Get` returns the untyped value: the stored string, or the library's value. A library value is represented by its `ToString()` text, or null.
- Reflection over enum attributes is replaced by an explicit sequence of `Option<Descriptor>`, with `None` for a member without the attribute. `Activator.CreateInstance` and the adapter-type check of `Init` are replaced by the fixed registry adapter, so that check's exception does not occur.
- Null strings are not modelled: a null path or name (a NullReferenceException in the source) and an attribute Path that is null rather than empty (both read as "").
- Each `Init` call attaches one more ItemAdded handler. The model records only whether one is attached, so a repeated notification runs the placeholder write once rather than once per handler. The placeholder write is idempotent (`ConfigProperties.InitNameIdempotent`), so the resulting state is the same.
- The exception .NET throws when a dictionary is modified during the enumeration in the `Library` setter is not modelled. It arises only through the placeholder write's `Set`, whose `Library[name] = ""` (Configurator.cs:139) changes the dictionary being enumerated, and only when a key's normalised form is a different, non-persistent key (`ConfigProperties.InitNameOverwritesNonPersistentTarget`).
- The members ObservableDictionary inherits from `Dictionary` (Remove, the indexer get on a missing key, and others) are not modelled, except the indexer set that `Configurator.Set` uses.
- Concurrency: the static state is unsynchronised, and the model is sequential.
- `ConfigProperties.DeleteKeysEffect`: stated for key lists without duplicates only, which every well-formed library's key list is.
- `ConfigProperties.SetLibraryEffect` and `ConfigProperties.InitNamesOnRegistered`: stated for dictionaries whose keys contain no `:` or `/`. For other keys the placeholder write may throw UnknownOption (a persistent key whose normalised form is not registered, as `ConfigProperties.LibraryAddUncleanKey` shows for a single add), or may overwrite a non-persistent value in memory (`ConfigProperties.InitNameOverwritesNonPersistentTarget`), so "no value read changes" does not hold for them in general.

Two behaviours of the code worth noting:
- `Delete` of a value that does not exist throws, because `DeleteValue(name)` is called without its throw-on-missing flag turned off. It is not a silent no-op.
- A descriptor that is both NonPersistent and typed is registered only once. The bare `Add(name)` that follows `AddNonPersistent` finds the key present and does nothing (`ConfigProperties.NonPersistentDescriptor`).

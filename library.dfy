/** The option library: an insertion-ordered dictionary from option name to
    value, a list of non-persistent names, and an "item added" notification. */
module Library {
  import opened Results

  /** An option value, represented by what its ToString() gives; Null is C#'s null. */
  datatype Value = Null | Val(text: string)

  /** The payload of the ItemAdded notification. */
  datatype ItemAdded = ItemAdded(key: string, payload: Value)

  /** The number of names enumerated before `key`; |keys| when it is absent. */
  function IndexOf(keys: seq<string>, key: string): (i: nat)
    ensures i <= |keys|
    ensures i < |keys| <==> key in keys
    ensures i < |keys| ==> keys[i] == key
    ensures forall j :: 0 <= j < i ==> keys[j] != key
  {
    if keys == [] then 0
    else if keys[0] == key then 0
    else 1 + IndexOf(keys[1..], key)
  }

  predicate Distinct(s: seq<string>) {
    forall i, j :: 0 <= i < j < |s| ==> s[i] != s[j]
  }

  /** The abstract value of an ObservableDictionary. */
  datatype Dict = Dict(keys: seq<string>, values: map<string, Value>, nonPersistent: seq<string>) {

    /** Keys are unique, enumeration visits exactly the stored keys, and every
        non-persistent name is a key. */
    ghost predicate WellFormed() {
      && Distinct(keys)
      && (forall k :: k in values <==> k in keys)
      && (forall k :: k in nonPersistent ==> k in values)
    }

    predicate IsNonPersistent(key: string) {
      key in nonPersistent
    }

    /** Add(key, value): inserts an absent key and notifies; otherwise nothing. */
    function Add(key: string, value: Value): (r: AddOutcome)
      ensures WellFormed() ==> r.dict.WellFormed()
      ensures key in values ==> r == AddOutcome(this, None)
      ensures key !in values ==>
        && r.event == Some(ItemAdded(key, value))
        && r.dict.keys == keys + [key] && r.dict.values == values[key := value]
        && r.dict.nonPersistent == nonPersistent
    {
      if key in values then AddOutcome(this, None)
      else AddOutcome(Dict(keys + [key], values[key := value], nonPersistent), Some(ItemAdded(key, value)))
    }

    /** Add(key): inserts null but notifies with the payload "". */
    function AddKey(key: string): (r: AddOutcome)
      ensures WellFormed() ==> r.dict.WellFormed()
      ensures key in values ==> r == AddOutcome(this, None)
      ensures key !in values ==>
        && r.event == Some(ItemAdded(key, Val("")))
        && r.dict.keys == keys + [key] && r.dict.values == values[key := Null]
        && r.dict.nonPersistent == nonPersistent
    {
      if key in values then AddOutcome(this, None)
      else AddOutcome(Dict(keys + [key], values[key := Null], nonPersistent), Some(ItemAdded(key, Val(""))))
    }

    /** AddNonPersistent: inserts an absent key, marks it, and never notifies. */
    function AddNonPersistent(key: string, value: Value): (r: AddOutcome)
      ensures WellFormed() ==> r.dict.WellFormed()
      ensures r.event == None
      ensures key in values ==> r.dict == this
      ensures key !in values ==>
        && r.dict.keys == keys + [key] && r.dict.values == values[key := value]
        && r.dict.nonPersistent == nonPersistent + [key]
      ensures r.dict.IsNonPersistent(key) <==> key !in values || IsNonPersistent(key)
    {
      if key in values then AddOutcome(this, None)
      else AddOutcome(Dict(keys + [key], values[key := value], nonPersistent + [key]), None)
    }

    /** The inherited indexer set this[key] = value: no notification, no marking. */
    function Put(key: string, value: Value): (r: Dict)
      ensures WellFormed() ==> r.WellFormed()
      ensures r.values == values[key := value] && r.nonPersistent == nonPersistent
      ensures key in values ==> r.keys == keys
    {
      if key in values then Dict(keys, values[key := value], nonPersistent)
      else Dict(keys + [key], values[key := value], nonPersistent)
    }
  }

  datatype AddOutcome = AddOutcome(dict: Dict, event: Option<ItemAdded>)

  const Empty: Dict := Dict([], map[], [])

  /** A second registration of the same name, by any of the three adds, is a no-op. */
  lemma AddsIdempotent(d: Dict, key: string, v: Value, w: Value)
    ensures var once := d.Add(key, v).dict;
      once.Add(key, w) == AddOutcome(once, None) &&
      once.AddKey(key) == AddOutcome(once, None) &&
      once.AddNonPersistent(key, w) == AddOutcome(once, None)
    ensures var once := d.AddKey(key).dict;
      once.Add(key, w) == AddOutcome(once, None) &&
      once.AddKey(key) == AddOutcome(once, None) &&
      once.AddNonPersistent(key, w) == AddOutcome(once, None)
    ensures var once := d.AddNonPersistent(key, v).dict;
      once.Add(key, w) == AddOutcome(once, None) &&
      once.AddKey(key) == AddOutcome(once, None) &&
      once.AddNonPersistent(key, w) == AddOutcome(once, None)
  {
  }

  /** A key registered non-persistent first stays non-persistent, keeps its value,
      and a later Add or Add(key) fires nothing. */
  lemma NonPersistentThenAdd(d: Dict, key: string, v: Value, w: Value)
    requires key !in d.values
    ensures var np := d.AddNonPersistent(key, v).dict;
      && np.IsNonPersistent(key) && np.values[key] == v
      && np.Add(key, w) == AddOutcome(np, None)
      && np.AddKey(key) == AddOutcome(np, None)
  {
  }

  /** The mutable dictionary. `observed` records whether a handler is subscribed
      to ItemAdded. */
  class ObservableDictionary {
    var keys: seq<string>
    var values: map<string, Value>
    var nonPersistent: seq<string>
    var observed: bool

    function Model(): (d: Dict)
      reads this
    {
      Dict(keys, values, nonPersistent)
    }

    ghost predicate Valid()
      reads this
    {
      Model().WellFormed()
    }

    constructor ()
      ensures Valid() && Model() == Empty && !observed
    {
      keys, values, nonPersistent := [], map[], [];
      observed := false;
    }

    /** True exactly when `key` is in the non-persistent list; such a key is
        always a dictionary key. */
    function IsNonPersistent(key: string): (r: bool)
      requires Valid()
      reads this
      ensures r == Model().IsNonPersistent(key)
      ensures r ==> key in values
    {
      key in nonPersistent
    }

    /** The enumeration behind every add: whether `key` is present, and `idx`
        advanced once per key enumerated before it. */
    method TryGetKeyIndex(key: string, idx: int) returns (found: bool, idx': int)
      requires Valid()
      ensures found <==> key in values
      ensures found ==> idx' == idx + IndexOf(keys, key) && keys[idx' - idx] == key
      ensures !found ==> idx' == idx + |keys|
    {
      idx' := idx;
      var i := 0;
      while i < |keys|
        invariant 0 <= i <= |keys|
        invariant idx' == idx + i
        invariant forall j :: 0 <= j < i ==> keys[j] != key
      {
        if keys[i] == key {
          return true, idx';
        }
        idx' := idx' + 1;
        i := i + 1;
      }
      found := false;
    }

    method Add(key: string, value: Value) returns (event: Option<ItemAdded>)
      requires Valid()
      modifies this
      ensures Valid() && observed == old(observed)
      ensures AddOutcome(Model(), event) == old(Model()).Add(key, value)
    {
      var found, _ := TryGetKeyIndex(key, 0);
      event := None;
      if !found {
        keys, values := keys + [key], values[key := value];
        event := Some(ItemAdded(key, value));
      }
    }

    method AddKey(key: string) returns (event: Option<ItemAdded>)
      requires Valid()
      modifies this
      ensures Valid() && observed == old(observed)
      ensures AddOutcome(Model(), event) == old(Model()).AddKey(key)
    {
      var found, _ := TryGetKeyIndex(key, 0);
      event := None;
      if !found {
        keys, values := keys + [key], values[key := Null];
        event := Some(ItemAdded(key, Val("")));
      }
    }

    method AddNonPersistent(key: string, value: Value)
      requires Valid()
      modifies this
      ensures Valid() && observed == old(observed)
      ensures Model() == old(Model()).AddNonPersistent(key, value).dict
    {
      var found, _ := TryGetKeyIndex(key, 0);
      if !found {
        keys, values := keys + [key], values[key := value];
        nonPersistent := nonPersistent + [key];
      }
    }

    method Put(key: string, value: Value)
      requires Valid()
      modifies this
      ensures Valid() && observed == old(observed)
      ensures Model() == old(Model()).Put(key, value)
    {
      if key !in values {
        keys := keys + [key];
      }
      values := values[key := value];
    }

    /** A handler is attached to ItemAdded. */
    method Subscribe()
      requires Valid()
      modifies this
      ensures Valid() && observed && Model() == old(Model())
    {
      observed := true;
    }
  }
}

/** The enum extension methods and Init<T>, over explicit descriptors: an enum
    member is an Option<Descriptor>, None when it carries no option attribute.
    Init<T> lives here because it calls InitConfigurationValue, which in turn
    calls into the Configurator. */
module EnumExtensions {
  import opened Results
  import opened Library
  import opened Options
  import opened ConfigSpec
  import opened Configuration

  method InitConfigurationValue(c: Configurator, member: Option<Descriptor>) returns (r: Outcome)
    requires c.Valid()
    modifies c.library, c.store
    ensures c.Valid()
    ensures Step(c.Snap(), r) == ConfigSpec.InitConfigurationValue(old(c.Snap()), member)
  {
    if member.None? {
      return Fail(MissingMetadata);
    }
    var d := member.value;
    var name := RegistrationName(d);
    if d.nonPersistent {
      c.library.AddNonPersistent(name, d.defaultValue);
    }
    if d.hasType {
      r := c.LibraryAddKey(name);
    } else {
      r := c.LibraryAdd(RegistrationName(d), d.defaultValue);
    }
  }

  method GetConfigurationValue(c: Configurator, member: Option<Descriptor>) returns (r: Result<Value>)
    requires c.Valid()
    ensures r == ConfigSpec.GetConfigurationValue(c.Snap(), member)
  {
    if member.None? {
      return Err(MissingMetadata);
    }
    r := c.Get(ConfigurationName(member.value));
  }

  method SetConfigurationValue(c: Configurator, member: Option<Descriptor>, value: Value) returns (r: Outcome)
    requires c.Valid()
    modifies c.library, c.store
    ensures c.Valid()
    ensures Step(c.Snap(), r) == ConfigSpec.SetConfigurationValue(old(c.Snap()), member, value)
  {
    if member.None? {
      return Fail(MissingMetadata);
    }
    r := c.Set(ConfigurationName(member.value), value);
  }

  /** Init<T>(path, forceLocalStorage): the members of T in the order Enum.GetValues yields
      them (sorted by value). */
  method InitWithOptions(c: Configurator, path: string, forceLocalStorage: bool,
                         members: seq<Option<Descriptor>>) returns (r: Outcome)
    requires c.Valid()
    modifies c, c.library, c.store
    ensures c.Valid() && c.library == old(c.library)
    ensures Step(c.Snap(), r) == ConfigSpec.InitWithOptions(old(c.Snap()), path, forceLocalStorage, members)
  {
    r := c.Init(path, forceLocalStorage);
    if r.Fail? {
      return;
    }
    ghost var s0 := c.Snap();
    var i := 0;
    while i < |members|
      invariant 0 <= i <= |members|
      invariant c.Valid() && c.library == old(c.library) && r == Pass
      invariant InitConfigurationValues(c.Snap(), members[i..]) == InitConfigurationValues(s0, members)
    {
      assert members[i..][0] == members[i] && members[i..][1..] == members[i + 1..];
      ghost var before := c.Snap();
      ScanStep(before, members[i..]);
      r := InitConfigurationValue(c, members[i]);
      if r.Fail? {
        return;
      }
      i := i + 1;
    }
  }
}

/** Option descriptors (the ConfigurationOptionAttribute on an enum member)
    and the names built from them. */
module Options {
  import opened Results
  import opened Names
  import opened Library

  /** One option's declaration. `path` is "" when the attribute's Path is null
      or empty; `hasType` says the attribute was built with a value type. */
  datatype Descriptor = Descriptor(
    name: string,
    path: string,
    defaultValue: Value,
    hasType: bool,
    nonPersistent: bool)

  /** The full, un-normalised option name: Name alone, or Path\Name. */
  function ConfigurationName(d: Descriptor): (r: string)
    ensures d.path == "" ==> r == d.name
    ensures d.path != "" ==> r == d.path + [Separator] + d.name
    ensures |d.name| <= |r| && r[|r| - |d.name|..] == d.name
  {
    if d.path == "" then d.name else d.path + [Separator] + d.name
  }

  /** GetConfigurationName: fails on a member without a descriptor. */
  function GetConfigurationName(member: Option<Descriptor>): (r: Result<string>)
    ensures member.None? <==> r == Err(MissingMetadata)
    ensures member.Some? ==> r == Ok(ConfigurationName(member.value))
  {
    match member
    case None => Err(MissingMetadata)
    case Some(d) => Ok(ConfigurationName(d))
  }

  /** The library key registered by InitConfigurationValue: ':' rewritten
      first, then '/'. */
  function RegistrationName(d: Descriptor): (r: string)
    ensures r == Normalize(ConfigurationName(d))
    ensures IsClean(r)
  {
    ReplaceOrderIrrelevant(ConfigurationName(d));
    Replace(Replace(ConfigurationName(d), ':', Separator), '/', Separator)
  }

  /** A descriptor whose name and path are clean registers under its full name. */
  lemma CleanDescriptorKeepsName(d: Descriptor)
    requires IsClean(d.name) && IsClean(d.path)
    ensures RegistrationName(d) == ConfigurationName(d)
  {
    NormalizeKeepsClean(ConfigurationName(d));
  }
}

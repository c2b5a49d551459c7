/**
 * The mod-metadata builder contract (ModMetadataBuilder and its nested ModDependencyBuilder).
 * Identity (id, group, version) and the construction mode are `const`, so no operation can
 * change them. The optional fields are mutable; every fluent mutator returns the receiver, and the
 * `modifies` frame of each mutator names only what it may change.
 */
module PluginMetadata {
  import opened Wrappers

  type Version = string

  datatype ModLicense = ModLicense(id: string)

  datatype ModContributor = ModContributor(name: string)

  /** A dependency edge: the target mod id and its accepted version ranges. */
  datatype ModDependency = ModDependency(id: string, versions: seq<string>)

  datatype BuilderError = IllegalState(message: string)

  /** A java.util.List handed out by reference: changes through it are seen by its owner. */
  class ModList<T> {
    var items: seq<T>

    constructor ()
      ensures items == []
    {
      items := [];
    }

    method Add(x: T)
      modifies this
      ensures items == old(items) + [x]
    {
      items := items + [x];
    }

    method Clear()
      modifies this
      ensures items == []
    {
      items := [];
    }

    method AddAll(xs: seq<T>)
      modifies this
      ensures items == old(items) + xs
    {
      items := items + xs;
    }
  }

  class ModMetadataBuilder {
    const id: string
    const group: string
    const version: Version
    /** True when built by OfTentative, the only mode that allows NoLicenses and NoContributors. */
    const tentative: bool

    var name: Option<string>
    var description: Option<string>
    const licenses: ModList<ModLicense>
    /** Set by NoLicenses: the license field is complete, though empty. */
    var licensesComplete: bool
    const contributors: ModList<ModContributor>
    /** Set by NoContributors: the contributor field is complete, though empty. */
    var contributorsComplete: bool
    var contactInfo: map<string, string>
    var depends: seq<ModDependency>
    var isQuiltDeps: bool

    /** A draft with nothing but its identity set. */
    ghost predicate Fresh()
      reads this, licenses, contributors
    {
      name.None? && description.None? && licenses.items == [] && !licensesComplete
      && contributors.items == [] && !contributorsComplete && contactInfo == map[] && depends == []
      && !isQuiltDeps
    }

    /** ModMetadataBuilder.of: the strict mode. */
    constructor Of(id: string, group: string, version: Version)
      ensures this.id == id && this.group == group && this.version == version
      ensures !tentative && fresh(licenses) && fresh(contributors) && Fresh()
    {
      this.id, this.group, this.version, tentative := id, group, version, false;
      name, description := None, None;
      licenses := new ModList();
      contributors := new ModList();
      licensesComplete, contributorsComplete := false, false;
      contactInfo, depends, isQuiltDeps := map[], [], false;
    }

    /** ModMetadataBuilder.ofTentative: the mode that allows a field to be declared empty. */
    constructor OfTentative(id: string, group: string, version: Version)
      ensures this.id == id && this.group == group && this.version == version
      ensures tentative && fresh(licenses) && fresh(contributors) && Fresh()
    {
      this.id, this.group, this.version, tentative := id, group, version, true;
      name, description := None, None;
      licenses := new ModList();
      contributors := new ModList();
      licensesComplete, contributorsComplete := false, false;
      contactInfo, depends, isQuiltDeps := map[], [], false;
    }

    method SetName(name: string) returns (self: ModMetadataBuilder)
      modifies this`name
      ensures self == this && this.name == Some(name)
    {
      this.name := Some(name);
      self := this;
    }

    method SetDescription(description: string) returns (self: ModMetadataBuilder)
      modifies this`description
      ensures self == this && this.description == Some(description)
    {
      this.description := Some(description);
      self := this;
    }

    /** licenses(): the builder's own list, not a copy. */
    method Licenses() returns (l: ModList<ModLicense>)
      ensures l == licenses
    {
      l := licenses;
    }

    method AddLicense(license: ModLicense) returns (self: ModMetadataBuilder)
      modifies licenses
      ensures self == this && licenses.items == old(licenses.items) + [license]
    {
      licenses.Add(license);
      self := this;
    }

    method AddLicenses(ls: seq<ModLicense>) returns (self: ModMetadataBuilder)
      modifies licenses
      ensures self == this && licenses.items == old(licenses.items) + ls
    {
      licenses.AddAll(ls);
      self := this;
    }

    /**
     * Fails with IllegalState, changing nothing, unless built by OfTentative; otherwise the field
     * is complete and empty.
     */
    method NoLicenses() returns (r: Result<ModMetadataBuilder, BuilderError>)
      modifies this`licensesComplete, licenses
      ensures !tentative ==> r.Failure? && r.error.IllegalState?
      ensures !tentative ==> licensesComplete == old(licensesComplete) && licenses.items == old(licenses.items)
      ensures tentative ==> r == Success(this) && licensesComplete && licenses.items == []
    {
      if !tentative {
        return Failure(IllegalState("noLicenses requires a builder made by ofTentative"));
      }
      licensesComplete := true;
      licenses.Clear();
      r := Success(this);
    }

    /** contributors(): the builder's own list, not a copy. */
    method Contributors() returns (l: ModList<ModContributor>)
      ensures l == contributors
    {
      l := contributors;
    }

    method AddContributor(contributor: ModContributor) returns (self: ModMetadataBuilder)
      modifies contributors
      ensures self == this && contributors.items == old(contributors.items) + [contributor]
    {
      contributors.Add(contributor);
      self := this;
    }

    method AddContributors(cs: seq<ModContributor>) returns (self: ModMetadataBuilder)
      modifies contributors
      ensures self == this && contributors.items == old(contributors.items) + cs
    {
      contributors.AddAll(cs);
      self := this;
    }

    /**
     * Fails with IllegalState, changing nothing, unless built by OfTentative; otherwise the field
     * is complete and empty.
     */
    method NoContributors() returns (r: Result<ModMetadataBuilder, BuilderError>)
      modifies this`contributorsComplete, contributors
      ensures !tentative ==> r.Failure? && r.error.IllegalState?
      ensures !tentative ==> contributorsComplete == old(contributorsComplete) && contributors.items == old(contributors.items)
      ensures tentative ==> r == Success(this) && contributorsComplete && contributors.items == []
    {
      if !tentative {
        return Failure(IllegalState("noContributors requires a builder made by ofTentative"));
      }
      contributorsComplete := true;
      contributors.Clear();
      r := Success(this);
    }

    /** Inserts one contact entry, replacing an earlier value under the same key. */
    method AddContactInfo(key: string, value: string) returns (self: ModMetadataBuilder)
      modifies this`contactInfo
      ensures self == this
      ensures contactInfo.Keys == old(contactInfo.Keys) + {key} && contactInfo[key] == value
      ensures forall k :: k in old(contactInfo) && k != key ==> contactInfo[k] == old(contactInfo)[k]
    {
      contactInfo := contactInfo[key := value];
      self := this;
    }

    /** Merges `m` in; on a shared key the value from `m` wins. */
    method PutContactInfo(m: map<string, string>) returns (self: ModMetadataBuilder)
      modifies this`contactInfo
      ensures self == this
      ensures contactInfo.Keys == old(contactInfo.Keys) + m.Keys
      ensures forall k :: k in m ==> contactInfo[k] == m[k]
      ensures forall k :: k in old(contactInfo) && k !in m ==> contactInfo[k] == old(contactInfo)[k]
    {
      contactInfo := contactInfo + m;
      self := this;
    }

    method AddDepends(dep: ModDependency) returns (self: ModMetadataBuilder)
      modifies this`depends
      ensures self == this && depends == old(depends) + [dep]
    {
      depends := depends + [dep];
      self := this;
    }

    /** A sub-builder whose Build will append `dependency` to this builder. */
    method StartDepends(dependency: ModDependency) returns (b: ModDependencyBuilder)
      ensures fresh(b) && b.parent == this && b.ToDependency() == dependency
    {
      b := new ModDependencyBuilder(this, dependency);
    }

    method SetIsQuiltDeps(quiltShouldGen: bool)
      modifies this`isQuiltDeps
      ensures isQuiltDeps == quiltShouldGen
    {
      isQuiltDeps := quiltShouldGen;
    }
  }

  class ModDependencyBuilder {
    const parent: ModMetadataBuilder
    /** The edge this sub-builder has assembled. */
    const dependency: ModDependency

    constructor (parent: ModMetadataBuilder, dependency: ModDependency)
      ensures this.parent == parent && this.dependency == dependency
    {
      this.parent, this.dependency := parent, dependency;
    }

    function ToDependency(): ModDependency {
      dependency
    }

    /** Hands ToDependency() to the parent's AddDepends and gives back that same parent. */
    method Build() returns (p: ModMetadataBuilder)
      modifies parent`depends
      ensures p == parent && parent.depends == old(parent.depends) + [ToDependency()]
    {
      p := parent.AddDepends(ToDependency());
    }
  }

  /** A strict builder refuses to have its licenses declared empty. */
  method StrictModeRejectsNoLicenses(id: string, group: string, version: Version)
    returns (r: Result<ModMetadataBuilder, BuilderError>)
    ensures r.Failure? && r.error.IllegalState?
  {
    var b := new ModMetadataBuilder.Of(id, group, version);
    r := b.NoLicenses();
  }

  /** A tentative builder accepts it, and its license field is then complete and empty. */
  method TentativeModeAllowsNoLicenses(id: string, group: string, version: Version)
    returns (accepted: bool, complete: bool, licenses: seq<ModLicense>)
    ensures accepted && complete && licenses == []
  {
    var b := new ModMetadataBuilder.OfTentative(id, group, version);
    var r := b.NoLicenses();
    accepted, complete, licenses := r.Success?, b.licensesComplete, b.licenses.items;
  }

  /** Building a dependency through startDepends leaves the same list as a direct addDepends. */
  method DependencyBuilderMatchesAddDepends(id: string, group: string, version: Version, dep: ModDependency)
    returns (viaBuilder: seq<ModDependency>, direct: seq<ModDependency>)
    ensures viaBuilder == direct == [dep]
  {
    var a := new ModMetadataBuilder.Of(id, group, version);
    var sub := a.StartDepends(dep);
    var p := sub.Build();
    viaBuilder := p.depends;
    var b := new ModMetadataBuilder.Of(id, group, version);
    var q := b.AddDepends(dep);
    direct := q.depends;
  }
}

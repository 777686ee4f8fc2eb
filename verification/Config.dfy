/** The two-tier merge of internal/config/merger.go: a referenced PDEngineProfile
    supplies defaults, and every non-empty inline field of the service replaces the
    profile's value for that role.
 */
module Config {
  import opened Types

  /** The value of a MergedConfig object. */
  datatype Merged = Merged(
    images: RoleImages,
    commands: RoleStrings,
    args: RoleStrings,
    engineRuntimes: Option<RoleEngineRuntimes>)

  const NO_IMAGES := RoleImages("", "", "")
  const NO_STRINGS := RoleStrings([], [], [])

  function Or<T>(inline: seq<T>, fallback: seq<T>): seq<T> {
    if |inline| > 0 then inline else fallback
  }

  function ProfileImages(profile: Option<ProfileSpec>): RoleImages {
    if profile.Some? then profile.value.images else NO_IMAGES
  }

  function ProfileCommands(profile: Option<ProfileSpec>): RoleStrings {
    if profile.Some? && profile.value.roleCommands.Some? then profile.value.roleCommands.value else NO_STRINGS
  }

  function ProfileArgs(profile: Option<ProfileSpec>): RoleStrings {
    if profile.Some? && profile.value.roleArgs.Some? then profile.value.roleArgs.value else NO_STRINGS
  }

  function ProfileRuntimes(profile: Option<ProfileSpec>): Option<RoleEngineRuntimes> {
    if profile.Some? then profile.value.engineRuntimes else None
  }

  /** The specification of the merge, field by field. */
  function Merge(spec: ServiceSpec, profile: Option<ProfileSpec>): Merged {
    var images, commands, args := ProfileImages(profile), ProfileCommands(profile), ProfileArgs(profile);
    Merged(
      RoleImages(
        Or(spec.router.image, images.router),
        Or(spec.prefill.image, images.prefill),
        Or(spec.decode.image, images.decode)),
      RoleStrings(
        Or(spec.router.command, commands.router),
        Or(spec.prefill.command, commands.prefill),
        Or(spec.decode.command, commands.decode)),
      RoleStrings(
        Or(spec.router.args, args.router),
        Or(spec.prefill.args, args.prefill),
        Or(spec.decode.args, args.decode)),
      ProfileRuntimes(profile))
  }

  /** A non-empty inline value wins over any profile, in each of the nine fields. */
  lemma InlineWins(spec: ServiceSpec, profile: Option<ProfileSpec>)
    ensures spec.router.image != "" ==> Merge(spec, profile).images.router == spec.router.image
    ensures spec.prefill.image != "" ==> Merge(spec, profile).images.prefill == spec.prefill.image
    ensures spec.decode.image != "" ==> Merge(spec, profile).images.decode == spec.decode.image
    ensures spec.router.command != [] ==> Merge(spec, profile).commands.router == spec.router.command
    ensures spec.prefill.command != [] ==> Merge(spec, profile).commands.prefill == spec.prefill.command
    ensures spec.decode.command != [] ==> Merge(spec, profile).commands.decode == spec.decode.command
    ensures spec.router.args != [] ==> Merge(spec, profile).args.router == spec.router.args
    ensures spec.prefill.args != [] ==> Merge(spec, profile).args.prefill == spec.prefill.args
    ensures spec.decode.args != [] ==> Merge(spec, profile).args.decode == spec.decode.args
  {
  }

  /** A profile fills exactly the fields that are empty inline, and brings its sidecars. */
  lemma ProfileFills(spec: ServiceSpec, p: ProfileSpec)
    ensures spec.router.image == "" ==>
              Merge(spec, Some(p)).images.router == p.images.router
    ensures spec.prefill.image == "" ==>
              Merge(spec, Some(p)).images.prefill == p.images.prefill
    ensures spec.decode.image == "" ==>
              Merge(spec, Some(p)).images.decode == p.images.decode
    ensures spec.router.command == [] ==>
              Merge(spec, Some(p)).commands.router ==
              if p.roleCommands.Some? then p.roleCommands.value.router else []
    ensures spec.prefill.command == [] ==>
              Merge(spec, Some(p)).commands.prefill ==
              if p.roleCommands.Some? then p.roleCommands.value.prefill else []
    ensures spec.decode.command == [] ==>
              Merge(spec, Some(p)).commands.decode ==
              if p.roleCommands.Some? then p.roleCommands.value.decode else []
    ensures spec.router.args == [] ==>
              Merge(spec, Some(p)).args.router ==
              if p.roleArgs.Some? then p.roleArgs.value.router else []
    ensures spec.prefill.args == [] ==>
              Merge(spec, Some(p)).args.prefill ==
              if p.roleArgs.Some? then p.roleArgs.value.prefill else []
    ensures spec.decode.args == [] ==>
              Merge(spec, Some(p)).args.decode ==
              if p.roleArgs.Some? then p.roleArgs.value.decode else []
    ensures Merge(spec, Some(p)).engineRuntimes == p.engineRuntimes
  {
  }

  /** Without a profile the inline values are all there is. */
  lemma InlineAlone(spec: ServiceSpec)
    ensures Merge(spec, None) == Merged(
                                   RoleImages(spec.router.image, spec.prefill.image, spec.decode.image),
                                   RoleStrings(spec.router.command, spec.prefill.command, spec.decode.command),
                                   RoleStrings(spec.router.args, spec.prefill.args, spec.decode.args),
                                   None)
  {
  }

  /** The profile lookup succeeds, or none is needed. */
  predicate Resolvable(profiles: map<Key, ProfileSpec>, ns: string, spec: ServiceSpec) {
    spec.engineProfileRef == "" || Key(ns, spec.engineProfileRef) in profiles
  }

  function ProfileFor(profiles: map<Key, ProfileSpec>, ns: string, spec: ServiceSpec): Option<ProfileSpec>
    requires Resolvable(profiles, ns, spec)
  {
    if spec.engineProfileRef == "" then None else Some(profiles[Key(ns, spec.engineProfileRef)])
  }

  /** The object that Resolve fills in step by step. */
  class MergedConfig {
    var images: RoleImages
    var routerCommand: seq<string>
    var prefillCommand: seq<string>
    var decodeCommand: seq<string>
    var routerArgs: seq<string>
    var prefillArgs: seq<string>
    var decodeArgs: seq<string>
    var engineRuntimes: Option<RoleEngineRuntimes>

    function Value(): (m: Merged)
      reads this
    {
      Merged(
        images,
        RoleStrings(routerCommand, prefillCommand, decodeCommand),
        RoleStrings(routerArgs, prefillArgs, decodeArgs),
        engineRuntimes)
    }

    constructor ()
      ensures Value() == Merged(NO_IMAGES, NO_STRINGS, NO_STRINGS, None)
    {
      images := NO_IMAGES;
      routerCommand, prefillCommand, decodeCommand := [], [], [];
      routerArgs, prefillArgs, decodeArgs := [], [], [];
      engineRuntimes := None;
    }

    /** Overwrites the images and sidecars; commands and args only when the profile has them. */
    method ApplyProfile(profile: ProfileSpec)
      modifies this
      ensures images == profile.images
      ensures Value().commands ==
              if profile.roleCommands.Some? then profile.roleCommands.value else old(Value().commands)
      ensures Value().args ==
              if profile.roleArgs.Some? then profile.roleArgs.value else old(Value().args)
      ensures engineRuntimes == profile.engineRuntimes
    {
      images := profile.images;
      if profile.roleCommands.Some? {
        var rc := profile.roleCommands.value;
        routerCommand, prefillCommand, decodeCommand := rc.router, rc.prefill, rc.decode;
      }
      if profile.roleArgs.Some? {
        var ra := profile.roleArgs.value;
        routerArgs, prefillArgs, decodeArgs := ra.router, ra.prefill, ra.decode;
      }
      engineRuntimes := profile.engineRuntimes;
    }

    /** Inline images win when non-empty. */
    method OverrideImages(spec: ServiceSpec)
      modifies this`images
      ensures images.router == if spec.router.image != "" then spec.router.image else old(images.router)
      ensures images.prefill == if spec.prefill.image != "" then spec.prefill.image else old(images.prefill)
      ensures images.decode == if spec.decode.image != "" then spec.decode.image else old(images.decode)
    {
      if spec.router.image != "" { images := images.(router := spec.router.image); }
      if spec.prefill.image != "" { images := images.(prefill := spec.prefill.image); }
      if spec.decode.image != "" { images := images.(decode := spec.decode.image); }
    }

    /** Inline commands win when non-empty. */
    method OverrideCommands(spec: ServiceSpec)
      modifies this`routerCommand, this`prefillCommand, this`decodeCommand
      ensures routerCommand == if |spec.router.command| > 0 then spec.router.command else old(routerCommand)
      ensures prefillCommand == if |spec.prefill.command| > 0 then spec.prefill.command else old(prefillCommand)
      ensures decodeCommand == if |spec.decode.command| > 0 then spec.decode.command else old(decodeCommand)
    {
      if |spec.router.command| > 0 { routerCommand := spec.router.command; }
      if |spec.prefill.command| > 0 { prefillCommand := spec.prefill.command; }
      if |spec.decode.command| > 0 { decodeCommand := spec.decode.command; }
    }

    /** Inline args win when non-empty; there is no concatenation. */
    method OverrideArgs(spec: ServiceSpec)
      modifies this`routerArgs, this`prefillArgs, this`decodeArgs
      ensures routerArgs == if |spec.router.args| > 0 then spec.router.args else old(routerArgs)
      ensures prefillArgs == if |spec.prefill.args| > 0 then spec.prefill.args else old(prefillArgs)
      ensures decodeArgs == if |spec.decode.args| > 0 then spec.decode.args else old(decodeArgs)
    {
      if |spec.router.args| > 0 { routerArgs := spec.router.args; }
      if |spec.prefill.args| > 0 { prefillArgs := spec.prefill.args; }
      if |spec.decode.args| > 0 { decodeArgs := spec.decode.args; }
    }
  }

  /** Null stands for the error return. A lookup can fail without the profile being gone,
      which `lookupFails` decides; without a reference nothing is looked up. */
  method Resolve(profiles: map<Key, ProfileSpec>, ns: string, spec: ServiceSpec, lookupFails: bool)
    returns (merged: MergedConfig?)
    ensures merged == null <==> !Resolvable(profiles, ns, spec) || (spec.engineProfileRef != "" && lookupFails)
    ensures merged != null ==> fresh(merged) && merged.Value() == Merge(spec, ProfileFor(profiles, ns, spec))
  {
    var m := new MergedConfig();
    if spec.engineProfileRef != "" {
      var key := Key(ns, spec.engineProfileRef);
      if lookupFails || key !in profiles {
        return null;
      }
      m.ApplyProfile(profiles[key]);
    }
    m.OverrideImages(spec);
    m.OverrideCommands(spec);
    m.OverrideArgs(spec);
    return m;
  }
}

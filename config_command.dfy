/**
 * `cdst config` (src/commands/config.ts): list the settings with the token masked, set one
 * stored setting, or print one. The outcome is what is shown and whether the process fails.
 */
module ConfigCommand {
  import opened Wrappers
  import opened Text
  import opened Types
  import opened ConfigStore

  /** The settings whose values are never shown in full. */
  const SecretKeys: seq<string> := ["githubToken"]

  /** `"****" + v.slice(-4)`: four stars, then the last four characters, or all of a shorter value. */
  function Mask(v: string): (m: string)
    ensures |m| <= 8
    ensures StartsWith(m, "****")
    ensures |m| - 4 == (if |v| < 4 then |v| else 4)
    ensures v == v[..|v| - (|m| - 4)] + m[4..]
  {
    "****" + SliceLast(v, 4)
  }

  /** How one setting is shown: masked if secret, verbatim otherwise. */
  function Display(key: string, v: string): (shown: string)
    ensures key in SecretKeys ==> shown == Mask(v)
    ensures key !in SecretKeys ==> shown == v
  {
    if key in SecretKeys then Mask(v) else v
  }

  /** The listing: every loaded setting, each as `Display` shows it. */
  function Listing(config: map<string, string>): (shown: map<string, string>)
    ensures shown.Keys == config.Keys
    ensures forall k :: k in config ==> shown[k] == Display(k, config[k])
  {
    map k | k in config :: Display(k, config[k])
  }

  /** Only the token is masked; every other setting is listed verbatim. */
  lemma OnlyTokenMasked(config: map<string, string>)
    ensures forall k :: k in config && k != "githubToken" ==> Listing(config)[k] == config[k]
    ensures "githubToken" in config ==> Listing(config)["githubToken"] == Mask(config["githubToken"])
  {
  }

  /** JavaScript truthiness of an optional argument: present and not empty. */
  predicate Truthy(o: Option<string>) {
    o.Some? && o.value != ""
  }

  datatype ConfigFailure = NotConfigured | UnknownKey(key: string)

  datatype ConfigOutcome =
    | NoConfigNotice                        // listing asked for, nothing stored
    | Listed(shown: map<string, string>)
    | Updated(key: string)
    | Shown(text: string)
    | Failed(reason: ConfigFailure)         // exit status 1
    | NoAction                              // a value without a key: no branch applies

  function ExitCode(out: ConfigOutcome): (code: int)
    ensures code == 1 <==> out.Failed?
    ensures code == 0 <==> !out.Failed?
  {
    if out.Failed? then 1 else 0
  }

  /** The own-property test: the setting is stored in the loaded object. */
  predicate KeyKnown(config: map<string, string>, key: string) {
    key in config
  }

  /** The names every plain object inherits from `Object.prototype`. */
  const PrototypeNames: set<string> := {
    "constructor", "__defineGetter__", "__defineSetter__", "hasOwnProperty",
    "__lookupGetter__", "__lookupSetter__", "isPrototypeOf", "propertyIsEnumerable",
    "toString", "valueOf", "__proto__", "toLocaleString"}

  /** The guard as written, `key in config`: the `in` operator also sees inherited names. */
  predicate KeyInAsWritten(config: map<string, string>, key: string) {
    key in config || key in PrototypeNames
  }

  /** The set branch as written: past the guard, the assignment stores the value under the
      key (assigning a string to `__proto__` is ignored). */
  function SetAsWritten(config: map<string, string>, key: string, value: string): (r: Result<map<string, string>, ConfigFailure>)
    ensures r.Err? <==> !KeyInAsWritten(config, key)
  {
    if !KeyInAsWritten(config, key) then Err(UnknownKey(key))
    else if key == "__proto__" && key !in config then Ok(config)
    else Ok(config[key := value])
  }

  /** The guard as written lets through a name that is not a setting, and the save then adds it
      to the file, although an unknown key is meant to fail with nothing saved. */
  lemma PrototypeNameAccepted(config: map<string, string>)
    requires "toString" !in config
    ensures SetAsWritten(config, "toString", "x").Ok?
    ensures SetAsWritten(config, "toString", "x").value.Keys == config.Keys + {"toString"}
  {
  }

  /** The set branch: a stored setting takes the new value and nothing else changes; any other
      key fails and the object is not saved. */
  function SetSetting(config: map<string, string>, key: string, value: string): (r: Result<map<string, string>, ConfigFailure>)
    ensures r.Err? <==> key !in config
    ensures r.Err? ==> r.error == UnknownKey(key)
    ensures r.Ok? ==> && r.value.Keys == config.Keys && r.value[key] == value
                      && forall k :: k in config && k != key ==> r.value[k] == config[k]
  {
    if !KeyKnown(config, key) then Err(UnknownKey(key)) else Ok(config[key := value])
  }

  /** The outcome of one run and what the configuration file holds afterwards. */
  datatype ConfigRun = ConfigRun(outcome: ConfigOutcome, file: Option<map<string, string>>)

  predicate ListingMode(args: ConfigCommandArgs) {
    args.list || (!Truthy(args.key) && !Truthy(args.value))
  }

  /** `handleConfig` on the stored file `file`. */
  function ConfigEffect(file: Option<map<string, string>>, args: ConfigCommandArgs): (r: ConfigRun)
    // listing never saves
    ensures ListingMode(args) ==> r.file == file
    ensures ListingMode(args) && file.None? ==> r.outcome == NoConfigNotice
    ensures ListingMode(args) && file.Some? ==> r.outcome == Listed(Listing(MergeDefaults(file.value)))
    // every failure leaves the file as it was
    ensures r.outcome.Failed? ==> r.file == file
    ensures !ListingMode(args) && Truthy(args.key) && file.None? ==> r.outcome == Failed(NotConfigured)
    // setting
    ensures !ListingMode(args) && Truthy(args.key) && Truthy(args.value) && file.Some? ==>
              var loaded := MergeDefaults(file.value);
              var key := args.key.value;
              if key in loaded then r == ConfigRun(Updated(key), Some(loaded[key := args.value.value]))
              else r.outcome == Failed(UnknownKey(key))
    // getting
    ensures !ListingMode(args) && Truthy(args.key) && !Truthy(args.value) && file.Some? ==>
              var loaded := MergeDefaults(file.value);
              var key := args.key.value;
              r.file == file &&
              if key in loaded then r.outcome == Shown(Display(key, loaded[key]))
              else r.outcome == Failed(UnknownKey(key))
    ensures !ListingMode(args) && !Truthy(args.key) ==> r == ConfigRun(NoAction, file)
  {
    if ListingMode(args) then
      match file
      case None => ConfigRun(NoConfigNotice, file)
      case Some(stored) => ConfigRun(Listed(Listing(MergeDefaults(stored))), file)
    else if Truthy(args.key) && Truthy(args.value) then
      match file
      case None => ConfigRun(Failed(NotConfigured), file)
      case Some(stored) =>
        match SetSetting(MergeDefaults(stored), args.key.value, args.value.value)
        case Err(e) => ConfigRun(Failed(e), file)
        case Ok(saved) => ConfigRun(Updated(args.key.value), Some(saved))
    else if Truthy(args.key) then
      match file
      case None => ConfigRun(Failed(NotConfigured), file)
      case Some(stored) =>
        var loaded := MergeDefaults(stored);
        var key := args.key.value;
        if key in loaded then ConfigRun(Shown(Display(key, loaded[key])), file)
        else ConfigRun(Failed(UnknownKey(key)), file)
    else ConfigRun(NoAction, file)
  }

  /** Only a successful set writes to the file. */
  lemma OnlyUpdateSaves(file: Option<map<string, string>>, args: ConfigCommandArgs)
    ensures ConfigEffect(file, args).file != file ==> ConfigEffect(file, args).outcome.Updated?
  {
  }

  /** A set that succeeds leaves a file whose loaded view differs from the old one in the named
      setting only. */
  lemma SetChangesOnlyThatKey(file: Option<map<string, string>>, args: ConfigCommandArgs)
    requires ConfigEffect(file, args).outcome.Updated?
    ensures file.Some? && ConfigEffect(file, args).file.Some?
    ensures var before := MergeDefaults(file.value);
            var after := MergeDefaults(ConfigEffect(file, args).file.value);
            var key := ConfigEffect(file, args).outcome.key;
            && after.Keys == before.Keys && after[key] == args.value.value
            && forall k :: k in before && k != key ==> after[k] == before[k]
  {
  }

  /** `handleConfig` against the files of `store`. */
  method HandleConfig(store: Store, args: ConfigCommandArgs) returns (out: ConfigOutcome)
    modifies store
    ensures ConfigRun(out, store.configFile) == ConfigEffect(old(store.configFile), args)
    ensures store.historyFile == old(store.historyFile)
  {
    var config := store.LoadConfig();
    if args.list || (!Truthy(args.key) && !Truthy(args.value)) {
      if config.None? {
        return NoConfigNotice;
      }
      return Listed(Listing(config.value));
    }
    if Truthy(args.key) && Truthy(args.value) {
      if config.None? {
        return Failed(NotConfigured);
      }
      var key := args.key.value;
      if !KeyKnown(config.value, key) {
        return Failed(UnknownKey(key));
      }
      var updated := config.value[key := args.value.value];
      store.SaveConfig(updated);
      return Updated(key);
    }
    if Truthy(args.key) {
      if config.None? {
        return Failed(NotConfigured);
      }
      var key := args.key.value;
      if key !in config.value {
        return Failed(UnknownKey(key));
      }
      return Shown(Display(key, config.value[key]));
    }
    return NoAction;
  }
}

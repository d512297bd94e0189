/** middleware/configs.go: typed lookups with defaults over the decoded
    settings file, and InitConfig, which replaces the package's config record
    and fills it in. Reading and decoding the file (loadConfig) is not part of
    the model: its outcome is the `load` parameter. */
module Configs {
  import opened Json
  import opened State

  const SocketUrlMissing := "socketURL must be specified"
  const AppsDatasetMissing :=
    "apps (ix-applications) dataset complete name must be specified i.e tank/ix-applications"

  /** parseValue: the stored value when the key is present, the default otherwise. */
  function ParseValue(name: string, configMap: JsonMap, defaultValue: Json): (r: Json)
    ensures name in configMap ==> r == configMap[name]
    ensures name !in configMap ==> r == defaultValue
  {
    if name in configMap then configMap[name] else defaultValue
  }

  /** parseBoolValue: the stored value only when it is present and a boolean. */
  function ParseBoolValue(name: string, configMap: JsonMap, defaultValue: bool): (r: bool)
    ensures name in configMap && configMap[name].JBool? ==> r == configMap[name].b
    ensures !(name in configMap && configMap[name].JBool?) ==> r == defaultValue
  {
    match ParseValue(name, configMap, JBool(defaultValue))
    case JBool(value) => value
    case _ => defaultValue
  }

  /** The string elements of a decoded list, in order. */
  function Strings(items: seq<Json>): seq<string>
  {
    if items == [] then []
    else (if items[0].JString? then [items[0].s] else []) + Strings(items[1..])
  }

  lemma {:induction false} StringsAppend(a: seq<Json>, b: seq<Json>)
    ensures Strings(a + b) == Strings(a) + Strings(b)
  {
    if a != [] {
      assert (a + b)[0] == a[0];
      assert (a + b)[1..] == a[1..] + b;
      StringsAppend(a[1..], b);
    } else {
      assert a + b == b;
    }
  }

  /** Strings keeps exactly the string elements: s is kept iff JString(s) is in the list,
      nothing is invented, and a list without strings yields the empty list. */
  lemma {:induction false} StringsExactly(items: seq<Json>, s: string)
    ensures s in Strings(items) <==> JString(s) in items
    ensures |Strings(items)| <= |items|
    ensures (forall i :: 0 <= i < |items| ==> !items[i].JString?) ==> Strings(items) == []
  {
    if items != [] {
      StringsExactly(items[1..], s);
      assert items == [items[0]] + items[1..];
      if forall i :: 0 <= i < |items| ==> !items[i].JString? {
        assert forall i :: 0 <= i < |items[1..]| ==> !items[1..][i].JString? by {
          forall i | 0 <= i < |items[1..]| ensures !items[1..][i].JString? {
            assert items[1..][i] == items[i + 1];
          }
        }
      }
    }
  }

  /** The specification of parseStringListValue. A Go `[]string` default never passes the
      `[]interface{}` assertion, so an absent key or a non-list value gives the default. */
  function StringListValue(name: string, configMap: JsonMap, defaultValue: seq<string>): seq<string>
  {
    if name in configMap && configMap[name].JList? then Strings(configMap[name].items) else defaultValue
  }

  /** parseStringListValue: appends the string elements of a stored list one by one. */
  method ParseStringListValue(name: string, configMap: JsonMap, defaultValue: seq<string>)
    returns (r: seq<string>)
    ensures r == StringListValue(name, configMap, defaultValue)
    ensures name in configMap && configMap[name].JList? ==>
      forall s :: s in r <==> JString(s) in configMap[name].items
    ensures !(name in configMap && configMap[name].JList?) ==> r == defaultValue
  {
    match ParseValue(name, configMap, JNull)
    case JList(value) =>
      var stringList := [];
      for i := 0 to |value|
        invariant stringList == Strings(value[..i])
      {
        assert value[..i + 1] == value[..i] + [value[i]];
        StringsAppend(value[..i], [value[i]]);
        if value[i].JString? {
          stringList := stringList + [value[i].s];
        }
      }
      assert value[..|value|] == value;
      forall s ensures s in stringList <==> JString(s) in value {
        StringsExactly(value, s);
      }
      return stringList;
    case _ =>
      return defaultValue;
  }

  /** The decoded file holds the two required keys as strings where Go asserts them
      (`value.(string)` panics otherwise). */
  predicate ConfigAnswer(load: Result<JsonMap>)
  {
    load.Ok? ==>
      var m := load.value;
      "socketUrl" in m ==> m["socketUrl"].JString? && ("appsDataset" in m ==> m["appsDataset"].JString?)
  }

  /** The settings InitConfig establishes from a map holding both required keys. */
  function Interpreted(m: JsonMap): Settings
    requires "socketUrl" in m && m["socketUrl"].JString?
    requires "appsDataset" in m && m["appsDataset"].JString?
  {
    Settings(
      m["socketUrl"].s,
      ParseBoolValue("verifyVolumes", m, true),
      ParseBoolValue("verifyLockedPath", m, true),
      ParseBoolValue("verifyAttachedPath", m, true),
      m["appsDataset"].s,
      StringListValue("ignorePaths", m, []))
  }

  /** The optional settings: each flag is true unless the file gives it as a boolean,
      and the ignore-path list is empty unless the file gives a list. */
  lemma InterpretedDefaults(m: JsonMap)
    requires "socketUrl" in m && m["socketUrl"].JString?
    requires "appsDataset" in m && m["appsDataset"].JString?
    ensures Interpreted(m).socketUrl == m["socketUrl"].s && Interpreted(m).appsDataset == m["appsDataset"].s
    ensures !Interpreted(m).verifyVolumes ==> m["verifyVolumes"] == JBool(false)
    ensures !Interpreted(m).verifyLockedPath ==> m["verifyLockedPath"] == JBool(false)
    ensures !Interpreted(m).verifyAttachedPath ==> m["verifyAttachedPath"] == JBool(false)
    ensures "ignorePaths" !in m ==> Interpreted(m).ignorePaths == []
  {
  }

  /** The error InitConfig reports: the load failure, then a missing socketUrl, then a
      missing appsDataset, checked in that order. */
  function LoadError(load: Result<JsonMap>): (err: Option<string>)
    ensures load.Err? ==> err == Some(load.error)
    ensures err.None? <==> load.Ok? && "socketUrl" in load.value && "appsDataset" in load.value
    ensures load.Ok? && "socketUrl" !in load.value ==> err == Some(SocketUrlMissing)
    ensures load.Ok? && "socketUrl" in load.value && "appsDataset" !in load.value ==>
      err == Some(AppsDatasetMissing)
  {
    if load.Err? then Some(load.error)
    else if "socketUrl" !in load.value then Some(SocketUrlMissing)
    else if "appsDataset" !in load.value then Some(AppsDatasetMissing)
    else None
  }

  /** The settings left behind when InitConfig fails: only socketUrl, if the failure came
      after it was read. */
  function PartialSettings(load: Result<JsonMap>): Settings
    requires ConfigAnswer(load)
  {
    if load.Ok? && "socketUrl" in load.value then ZeroSettings.(socketUrl := load.value["socketUrl"].s)
    else ZeroSettings
  }

  /** InitConfig: installs a fresh config record, then fills it from the decoded file,
      stopping at the first missing required key. */
  method InitConfig(pkg: Package, load: Result<JsonMap>) returns (err: Option<string>)
    requires ConfigAnswer(load)
    modifies pkg
    ensures fresh(pkg.clientConfig) && pkg.clientConfig.client == null
    ensures err == LoadError(load)
    ensures err.Some? ==> pkg.clientConfig.Current() == PartialSettings(load)
    ensures load.Err? ==> err == Some(load.error) && pkg.clientConfig.Current() == ZeroSettings
    ensures load.Ok? && "socketUrl" !in load.value ==>
      err == Some(SocketUrlMissing) && pkg.clientConfig.Current() == ZeroSettings
    ensures load.Ok? && "socketUrl" in load.value && "appsDataset" !in load.value ==>
      err == Some(AppsDatasetMissing)
      && pkg.clientConfig.Current() == ZeroSettings.(socketUrl := load.value["socketUrl"].s)
    ensures load.Ok? && "socketUrl" in load.value && "appsDataset" in load.value ==>
      err == None && pkg.clientConfig.Current() == Interpreted(load.value)
  {
    var config := new Config();
    pkg.clientConfig := config;
    if load.Err? {
      return Some(load.error);
    }
    var configMap := load.value;
    if "socketUrl" in configMap {
      config.socketUrl := configMap["socketUrl"].s;
    } else {
      return Some(SocketUrlMissing);
    }
    if "appsDataset" in configMap {
      config.appsDataset := configMap["appsDataset"].s;
    } else {
      return Some(AppsDatasetMissing);
    }
    config.verifyVolumes := ParseBoolValue("verifyVolumes", configMap, true);
    config.verifyLockedPath := ParseBoolValue("verifyLockedPath", configMap, true);
    config.verifyAttachedPath := ParseBoolValue("verifyAttachedPath", configMap, true);
    config.ignorePaths := ParseStringListValue("ignorePaths", configMap, []);
    return None;
  }

  /** CanVerifyVolumes (configs.go revision): the flag, never an error. */
  method CanVerifyVolumes(pkg: Package) returns (verify: bool, err: Option<string>)
    requires pkg.clientConfig != null
    ensures verify == pkg.clientConfig.verifyVolumes && err == None
  {
    return pkg.clientConfig.verifyVolumes, None;
  }

  /** canVerifyAttachPath: the attached-path flag in effect. */
  function CanVerifyAttachPath(pkg: Package): (verify: bool)
    requires pkg.clientConfig != null
    reads pkg, pkg.clientConfig
    ensures verify == pkg.clientConfig.Current().verifyAttachedPath
  {
    pkg.clientConfig.verifyAttachedPath
  }

  /** canVerifyLockedVolumes: the locked-path flag in effect. */
  function CanVerifyLockedVolumes(pkg: Package): (verify: bool)
    requires pkg.clientConfig != null
    reads pkg, pkg.clientConfig
    ensures verify == pkg.clientConfig.Current().verifyLockedPath
  {
    pkg.clientConfig.verifyLockedPath
  }

  /** getIgnorePaths: the configured ignore-path list. */
  function GetIgnorePaths(pkg: Package): (paths: seq<string>)
    requires pkg.clientConfig != null
    reads pkg, pkg.clientConfig
    ensures paths == pkg.clientConfig.Current().ignorePaths
  {
    pkg.clientConfig.ignorePaths
  }

  /** getRootDataset: the apps dataset. */
  function GetRootDataset(pkg: Package): (dataset: string)
    requires pkg.clientConfig != null
    reads pkg, pkg.clientConfig
    ensures dataset == pkg.clientConfig.Current().appsDataset
  {
    pkg.clientConfig.appsDataset
  }

  /** Once a file has been loaded, the accessors give back what it says: each flag as
      stored when it is a boolean and true otherwise, the string elements of the stored
      ignore list, and the stored apps dataset. */
  lemma AccessorsReadLoadedFile(pkg: Package, m: JsonMap)
    requires "socketUrl" in m && m["socketUrl"].JString?
    requires "appsDataset" in m && m["appsDataset"].JString?
    requires pkg.clientConfig != null && pkg.clientConfig.Current() == Interpreted(m)
    ensures CanVerifyAttachPath(pkg) <==>
      ("verifyAttachedPath" !in m || m["verifyAttachedPath"] != JBool(false))
    ensures CanVerifyLockedVolumes(pkg) <==>
      ("verifyLockedPath" !in m || m["verifyLockedPath"] != JBool(false))
    ensures "ignorePaths" in m && m["ignorePaths"].JList? ==>
      GetIgnorePaths(pkg) == Strings(m["ignorePaths"].items)
    ensures "ignorePaths" !in m ==> GetIgnorePaths(pkg) == []
    ensures GetRootDataset(pkg) == m["appsDataset"].s
  {
  }
}

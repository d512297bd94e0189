/** The mount-path rules of volume/mounts/validate.go: which host paths a
    container may bind-mount, decided by string and segment checks and by
    asking the middleware daemon (through a remote `Call`) about locked
    datasets and attachments. The answer of that remote call is a parameter
    here: `Err(msg)` when the call failed, `Ok(value)` with the decoded result. */
module Mounts {
  import opened Json
  import opened Text

  // ---------------------------------------------------------------- pathToList

  /** The non-empty strings of `parts`, in order. */
  function NonEmpty(parts: seq<string>): (r: seq<string>)
    ensures forall i :: 0 <= i < |r| ==> r[i] != "" && r[i] in parts
    ensures |r| <= |parts|
  {
    if parts == [] then []
    else (if parts[0] != "" then [parts[0]] else []) + NonEmpty(parts[1..])
  }

  lemma {:induction false} NonEmptyAppend(a: seq<string>, b: seq<string>)
    ensures NonEmpty(a + b) == NonEmpty(a) + NonEmpty(b)
  {
    if a != [] {
      assert (a + b)[0] == a[0];
      assert (a + b)[1..] == a[1..] + b;
      NonEmptyAppend(a[1..], b);
    } else {
      assert a + b == b;
    }
  }

  /** The path segments: the "/"-separated pieces of `path` with every empty piece removed. */
  function Segments(path: string): seq<string>
  {
    NonEmpty(Split(path))
  }

  /** pathToList: split on "/" and keep the non-empty pieces, appending them one by one. */
  method PathToList(path: string) returns (segments: seq<string>)
    ensures segments == Segments(path)
    ensures forall i :: 0 <= i < |segments| ==> segments[i] != "" && '/' !in segments[i]
  {
    var raw := Split(path);
    segments := [];
    for i := 0 to |raw|
      invariant segments == NonEmpty(raw[..i])
    {
      assert raw[..i + 1] == raw[..i] + [raw[i]];
      NonEmptyAppend(raw[..i], [raw[i]]);
      if raw[i] != "" {
        segments := segments + [raw[i]];
      }
    }
    assert raw[..|raw|] == raw;
    SplitJoin(path);
  }

  /** A slash separates: the segments of `a/b` are those of a followed by those of b. */
  lemma SegmentsAtSlash(a: string, b: string)
    ensures Segments(a + "/" + b) == Segments(a) + Segments(b)
  {
    SplitAtSlash(a, b);
    NonEmptyAppend(Split(a), Split(b));
  }

  lemma SegmentsOfEmpty()
    ensures Segments("") == []
  {
    assert Split("") == [""];
  }

  /** Slashes contribute no segments of their own: "/" has none, and leading, trailing and
      doubled slashes change nothing. */
  lemma SegmentsOfSlash()
    ensures Segments("/") == []
  {
    SegmentsOfEmpty();
    SegmentsAtSlash("", "");
    assert "" + "/" + "" == "/";
  }

  lemma SegmentsLeadingSlash(b: string)
    ensures Segments("/" + b) == Segments(b)
  {
    SegmentsOfEmpty();
    SegmentsAtSlash("", b);
    assert "" + "/" + b == "/" + b;
  }

  lemma SegmentsTrailingSlash(a: string)
    ensures Segments(a + "/") == Segments(a)
  {
    SegmentsOfEmpty();
    SegmentsAtSlash(a, "");
    assert a + "/" + "" == a + "/";
  }

  lemma SegmentsDoubleSlash(a: string, b: string)
    ensures Segments(a + "//" + b) == Segments(a + "/" + b)
  {
    SegmentsLeadingSlash(b);
    SegmentsAtSlash(a, "/" + b);
    assert a + "/" + ("/" + b) == a + "//" + b;
    SegmentsAtSlash(a, b);
  }

  // ---------------------------------------------------------------- ignorePath

  /** The prefixes ignorePath always ignores, before the configured ones. */
  const BuiltinIgnorePaths: seq<string> :=
    ["/etc/", "/sys/", "/proc/", "/var/lib/kubelet/", "/dev/", "/mnt/",
     "/home/keys/", "/run/", "/var/run/", "/var/lock/", "/lock"]

  /** One entry of the ignore list covers `path` when path starts with it
      or equals it without its trailing slashes. */
  predicate Covers(ignore: string, path: string)
  {
    ignore <= path || path == TrimRight(ignore)
  }

  /** The specification of ignorePath, given what GetIgnorePaths() returns. */
  predicate Ignored(path: string, configured: seq<string>)
  {
    path == "/" || exists ig :: ig in BuiltinIgnorePaths + configured && Covers(ig, path)
  }

  /** ignorePath: "/" is ignored outright; otherwise scan the built-in and the configured
      prefixes and stop at the first one that covers the path. */
  method IgnorePath(path: string, configured: seq<string>) returns (ignored: bool)
    ensures ignored <==> Ignored(path, configured)
    ensures path == "/" ==> ignored
  {
    if path == "/" {
      return true;
    }
    var ignorePaths := BuiltinIgnorePaths + configured;
    for i := 0 to |ignorePaths|
      invariant forall j :: 0 <= j < i ==> !Covers(ignorePaths[j], path)
    {
      if Covers(ignorePaths[i], path) {
        return true;
      }
    }
    return false;
  }

  /** Configured paths only add to what is ignored: a path ignored with fewer configured
      prefixes stays ignored with more, and one configured prefix covering it suffices. */
  lemma IgnoredMonotone(path: string, configured: seq<string>, extra: seq<string>)
    ensures Ignored(path, configured) ==> Ignored(path, configured + extra)
    ensures Ignored(path, configured) ==> Ignored(path, extra + configured)
    ensures (exists ig :: ig in extra && Covers(ig, path)) ==> Ignored(path, configured + extra)
  {
    if Ignored(path, configured) && path != "/" {
      var ig :| ig in BuiltinIgnorePaths + configured && Covers(ig, path);
      assert ig in BuiltinIgnorePaths + (configured + extra);
      assert ig in BuiltinIgnorePaths + (extra + configured);
    }
    if exists ig :: ig in extra && Covers(ig, path) {
      var ig :| ig in extra && Covers(ig, path);
      assert ig in BuiltinIgnorePaths + (configured + extra);
    }
  }

  /** A built-in prefix also covers itself written without its trailing slash: "/mnt" is ignored. */
  lemma IgnoredWithoutTrailingSlash()
    ensures Ignored("/mnt", [])
  {
    assert TrimRight("/mnt/") == "/mnt";
    assert "/mnt/" in BuiltinIgnorePaths + [];
  }

  /** Prefixes are compared as raw strings: "/lock" has no trailing slash, so "/lockbox" is ignored too. */
  lemma IgnoredLockPrefix()
    ensures Ignored("/lockbox", [])
  {
    assert "/lock" <= "/lockbox";
    assert "/lock" in BuiltinIgnorePaths + [];
  }

  /** A sibling of an ignored directory is not ignored: "/mntx" is neither under "/mnt/" nor equal to "/mnt". */
  lemma NotIgnoredSibling()
    ensures !Ignored("/mntx", [])
  {
    forall ig | ig in BuiltinIgnorePaths + []
      ensures !Covers(ig, "/mntx")
    {
      var t := TrimRight(ig);
      assert t <= ig;
    }
  }

  // ---------------------------------------------------------------- isIXVolumePath

  /** The dataset names filepath.Join leaves as they are: non-empty slash-separated
      names none of which is empty, "." or "..". */
  predicate CleanDataset(dataset: string)
  {
    forall i :: 0 <= i < |Split(dataset)| ==> Split(dataset)[i] !in {"", ".", ".."}
  }

  /** filepath.Join(releasePath, app, "volumes", "ix_volumes"), where the single segment
      `app` is dropped when empty or ".", and cancels the last element of releasePath when "..". */
  function VolumePath(dataset: string, app: string): string
  {
    if app == "" || app == "." then "mnt/" + dataset + "/releases/volumes/ix_volumes"
    else if app == ".." then "mnt/" + dataset + "/volumes/ix_volumes"
    else "mnt/" + dataset + "/releases/" + app + "/volumes/ix_volumes"
  }

  /** isIXVolumePath: the path lies under /mnt/<dataset>/releases and contains the
      ix_volumes directory of the application named right after that prefix. */
  function IsIXVolumePath(path: string, dataset: string): (r: bool)
    requires CleanDataset(dataset)
    ensures r ==> "/mnt/" + dataset + "/releases" <= path
  {
    var releasePath := "mnt/" + dataset + "/releases";
    if "/" + releasePath <= path then
      var appPath := ReplaceFirst(path, "/" + releasePath + "/", "");
      var appName := Split(appPath)[0];
      Contains(path, "/" + VolumePath(dataset, appName))
    else
      false
  }

  /** Replacing an occurrence at the very start removes the prefix. */
  lemma ReplaceLeadingPrefix(s: string, prefix: string)
    requires prefix != [] && prefix <= s
    ensures ReplaceFirst(s, prefix, "") == s[|prefix|..]
  {
  }

  /** After the prefix is replaced away, the first piece is the name that followed it. */
  lemma AppNameAfterPrefix(path: string, prefix: string, app: string, tail: string)
    requires prefix != [] && '/' !in app
    requires path == prefix + (app + "/" + tail)
    ensures Split(ReplaceFirst(path, prefix, ""))[0] == app
  {
    ReplaceLeadingPrefix(path, prefix);
    assert path[|prefix|..] == app + "/" + tail;
    SplitAtSlash(app, tail);
    SplitNoSlash(app);
  }

  lemma VolumePathShape(dataset: string, app: string, rest: string)
    requires app != "" && app != "." && app != ".."
    ensures VolumePath(dataset, app) == "mnt/" + dataset + "/releases/" + app + "/volumes/ix_volumes"
    ensures "/" + VolumePath(dataset, app) + rest
            == ("/" + ("mnt/" + dataset + "/releases") + "/") + (app + "/" + ("volumes/ix_volumes" + rest))
  {
  }

  /** The volumes directory of every ordinary application name,
      /mnt/<dataset>/releases/<app>/volumes/ix_volumes, is recognised, whatever follows it. */
  lemma IXVolumeRecognised(dataset: string, app: string, rest: string)
    requires CleanDataset(dataset)
    requires app != "" && app != "." && app != ".." && '/' !in app
    ensures VolumePath(dataset, app) == "mnt/" + dataset + "/releases/" + app + "/volumes/ix_volumes"
    ensures IsIXVolumePath("/" + VolumePath(dataset, app) + rest, dataset)
  {
    var releasePath := "mnt/" + dataset + "/releases";
    var prefix := "/" + releasePath + "/";
    var volume := "/" + VolumePath(dataset, app);
    var path := volume + rest;
    VolumePathShape(dataset, app, rest);
    assert "/" + releasePath <= prefix <= path;
    AppNameAfterPrefix(path, prefix, app, "volumes/ix_volumes" + rest);
    ContainsAt(path, volume, 0);
  }

  // ---------------------------------------------------------------- ixMountValidation

  /** The cluster paths that may never be mounted, as pathToList sees them. */
  function ClusterBlockLists(): seq<seq<string>>
  {
    [Segments("/cluster/ctdb_shared_vol"), Segments("/cluster")]
  }

  /** A non-empty name without a slash is one segment, with or without a slash before it. */
  lemma SegmentsOfName(name: string)
    requires name != "" && '/' !in name
    ensures Segments(name) == [name]
    ensures Segments("/" + name) == [name]
  {
    SplitNoSlash(name);
    SegmentsLeadingSlash(name);
  }

  /** "/c/v" has the segments c and v, and "/c" the one segment c. */
  lemma SegmentsOfTwoNames(c: string, v: string)
    requires c != "" && '/' !in c && v != "" && '/' !in v
    ensures Segments("/" + (c + "/" + v)) == [c, v]
    ensures Segments("/" + c) == [c]
  {
    SegmentsOfName(c);
    SegmentsOfName(v);
    SegmentsAtSlash(c, v);
    SegmentsLeadingSlash(c + "/" + v);
  }

  lemma ClusterBlockListsValue()
    ensures ClusterBlockLists() == [["cluster", "ctdb_shared_vol"], ["cluster"]]
  {
    var c, v := "cluster", "ctdb_shared_vol";
    assert '/' !in c && '/' !in v;
    SegmentsOfTwoNames(c, v);
    ClusterPathsSpelled();
  }

  lemma ClusterPathsSpelled()
    ensures "/cluster/ctdb_shared_vol" == "/" + ("cluster" + "/" + "ctdb_shared_vol")
    ensures "/cluster" == "/" + "cluster"
  {
  }

  /** ixMountValidation: None when the mount is allowed, Some(message) otherwise.
      Without `pathToBeIgnored`, Go indexes the first segment unguarded, so the
      path must have at least one segment. */
  function IxMountValidation(path: string, pathToBeIgnored: bool): (r: Option<string>)
    requires pathToBeIgnored || |Segments(path)| > 0
    ensures pathToBeIgnored && r.Some? ==>
      r.value == "Invalid path " + path + ". Mounting root dataset or path outside a pool is not allowed"
    ensures pathToBeIgnored && 3 <= |Segments(path)| ==> r == None
    ensures !pathToBeIgnored && r.Some? && Segments(path)[0] == "cluster" ==>
      r.value == "Path " + path + " is blocked and cannot be mounted."
    ensures !pathToBeIgnored && Segments(path)[0] != "cluster" ==> r.Some?
  {
    var pathList := Segments(path);
    if pathToBeIgnored then
      if |pathList| != 0 && |pathList| < 3 && pathList[0] == "mnt" then
        Some("Invalid path " + path + ". Mounting root dataset or path outside a pool is not allowed")
      else
        None
    else if pathList[0] == "cluster" then
      if pathList in ClusterBlockLists() then
        Some("Path " + path + " is blocked and cannot be mounted.")
      else
        None
    else
      Some(path + " path not allowed to be mounted")
  }

  /** For an ignored path, only a pool root or /mnt itself is refused: one or two segments
      starting with "mnt". */
  lemma IgnoredMountRule(path: string)
    ensures IxMountValidation(path, true).Some? <==>
      (1 <= |Segments(path)| <= 2 && Segments(path)[0] == "mnt")
    ensures IxMountValidation("/", true) == None
  {
    SegmentsOfSlash();
  }

  /** For any other path, only paths under /cluster pass, and neither /cluster itself nor
      /cluster/ctdb_shared_vol, however many slashes they are written with. */
  lemma ClusterMountRule(path: string)
    requires |Segments(path)| > 0
    ensures IxMountValidation(path, false).None? <==>
      (Segments(path)[0] == "cluster"
       && Segments(path) != ["cluster"]
       && Segments(path) != ["cluster", "ctdb_shared_vol"])
    ensures Segments(path)[0] != "cluster" ==>
      IxMountValidation(path, false) == Some(path + " path not allowed to be mounted")
  {
    ClusterBlockListsValue();
  }

  // ---------------------------------------------------------------- lockedPathValidation

  /** lockedPathValidation, given the answer of pool.dataset.path_in_locked_datasets:
      a failed call, a non-boolean result and `false` all let the mount through. */
  function LockedPathValidation(call: Result<Json>): (r: Option<string>)
    ensures r.Some? <==> call == Ok(JBool(true))
    ensures r.Some? ==> r.value == "Dataset path is locked"
  {
    if call.Ok? then
      match call.value
      case JBool(isLocked) => if isLocked then Some("Dataset path is locked") else None
      case _ => None
    else
      None
  }

  // ---------------------------------------------------------------- attachments

  /** An attachment record with a string `type` (the Go code asserts this and panics otherwise). */
  predicate IsAttachment(entry: Json)
  {
    entry.JObject? && "type" in entry.fields && entry.fields["type"].JString?
  }

  /** What pool.dataset.attachments_with_path must answer for getAttachments not to panic:
      on success, a list of attachment records. */
  predicate AttachmentsAnswer(call: Result<Json>)
  {
    call.Ok? ==> call.value.JList? && forall e :: e in call.value.items ==> IsAttachment(e)
  }

  function ServiceType(entry: Json): string
    requires IsAttachment(entry)
  {
    entry.fields["type"].s
  }

  /** The services that own ix-volumes and are not reported against them. */
  predicate IsAppService(serviceType: string)
  {
    serviceType == "Chart Releases" || serviceType == "Kubernetes"
  }

  /** The service types getAttachments reports for `entries`, given whether the path is an ix-volume path. */
  function KeptTypes(entries: seq<Json>, ixVolume: bool): (r: seq<string>)
    requires forall e :: e in entries ==> IsAttachment(e)
    ensures |r| <= |entries|
  {
    if entries == [] then []
    else
      var t := ServiceType(entries[0]);
      (if IsAppService(t) && ixVolume then [] else [t]) + KeptTypes(entries[1..], ixVolume)
  }

  lemma {:induction false} KeptTypesAppend(a: seq<Json>, b: seq<Json>, ixVolume: bool)
    requires forall e :: e in a + b ==> IsAttachment(e)
    ensures KeptTypes(a + b, ixVolume) == KeptTypes(a, ixVolume) + KeptTypes(b, ixVolume)
  {
    if a != [] {
      assert (a + b)[0] == a[0];
      assert (a + b)[1..] == a[1..] + b;
      KeptTypesAppend(a[1..], b, ixVolume);
    } else {
      assert a + b == b;
    }
  }

  /** Away from ix-volumes every attachment is reported, one type per entry, in order. */
  lemma {:induction false} KeptTypesAll(entries: seq<Json>)
    requires forall e :: e in entries ==> IsAttachment(e)
    ensures |KeptTypes(entries, false)| == |entries|
    ensures forall i :: 0 <= i < |entries| ==> KeptTypes(entries, false)[i] == ServiceType(entries[i])
  {
    if entries != [] {
      KeptTypesAll(entries[1..]);
    }
  }

  /** On an ix-volume path exactly the other services are reported: a type is reported iff
      some entry has it and it is neither "Chart Releases" nor "Kubernetes". */
  lemma {:induction false} KeptTypesOnIXVolume(entries: seq<Json>, t: string)
    requires forall e :: e in entries ==> IsAttachment(e)
    ensures t in KeptTypes(entries, true) <==>
      !IsAppService(t) && exists i :: 0 <= i < |entries| && ServiceType(entries[i]) == t
  {
    if entries != [] {
      KeptTypesOnIXVolume(entries[1..], t);
      if exists i :: 0 <= i < |entries[1..]| && ServiceType(entries[1..][i]) == t {
        var i :| 0 <= i < |entries[1..]| && ServiceType(entries[1..][i]) == t;
        assert ServiceType(entries[i + 1]) == t;
      }
      if exists i :: 0 <= i < |entries| && ServiceType(entries[i]) == t {
        var i :| 0 <= i < |entries| && ServiceType(entries[i]) == t;
        if i > 0 {
          assert ServiceType(entries[1..][i - 1]) == t;
        }
      }
    }
  }

  /** The specification of getAttachments: nothing when the call failed. */
  function Attachments(path: string, dataset: string, call: Result<Json>): seq<string>
    requires CleanDataset(dataset) && AttachmentsAnswer(call)
  {
    if call.Err? then [] else KeptTypes(call.value.items, IsIXVolumePath(path, dataset))
  }

  /** getAttachments: walks the daemon's attachment records and appends the type of each one
      that is not an application service on an ix-volume path. */
  method GetAttachments(path: string, dataset: string, call: Result<Json>) returns (attachmentList: seq<string>)
    requires CleanDataset(dataset) && AttachmentsAnswer(call)
    ensures attachmentList == Attachments(path, dataset, call)
  {
    if call.Err? {
      return [];
    }
    var results := call.value.items;
    attachmentList := [];
    for i := 0 to |results|
      invariant attachmentList == KeptTypes(results[..i], IsIXVolumePath(path, dataset))
    {
      assert results[..i + 1] == results[..i] + [results[i]];
      assert results[i] in results;
      KeptTypesAppend(results[..i], [results[i]], IsIXVolumePath(path, dataset));
      var serviceType := ServiceType(results[i]);
      if IsAppService(serviceType) && IsIXVolumePath(path, dataset) {
        continue;
      }
      attachmentList := attachmentList + [serviceType];
    }
    assert results[..|results|] == results;
  }

  /** attachedPathValidation: refuses the mount when some service still uses the path,
      naming the services joined by ", ". */
  function AttachedPathValidation(path: string, dataset: string, call: Result<Json>): (r: Option<string>)
    requires CleanDataset(dataset) && AttachmentsAnswer(call)
    ensures r.Some? <==> Attachments(path, dataset, call) != []
    ensures r.Some? ==> r.value == "Invalid mount path. " + path + ". Following service(s) uses this path: `"
                                   + JoinWith(Attachments(path, dataset, call), ", ") + "`."
  {
    var attachmentsResults := Attachments(path, dataset, call);
    if |attachmentsResults| > 0 then
      Some("Invalid mount path. " + path + ". Following service(s) uses this path: `"
           + JoinWith(attachmentsResults, ", ") + "`.")
    else
      None
  }

  /** A failed call never blocks a mount, and away from ix-volumes any attachment at all does. */
  lemma AttachedPathRule(path: string, dataset: string, call: Result<Json>)
    requires CleanDataset(dataset) && AttachmentsAnswer(call)
    ensures call.Err? ==> AttachedPathValidation(path, dataset, call) == None
    ensures call.Ok? && !IsIXVolumePath(path, dataset) ==>
      (AttachedPathValidation(path, dataset, call).Some? <==> |call.value.items| > 0)
  {
    if call.Ok? {
      KeptTypesAll(call.value.items);
    }
  }
}

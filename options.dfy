/**
 * The options hash that deploy.rb fills through its OptionParser callbacks. The parser
 * itself is not modelled: a run is the list of flags it recognised, in command-line order,
 * and each flag runs its callback on the hash.
 */
module Options {
  import opened Wrappers

  /** A recognised flag with the value OptionParser hands to its callback. */
  datatype Flag =
    | Verbose(on: bool)      // -v, --[no-]verbose
    | AllowDirty             // -a, --allow-dirty (no negated form, so always true)
    | DryRun(on: bool)       // -n, --[no-]dry-run
    | Env(name: string)      // -e, --env ENV
    | TagName(name: string)  // -t, --tag TAG
    | Upload(on: bool)       // -u, --[no-]upload
    | Live(on: bool)         // -l, --[no-]live

  /**
   * The hash after parsing. A key that no callback set is nil in Ruby, which every use in
   * the script reads as false; `deploy` is the key the upload callback actually writes.
   */
  datatype Options = Options(
    verbose: bool,
    dirty: bool,
    dryrun: bool,
    environment: string,
    tag: Option<string>,
    upload: bool,
    deploy: Option<bool>,
    live: bool)

  /** The two keys set before parsing: environment "dev" and upload true. */
  const DEFAULTS := Options(false, false, false, "dev", None, true, None, false)

  /** One callback. The upload flag writes `:deploy`, so `:upload` is never changed. */
  function Apply(o: Options, f: Flag): Options
  {
    match f
    case Verbose(v) => o.(verbose := v)
    case AllowDirty => o.(dirty := true)
    case DryRun(n) => o.(dryrun := n)
    case Env(e) => o.(environment := e)
    case TagName(t) => o.(tag := Some(t))
    case Upload(d) => o.(deploy := Some(d))
    case Live(l) => o.(live := l)
  }

  /** The hash after the callbacks of all flags have run, left to right. */
  function Parse(flags: seq<Flag>): Options
  {
    if flags == [] then DEFAULTS else Apply(Parse(flags[..|flags| - 1]), flags[|flags| - 1])
  }

  /** Each callback writes its own key and leaves the others as they were; none writes `:upload`. */
  lemma ApplyWrites(o: Options, f: Flag)
    ensures Apply(o, f).verbose == if f.Verbose? then f.on else o.verbose
    ensures Apply(o, f).dirty == (f.AllowDirty? || o.dirty)
    ensures Apply(o, f).dryrun == if f.DryRun? then f.on else o.dryrun
    ensures Apply(o, f).environment == if f.Env? then f.name else o.environment
    ensures Apply(o, f).tag == if f.TagName? then Some(f.name) else o.tag
    ensures Apply(o, f).upload == o.upload
    ensures Apply(o, f).deploy == if f.Upload? then Some(f.on) else o.deploy
    ensures Apply(o, f).live == if f.Live? then f.on else o.live
  {
  }

  /** Whatever the command line, `:upload` keeps its default true. */
  lemma {:induction false} UploadAlwaysTrue(flags: seq<Flag>)
    ensures Parse(flags).upload
  {
    if flags != [] {
      var init := flags[..|flags| - 1];
      ApplyWrites(Parse(init), flags[|flags| - 1]);
      UploadAlwaysTrue(init);
    }
  }

  /** The upload flag's value lands in `:deploy`: that of the last one given ... */
  lemma {:induction false} DeployIsLastUpload(flags: seq<Flag>, i: nat)
    requires i < |flags| && flags[i].Upload?
    requires forall j :: i < j < |flags| ==> !flags[j].Upload?
    ensures Parse(flags).deploy == Some(flags[i].on)
  {
    var init := flags[..|flags| - 1];
    ApplyWrites(Parse(init), flags[|flags| - 1]);
    if i < |flags| - 1 {
      DeployIsLastUpload(init, i);
    }
  }

  /** ... and nil when there is none. */
  lemma {:induction false} NoUploadFlagNoDeploy(flags: seq<Flag>)
    requires forall j :: 0 <= j < |flags| ==> !flags[j].Upload?
    ensures Parse(flags).deploy.None?
  {
    if flags != [] {
      var init := flags[..|flags| - 1];
      ApplyWrites(Parse(init), flags[|flags| - 1]);
      NoUploadFlagNoDeploy(init);
    }
  }

  /** The environment is that of the last --env flag, and "dev" when there is none. */
  lemma {:induction false} EnvironmentIsLastEnv(flags: seq<Flag>, i: nat)
    requires i < |flags| && flags[i].Env?
    requires forall j :: i < j < |flags| ==> !flags[j].Env?
    ensures Parse(flags).environment == flags[i].name
  {
    var init := flags[..|flags| - 1];
    ApplyWrites(Parse(init), flags[|flags| - 1]);
    if i < |flags| - 1 {
      EnvironmentIsLastEnv(init, i);
    }
  }

  lemma {:induction false} EnvironmentDefaultsToDev(flags: seq<Flag>)
    requires forall j :: 0 <= j < |flags| ==> !flags[j].Env?
    ensures Parse(flags).environment == "dev"
  {
    if flags != [] {
      var init := flags[..|flags| - 1];
      ApplyWrites(Parse(init), flags[|flags| - 1]);
      EnvironmentDefaultsToDev(init);
    }
  }

  /** An explicit tag is the last --tag given, verbatim; without one the tag stays nil. */
  lemma {:induction false} TagIsLastTag(flags: seq<Flag>, i: nat)
    requires i < |flags| && flags[i].TagName?
    requires forall j :: i < j < |flags| ==> !flags[j].TagName?
    ensures Parse(flags).tag == Some(flags[i].name)
  {
    var init := flags[..|flags| - 1];
    ApplyWrites(Parse(init), flags[|flags| - 1]);
    if i < |flags| - 1 {
      TagIsLastTag(init, i);
    }
  }

  lemma {:induction false} NoTagFlagNoTag(flags: seq<Flag>)
    requires forall j :: 0 <= j < |flags| ==> !flags[j].TagName?
    ensures Parse(flags).tag.None?
  {
    if flags != [] {
      var init := flags[..|flags| - 1];
      ApplyWrites(Parse(init), flags[|flags| - 1]);
      NoTagFlagNoTag(init);
    }
  }

  /** Live is the value of the last --[no-]live flag ... */
  lemma {:induction false} LiveIsLastLive(flags: seq<Flag>, i: nat)
    requires i < |flags| && flags[i].Live?
    requires forall j :: i < j < |flags| ==> !flags[j].Live?
    ensures Parse(flags).live == flags[i].on
  {
    var init := flags[..|flags| - 1];
    ApplyWrites(Parse(init), flags[|flags| - 1]);
    if i < |flags| - 1 {
      LiveIsLastLive(init, i);
    }
  }

  /** ... and false when there is none. */
  lemma {:induction false} NoLiveFlagNotLive(flags: seq<Flag>)
    requires forall j :: 0 <= j < |flags| ==> !flags[j].Live?
    ensures !Parse(flags).live
  {
    if flags != [] {
      var init := flags[..|flags| - 1];
      ApplyWrites(Parse(init), flags[|flags| - 1]);
      NoLiveFlagNotLive(init);
    }
  }

  /** A dry run is the value of the last --[no-]dry-run flag ... */
  lemma {:induction false} DryRunIsLastDryRun(flags: seq<Flag>, i: nat)
    requires i < |flags| && flags[i].DryRun?
    requires forall j :: i < j < |flags| ==> !flags[j].DryRun?
    ensures Parse(flags).dryrun == flags[i].on
  {
    var init := flags[..|flags| - 1];
    ApplyWrites(Parse(init), flags[|flags| - 1]);
    if i < |flags| - 1 {
      DryRunIsLastDryRun(init, i);
    }
  }

  /** ... and false when there is none. */
  lemma {:induction false} NoDryRunFlagNoDryRun(flags: seq<Flag>)
    requires forall j :: 0 <= j < |flags| ==> !flags[j].DryRun?
    ensures !Parse(flags).dryrun
  {
    if flags != [] {
      var init := flags[..|flags| - 1];
      ApplyWrites(Parse(init), flags[|flags| - 1]);
      NoDryRunFlagNoDryRun(init);
    }
  }

  /** The clean-tree check is skipped exactly when --allow-dirty was given. */
  lemma {:induction false} DirtyIffAllowDirty(flags: seq<Flag>)
    ensures Parse(flags).dirty <==> AllowDirty in flags
  {
    if flags != [] {
      var init := flags[..|flags| - 1];
      ApplyWrites(Parse(init), flags[|flags| - 1]);
      DirtyIffAllowDirty(init);
      assert flags == init + [flags[|flags| - 1]];
    }
  }
}

/**
 * The deploy workflow of deploy.rb: safety gate, clean-tree gate, reachability probe, tag
 * derivation, tag publication, build URL assembly and build trigger, run in that order with
 * an early exit at the first failure. Every external command is replaced by its scripted
 * result (World), and the run records the external actions it performs (Action).
 */
module Deploy {
  import opened Wrappers
  import opened Text
  import opened Options

  /** The Jenkins job the script talks to. */
  function JenkinsUrl(): string { "https://usw1-jenkins-002.blab.im/job/bebo-capture/" }

  /** The build token embedded in the trigger URL. */
  function Token(): string { "uBC3kFJF" }

  // ---------------------------------------------------------------- inputs and outputs

  /** The broken-down local time that Time.new supplies. */
  datatype LocalTime = LocalTime(year: nat, month: nat, day: nat, hour: nat, minute: nat, second: nat)
  {
    /** What a clock can return (Ruby allows a leap second 60); years beyond 9999 are not covered. */
    predicate Valid()
    {
      year <= 9999 && 1 <= month <= 12 && 1 <= day <= 31 && hour <= 23 && minute <= 59 && second <= 60
    }
  }

  /** The scripted results of the external commands and of the clock. */
  datatype World = World(
    pullOk: bool,          // system("git pull")
    updateIndexOk: bool,   // system("git update-index -q --ignore-submodules --refresh")
    statusOk: bool,        // status.success? of `git status --short`
    statusOutput: string,  // its standard output
    probeResponse: string, // standard output of the curl probe (its --write-out %{http_code})
    branchOutput: string,  // standard output of `git rev-parse --abbrev-ref HEAD`
    now: LocalTime,        // Time.new
    tagOk: bool,           // system("git tag <tag>")
    pushOk: bool,          // system("git push --tags")
    buildResponse: string) // standard output of the curl build trigger

  /** The external actions, in the order the script can perform them. */
  datatype Action =
    | Pull
    | UpdateIndex
    | Status
    | Probe
    | ReadBranch
    | CreateTag(name: string)
    | PushTags
    | Trigger(url: string)

  function Rank(a: Action): nat
  {
    match a
    case Pull => 0
    case UpdateIndex => 1
    case Status => 2
    case Probe => 3
    case ReadBranch => 4
    case CreateTag(_) => 5
    case PushTags => 6
    case Trigger(_) => 7
  }

  /** Why a run stopped. `raise` and `exit(1)` both end the process with status 1. */
  datatype Failure =
    | LiveProdRefused
    | PullFailed
    | UpdateIndexFailed
    | StatusFailed
    | DirtyTree(changed: string)
    | JenkinsUnreachable(response: string)
    | TagFailed(tag: string)
    | PushFailed
    | BuildFailed(response: string)

  /**
   * The end of a run. On success, the tag and the assembled build URL, and the value of
   * `current_branch` that verbose output shows (nil when an explicit tag was given).
   */
  datatype Outcome =
    | Completed(tag: string, url: string, currentBranch: Option<string>)
    | Abort(reason: Failure)

  function ExitCode(outcome: Outcome): nat
  {
    if outcome.Completed? then 0 else 1
  }

  // ---------------------------------------------------------------- gates

  /** Live production releases need manual certificate signing, so the script refuses them. */
  predicate LiveProd(o: Options) { o.live && o.environment == "prod" }

  predicate CleanTree(w: World)
  {
    w.pullOk && w.updateIndexOk && w.statusOk && w.statusOutput == ""
  }

  /** The probe is compared as text with "200", exactly. */
  predicate Reachable(w: World) { w.probeResponse == "200" }

  /** Every check before tag derivation passes. */
  predicate ChecksPass(o: Options, w: World)
  {
    !LiveProd(o) && (o.dirty || CleanTree(w)) && Reachable(w)
  }

  predicate BuildAccepted(response: string) { response == "200" || response == "201" }

  // ---------------------------------------------------------------- tag

  /** strftime("%Y%m%d%H%M%S"). */
  function Stamp(t: LocalTime): string
  {
    Pad(t.year, 4) + Pad(t.month, 2) + Pad(t.day, 2) + Pad(t.hour, 2) + Pad(t.minute, 2) + Pad(t.second, 2)
  }

  /** Reads a 14-digit stamp back into its fields. */
  function ParseStamp(s: string): LocalTime
    requires |s| == 14
  {
    LocalTime(Value(s[0..4]), Value(s[4..6]), Value(s[6..8]), Value(s[8..10]), Value(s[10..12]), Value(s[12..14]))
  }

  /** Six fields of widths 4, 2, 2, 2, 2, 2 laid end to end are read back one by one. */
  lemma ParseLaidOut(y: string, mo: string, d: string, h: string, mi: string, s: string)
    requires |y| == 4 && |mo| == 2 && |d| == 2 && |h| == 2 && |mi| == 2 && |s| == 2
    ensures |y + mo + d + h + mi + s| == 14
    ensures ParseStamp(y + mo + d + h + mi + s) == LocalTime(Value(y), Value(mo), Value(d), Value(h), Value(mi), Value(s))
  {
    var t := y + mo + d + h + mi + s;
    assert t[0..4] == y && t[4..6] == mo && t[6..8] == d;
    assert t[8..10] == h && t[10..12] == mi && t[12..14] == s;
  }

  lemma DigitsLaidOut(y: string, mo: string, d: string, h: string, mi: string, s: string)
    requires AllDigits(y) && AllDigits(mo) && AllDigits(d) && AllDigits(h) && AllDigits(mi) && AllDigits(s)
    ensures AllDigits(y + mo + d + h + mi + s)
  {
    DigitsConcat(y, mo);
    DigitsConcat(y + mo, d);
    DigitsConcat(y + mo + d, h);
    DigitsConcat(y + mo + d + h, mi);
    DigitsConcat(y + mo + d + h + mi, s);
  }

  /** For every valid time the stamp is fourteen digits that read back as that time. */
  lemma StampReadsBack(t: LocalTime)
    requires t.Valid()
    ensures |Stamp(t)| == 14 && AllDigits(Stamp(t))
    ensures ParseStamp(Stamp(t)) == t
  {
    assert Pow10(2) == 100;
    assert Pow10(4) == 10000;
    PadReadsBack(t.year, 4);
    PadReadsBack(t.month, 2);
    PadReadsBack(t.day, 2);
    PadReadsBack(t.hour, 2);
    PadReadsBack(t.minute, 2);
    PadReadsBack(t.second, 2);
    ParseLaidOut(Pad(t.year, 4), Pad(t.month, 2), Pad(t.day, 2), Pad(t.hour, 2), Pad(t.minute, 2), Pad(t.second, 2));
    DigitsLaidOut(Pad(t.year, 4), Pad(t.month, 2), Pad(t.day, 2), Pad(t.hour, 2), Pad(t.minute, 2), Pad(t.second, 2));
  }

  /** The tag: the explicit one, or the chomped branch name, a dash and the stamp of the local time. */
  function DeriveTag(explicit: Option<string>, branchOutput: string, now: LocalTime): string
  {
    match explicit
    case Some(t) => t
    case None => Chomp(branchOutput) + "-" + Stamp(now)
  }

  /** Where the parts of a dash-joined text lie. */
  lemma DashJoined(a: string, b: string)
    ensures var t := a + "-" + b;
      |t| == |a| + 1 + |b| && t[..|a|] == a && t[|a|] == '-' && t[|a| + 1..] == b
  {
  }

  /**
   * Without an explicit tag and with git printing the branch name on one line, the tag is
   * that name, a dash, and fourteen digits that read back as the supplied time.
   */
  lemma DerivedTagReadsBack(branch: string, now: LocalTime)
    requires |branch| == 0 || (branch[|branch| - 1] != '\r' && branch[|branch| - 1] != '\n')
    requires now.Valid()
    ensures var tag := DeriveTag(None, branch + "\n", now);
      |tag| == |branch| + 15 && tag[..|branch|] == branch && tag[|branch|] == '-' &&
      AllDigits(tag[|branch| + 1..]) && ParseStamp(tag[|branch| + 1..]) == now
  {
    ChompLine(branch);
    StampReadsBack(now);
    DashJoined(branch, Stamp(now));
  }

  /** An explicit tag is used verbatim, whatever the branch and the clock say. */
  lemma ExplicitTagVerbatim(t: string, branchOutput: string, now: LocalTime)
    ensures DeriveTag(Some(t), branchOutput, now) == t
  {
  }

  // ---------------------------------------------------------------- build URL

  /** Ruby's to_s of a boolean. */
  function BoolText(b: bool): string { if b then "true" else "false" }

  /** The job's parameterised-build endpoint. */
  function Endpoint(): string { JenkinsUrl() + "buildWithParameters" }

  /** One query parameter, `name=value`; no parameter is URL-encoded. */
  function Param(name: string, value: string): string { name + "=" + value }

  /** The parameter appended with `+=` for a live release; the interpolated value is then "true". */
  function LiveParam(live: bool): string { if live then "&" + Param("LIVE", BoolText(live)) else "" }

  /**
   * The build trigger URL as the script assembles it: the endpoint, then token, ENV, TAG and
   * UPLOAD, then LIVE when the release is live.
   */
  function BuildUrl(environment: string, tag: string, upload: bool, live: bool): string
  {
    Endpoint() + "?" + Param("token", Token()) + "&" + Param("ENV", environment) + "&" + Param("TAG", tag) +
    "&" + Param("UPLOAD", BoolText(upload)) + LiveParam(live)
  }

  /** The query fields of the build URL, in order. */
  function QueryFields(environment: string, tag: string, upload: bool, live: bool): seq<string>
  {
    [Param("token", Token()), Param("ENV", environment), Param("TAG", tag), Param("UPLOAD", BoolText(upload))] +
    (if live then [Param("LIVE", BoolText(live))] else [])
  }

  /** The parameters of a query string: its '&'-separated fields, each cut at its first '='. */
  function QueryParams(query: string): seq<(string, string)>
  {
    var fields := Fields(query, '&');
    seq(|fields|, i requires 0 <= i < |fields| => Cut(fields[i], '='))
  }

  /** The name/value pairs the build URL is meant to carry. */
  function ExpectedParams(environment: string, tag: string, upload: bool, live: bool): seq<(string, string)>
  {
    [("token", Token()), ("ENV", environment), ("TAG", tag), ("UPLOAD", BoolText(upload))] +
    (if live then [("LIVE", "true")] else [])
  }

  lemma LayoutFour(base: string, a: string, b: string, c: string, d: string)
    ensures base + "?" + a + "&" + b + "&" + c + "&" + d == base + "?" + Join([a, b, c, d], '&')
  {
    var f := [a, b, c, d];
    JoinCons(c, [d], '&');
    assert f[2..] == [c, d];
    JoinCons(b, f[2..], '&');
    assert f[1..] == [b] + f[2..];
    JoinCons(a, f[1..], '&');
    assert f == [a] + f[1..];
  }

  lemma LayoutFive(base: string, a: string, b: string, c: string, d: string, e: string)
    ensures base + "?" + a + "&" + b + "&" + c + "&" + d + ("&" + e) == base + "?" + Join([a, b, c, d, e], '&')
  {
    var f := [a, b, c, d, e];
    JoinCons(d, [e], '&');
    assert f[3..] == [d, e];
    JoinCons(c, f[3..], '&');
    assert f[2..] == [c] + f[3..];
    JoinCons(b, f[2..], '&');
    assert f[1..] == [b] + f[2..];
    JoinCons(a, f[1..], '&');
    assert f == [a] + f[1..];
  }

  /** The build URL is the endpoint, a '?', and its query fields joined with '&'. */
  lemma UrlLayout(environment: string, tag: string, upload: bool, live: bool)
    ensures BuildUrl(environment, tag, upload, live) ==
      Endpoint() + "?" + Join(QueryFields(environment, tag, upload, live), '&')
  {
    var a, b, c, d := Param("token", Token()), Param("ENV", environment), Param("TAG", tag), Param("UPLOAD", BoolText(upload));
    if live {
      var e := Param("LIVE", BoolText(live));
      assert QueryFields(environment, tag, upload, live) == [a, b, c, d, e];
      LayoutFive(Endpoint(), a, b, c, d, e);
    } else {
      var x := Endpoint() + "?" + a + "&" + b + "&" + c + "&" + d;
      assert x + LiveParam(live) == x;
      assert QueryFields(environment, tag, upload, live) == [a, b, c, d];
      LayoutFour(Endpoint(), a, b, c, d);
    }
  }

  lemma AfterQuestionMark(base: string, query: string)
    ensures var url := base + "?" + query;
      |url| > |base| && url[..|base| + 1] == base + "?" && url[|base| + 1..] == query
  {
  }

  lemma ParamCut(name: string, value: string)
    requires '=' !in name
    ensures Cut(Param(name, value), '=') == (name, value)
  {
    CutAtFirst(name, value, '=');
  }

  lemma ParamHasNoAmp(name: string, value: string)
    requires '&' !in name && '&' !in value
    ensures '&' !in Param(name, value)
  {
  }

  /** No fixed name or value of the query holds a separator. */
  lemma NamesArePlain()
    ensures '=' !in "token" && '=' !in "ENV" && '=' !in "TAG" && '=' !in "UPLOAD" && '=' !in "LIVE"
    ensures '&' !in "token" && '&' !in "ENV" && '&' !in "TAG" && '&' !in "UPLOAD" && '&' !in "LIVE"
    ensures '&' !in Token() && '&' !in BoolText(true) && '&' !in BoolText(false)
  {
  }

  /** Each query field is free of '&' and cuts into its name and value. */
  lemma QueryFieldsRead(environment: string, tag: string, upload: bool, live: bool)
    requires '&' !in environment && '&' !in tag
    ensures var f := QueryFields(environment, tag, upload, live);
      var e := ExpectedParams(environment, tag, upload, live);
      |f| == |e| && forall i :: 0 <= i < |f| ==> '&' !in f[i] && Cut(f[i], '=') == e[i]
  {
    NamesArePlain();
    var f := QueryFields(environment, tag, upload, live);
    var e := ExpectedParams(environment, tag, upload, live);
    forall i | 0 <= i < |f|
      ensures '&' !in f[i] && Cut(f[i], '=') == e[i]
    {
      assert f[i] == Param(e[i].0, e[i].1);
      ParamCut(e[i].0, e[i].1);
      ParamHasNoAmp(e[i].0, e[i].1);
    }
  }

  /**
   * The URL is the endpoint and a '?', and read back as a query string the rest carries token,
   * ENV, TAG and UPLOAD in that order, then LIVE=true exactly when live is set, provided
   * neither the environment nor the tag holds an '&'.
   */
  lemma UrlReadsBack(environment: string, tag: string, upload: bool, live: bool)
    requires '&' !in environment && '&' !in tag
    ensures var url := BuildUrl(environment, tag, upload, live); var n := |Endpoint()| + 1;
      |url| >= n && url[..n] == Endpoint() + "?" &&
      QueryParams(url[n..]) == ExpectedParams(environment, tag, upload, live)
  {
    var f := QueryFields(environment, tag, upload, live);
    UrlLayout(environment, tag, upload, live);
    AfterQuestionMark(Endpoint(), Join(f, '&'));
    QueryFieldsRead(environment, tag, upload, live);
    FieldsOfJoin(f, '&');
  }

  lemma LiveParamText()
    ensures LiveParam(true) == "&LIVE=true"
  {
    assert Param("LIVE", "true") == "LIVE=true";
  }

  /** The URL ends in "&LIVE=true" if and only if live is set, whatever the other parameters. */
  lemma LiveSuffixIffLive(environment: string, tag: string, upload: bool, live: bool)
    ensures var url := BuildUrl(environment, tag, upload, live);
      (|url| >= 10 && url[|url| - 10..] == "&LIVE=true") <==> live
  {
    var url := BuildUrl(environment, tag, upload, live);
    var last := Param("UPLOAD", BoolText(upload));
    var y := Endpoint() + "?" + Param("token", Token()) + "&" + Param("ENV", environment) + "&" + Param("TAG", tag) + "&";
    assert url == (y + last) + LiveParam(live);
    if live {
      LiveParamText();
      EndOf(y + last, LiveParam(live));
    } else {
      assert url == y + last;
      EndOf(y, last);
      assert last[|last| - 10] != '&';
    }
  }

  /** An upload value of true is rendered as the text UPLOAD=true. */
  lemma UploadTrueText(environment: string, tag: string, live: bool)
    ensures BuildUrl(environment, tag, true, live) ==
      Endpoint() + "?" + Param("token", Token()) + "&" + Param("ENV", environment) + "&" + Param("TAG", tag) +
      "&" + "UPLOAD=true" + LiveParam(live)
  {
    assert Param("UPLOAD", BoolText(true)) == "UPLOAD=true";
  }

  /**
   * For every command line, the trigger URL passes UPLOAD=true: the upload flag never reaches
   * it. When neither the environment nor the tag holds an '&', that is also the fourth
   * parameter the query reads back as.
   */
  lemma ParsedUrlUploadsTrue(flags: seq<Flag>, tag: string)
    ensures var o := Parse(flags);
      BuildUrl(o.environment, tag, o.upload, o.live) ==
        Endpoint() + "?" + Param("token", Token()) + "&" + Param("ENV", o.environment) + "&" + Param("TAG", tag) +
        "&" + "UPLOAD=true" + LiveParam(o.live)
    ensures var o := Parse(flags); var url := BuildUrl(o.environment, tag, o.upload, o.live); var n := |Endpoint()| + 1;
      '&' !in o.environment && '&' !in tag ==>
        |url| >= n && |QueryParams(url[n..])| >= 4 && QueryParams(url[n..])[3] == ("UPLOAD", "true")
  {
    var o := Parse(flags);
    UploadAlwaysTrue(flags);
    UploadTrueText(o.environment, tag, o.live);
    if '&' !in o.environment && '&' !in tag {
      UrlReadsBack(o.environment, tag, o.upload, o.live);
    }
  }

  // ---------------------------------------------------------------- what a run does

  function TagOf(o: Options, w: World): string { DeriveTag(o.tag, w.branchOutput, w.now) }

  function UrlOf(o: Options, w: World): string { BuildUrl(o.environment, TagOf(o, w), o.upload, o.live) }

  /** Whether the result of an action ends the run. */
  predicate Stops(a: Action, w: World)
  {
    match a
    case Pull => !w.pullOk
    case UpdateIndex => !w.updateIndexOk
    case Status => !w.statusOk || w.statusOutput != ""
    case Probe => !Reachable(w)
    case ReadBranch => false
    case CreateTag(_) => !w.tagOk
    case PushTags => !w.pushOk
    case Trigger(_) => !BuildAccepted(w.buildResponse)
  }

  /** The failure reported by an action that ends the run. */
  function Why(a: Action, w: World): Failure
  {
    match a
    case Pull => PullFailed
    case UpdateIndex => UpdateIndexFailed
    case Status => if !w.statusOk then StatusFailed else DirtyTree(w.statusOutput)
    case Probe => JenkinsUnreachable(w.probeResponse)
    case CreateTag(t) => TagFailed(t)
    case PushTags => PushFailed
    case Trigger(_) => BuildFailed(w.buildResponse)
    // Stops(ReadBranch, w) is always false, so no attempt ever reports this value. It is the
    // safety gate's refusal, the one failure no action causes, so it cannot pass for a real one.
    case ReadBranch => LiveProdRefused
  }

  /** The actions performed when some steps are attempted, and the failure that ended them, if any. */
  datatype Step = Step(trace: seq<Action>, failure: Option<Failure>)

  /** Attempting a plan performs its actions in order and stops right after the first one that fails. */
  function Attempt(plan: seq<Action>, w: World): Step
  {
    if plan == [] then Step([], None)
    else if Stops(plan[0], w) then Step([plan[0]], Some(Why(plan[0], w)))
    else
      var rest := Attempt(plan[1..], w);
      Step([plan[0]] + rest.trace, rest.failure)
  }

  /** No action of a plan ends the run. */
  predicate Passes(plan: seq<Action>, w: World)
  {
    forall i :: 0 <= i < |plan| ==> !Stops(plan[i], w)
  }

  /** The actions performed are a prefix of the plan, all of it when nothing fails. */
  lemma {:induction false} AttemptPrefix(plan: seq<Action>, w: World)
    ensures var r := Attempt(plan, w);
      |r.trace| <= |plan| && r.trace == plan[..|r.trace|] &&
      (r.failure.None? ==> r.trace == plan) && (r.failure.Some? ==> |r.trace| >= 1)
  {
    if plan != [] && !Stops(plan[0], w) {
      AttemptPrefix(plan[1..], w);
    }
  }

  /**
   * An attempt fails exactly when some action of the plan fails, and then with the failure of
   * the last action it performed, which is the first failing one.
   */
  lemma {:induction false} AttemptFailure(plan: seq<Action>, w: World)
    ensures var r := Attempt(plan, w);
      (r.failure.None? <==> Passes(plan, w)) &&
      (r.failure.Some? ==>
        |r.trace| >= 1 && Stops(r.trace[|r.trace| - 1], w) && r.failure.value == Why(r.trace[|r.trace| - 1], w) &&
        Passes(r.trace[..|r.trace| - 1], w))
  {
    if plan != [] && !Stops(plan[0], w) {
      AttemptFailure(plan[1..], w);
      var r := Attempt(plan[1..], w);
      assert forall i :: 1 <= i < |plan| ==> plan[i] == plan[1..][i - 1];
      if r.failure.Some? {
        var t := [plan[0]] + r.trace;
        assert t[..|t| - 1] == [plan[0]] + r.trace[..|r.trace| - 1];
      }
    }
  }

  /** One step of an attempt. */
  lemma AttemptCons(a: Action, rest: seq<Action>, w: World)
    ensures Attempt([a] + rest, w) ==
      if Stops(a, w) then Step([a], Some(Why(a, w)))
      else Step([a] + Attempt(rest, w).trace, Attempt(rest, w).failure)
  {
    assert ([a] + rest)[0] == a && ([a] + rest)[1..] == rest;
  }

  /** Once a part of the plan fails, nothing after it is attempted. */
  lemma {:induction false} AttemptStopped(a: seq<Action>, b: seq<Action>, w: World)
    requires Attempt(a, w).failure.Some?
    ensures Attempt(a + b, w) == Attempt(a, w)
  {
    assert a != [];
    if !Stops(a[0], w) {
      assert (a + b)[1..] == a[1..] + b;
      AttemptStopped(a[1..], b, w);
    }
  }

  /** When a part of the plan goes through, the rest of the plan is attempted after it. */
  lemma {:induction false} AttemptContinues(a: seq<Action>, b: seq<Action>, w: World)
    requires Attempt(a, w).failure.None?
    ensures Attempt(a + b, w) == Step(a + Attempt(b, w).trace, Attempt(b, w).failure)
  {
    if a == [] {
      assert a + b == b;
    } else {
      assert (a + b)[1..] == a[1..] + b;
      AttemptContinues(a[1..], b, w);
      assert [a[0]] + (a[1..] + Attempt(b, w).trace) == a + Attempt(b, w).trace;
    }
  }

  /** The value of `current_branch` at the end of a run: nil when an explicit tag was given. */
  function BranchOf(o: Options, w: World): Option<string>
  {
    if o.tag.None? then Some(Chomp(w.branchOutput)) else None
  }

  function CleanPlan(o: Options): seq<Action> { if o.dirty then [] else [Pull, UpdateIndex, Status] }

  function TagPlan(o: Options): seq<Action> { if o.tag.None? then [ReadBranch] else [] }

  function PublishPlan(o: Options, tag: string): seq<Action>
  {
    if o.dryrun then [] else [CreateTag(tag), PushTags]
  }

  function TriggerPlan(o: Options, url: string): seq<Action>
  {
    if o.dryrun then [] else [Trigger(url)]
  }

  function AfterProbe(o: Options, tag: string, url: string): seq<Action>
  {
    TagPlan(o) + (PublishPlan(o, tag) + TriggerPlan(o, url))
  }

  /** The external actions of a run past the safety gate in which nothing fails. */
  function Plan(o: Options, tag: string, url: string): seq<Action>
  {
    CleanPlan(o) + ([Probe] + AfterProbe(o, tag, url))
  }

  datatype Behaviour = Behaviour(trace: seq<Action>, outcome: Outcome)

  /** How an attempt ends a run: with its failure, or with the tag, the URL and the branch read. */
  function Finish(s: Step, tag: string, url: string, branch: Option<string>): Behaviour
  {
    if s.failure.Some? then Behaviour(s.trace, Abort(s.failure.value))
    else Behaviour(s.trace, Completed(tag, url, branch))
  }

  /**
   * What a run does past the safety gate, for a given tag, URL and branch: it attempts the
   * plan and ends in the failure that stopped it or, when nothing failed, with those three.
   */
  function Proceed(o: Options, w: World, tag: string, url: string, branch: Option<string>): Behaviour
  {
    Finish(Attempt(Plan(o, tag, url), w), tag, url, branch)
  }

  /**
   * What a run does: nothing at all when the safety gate refuses; otherwise it proceeds with
   * the tag it derives, the URL it assembles and the branch it reads.
   */
  function Expected(o: Options, w: World): Behaviour
  {
    if LiveProd(o) then Behaviour([], Abort(LiveProdRefused))
    else Proceed(o, w, TagOf(o, w), UrlOf(o, w), BranchOf(o, w))
  }

  /** A part of the plan that goes through is a prefix of the behaviour of the whole. */
  lemma FinishAfter(a: seq<Action>, b: seq<Action>, w: World, tag: string, url: string, branch: Option<string>)
    requires Attempt(a, w).failure.None?
    ensures var f := Finish(Attempt(b, w), tag, url, branch);
      Finish(Attempt(a + b, w), tag, url, branch) == Behaviour(a + f.trace, f.outcome)
  {
    AttemptContinues(a, b, w);
  }

  /** A part of the plan that fails decides the behaviour of the whole. */
  lemma FinishStopped(a: seq<Action>, b: seq<Action>, w: World, tag: string, url: string, branch: Option<string>)
    requires Attempt(a, w).failure.Some?
    ensures Finish(Attempt(a + b, w), tag, url, branch) ==
      Behaviour(Attempt(a, w).trace, Abort(Attempt(a, w).failure.value))
  {
    AttemptStopped(a, b, w);
  }

  // ---------------------------------------------------------------- the workflow

  /** require_clean_work_tree: pull, refresh the index, then insist on an empty `git status --short`. */
  method RequireCleanWorkTree(w: World) returns (trace: seq<Action>, failure: Option<Failure>)
    ensures 1 <= |trace| <= 3 && trace == [Pull, UpdateIndex, Status][..|trace|]
    ensures |trace| >= 2 <==> w.pullOk
    ensures |trace| == 3 <==> w.pullOk && w.updateIndexOk
    ensures failure.None? <==> CleanTree(w)
    ensures failure.None? ==> trace == [Pull, UpdateIndex, Status]
    ensures failure == Some(PullFailed) <==> !w.pullOk
    ensures failure == Some(UpdateIndexFailed) <==> w.pullOk && !w.updateIndexOk
    ensures failure == Some(StatusFailed) <==> w.pullOk && w.updateIndexOk && !w.statusOk
    ensures failure == Some(DirtyTree(w.statusOutput)) <==>
      w.pullOk && w.updateIndexOk && w.statusOk && w.statusOutput != ""
    ensures Step(trace, failure) == Attempt([Pull, UpdateIndex, Status], w)
  {
    AttemptCons(Pull, [UpdateIndex, Status], w);
    AttemptCons(UpdateIndex, [Status], w);
    AttemptCons(Status, [], w);
    trace := [Pull];
    if !w.pullOk {
      return trace, Some(PullFailed);
    }
    trace := trace + [UpdateIndex];
    if !w.updateIndexOk {
      return trace, Some(UpdateIndexFailed);
    }
    trace := trace + [Status];
    if !w.statusOk {
      return trace, Some(StatusFailed);
    }
    if w.statusOutput != "" {
      return trace, Some(DirtyTree(w.statusOutput));
    }
    failure := None;
  }

  /** `git tag <tag>`, then `git push --tags`; each raises when it fails. */
  method PublishTag(newTag: string, w: World) returns (trace: seq<Action>, failure: Option<Failure>)
    ensures failure.None? ==> trace == [CreateTag(newTag), PushTags]
    ensures Step(trace, failure) == Attempt([CreateTag(newTag), PushTags], w)
  {
    AttemptCons(CreateTag(newTag), [PushTags], w);
    AttemptCons(PushTags, [], w);
    trace := [CreateTag(newTag)];
    if !w.tagOk {
      return trace, Some(TagFailed(newTag));
    }
    trace := trace + [PushTags];
    if !w.pushOk {
      return trace, Some(PushFailed);
    }
    failure := None;
  }

  /** The tag of the run and the actions taken to find it. */
  method GenerateTag(o: Options, w: World) returns (newTag: string, currentBranch: Option<string>, trace: seq<Action>)
    ensures newTag == TagOf(o, w) && trace == TagPlan(o) && currentBranch == BranchOf(o, w)
  {
    newTag := "";
    currentBranch := None;
    trace := [];
    if o.tag.None? {
      trace := [ReadBranch];
      currentBranch := Some(Chomp(w.branchOutput));
      newTag := currentBranch.value + "-" + Stamp(w.now);
    } else {
      newTag := o.tag.value;
    }
  }

  /** The build trigger URL, grown with `+=` when the release is live. */
  method AssembleUrl(o: Options, newTag: string) returns (url: string)
    ensures url == BuildUrl(o.environment, newTag, o.upload, o.live)
  {
    url := Endpoint() + "?" + Param("token", Token()) + "&" + Param("ENV", o.environment) + "&" + Param("TAG", newTag) +
      "&" + Param("UPLOAD", BoolText(o.upload));
    if o.live {
      url := url + "&" + Param("LIVE", BoolText(o.live));
    }
  }

  /** The trigger request, judged by the text curl prints. */
  method TriggerBuild(url: string, w: World) returns (trace: seq<Action>, failure: Option<Failure>)
    ensures Step(trace, failure) == Attempt([Trigger(url)], w)
  {
    AttemptCons(Trigger(url), [], w);
    trace := [Trigger(url)];
    failure := None;
    if !(w.buildResponse == "200" || w.buildResponse == "201") {
      failure := Some(BuildFailed(w.buildResponse));
    }
  }

  /** Reading the branch never stops a run. */
  lemma TagPlanPasses(o: Options, w: World)
    ensures Attempt(TagPlan(o), w) == Step(TagPlan(o), None)
  {
    if o.tag.None? {
      AttemptCons(ReadBranch, [], w);
    }
  }

  /** The build trigger URL is assembled and, unless this is a dry run, requested. */
  method TriggerPhase(o: Options, w: World, newTag: string, ghost url: string, currentBranch: Option<string>)
    returns (trace: seq<Action>, outcome: Outcome)
    requires url == BuildUrl(o.environment, newTag, o.upload, o.live)
    ensures Behaviour(trace, outcome) == Finish(Attempt(TriggerPlan(o, url), w), newTag, url, currentBranch)
  {
    var jenkinsBuildUrl := AssembleUrl(o, newTag);
    trace := [];
    outcome := Completed(newTag, jenkinsBuildUrl, currentBranch);
    if !o.dryrun {
      var failure;
      trace, failure := TriggerBuild(jenkinsBuildUrl, w);
      if failure.Some? {
        outcome := Abort(failure.value);
      }
    }
  }

  /** Unless this is a dry run, the tag is created and pushed; then the trigger phase. */
  method PublishPhase(o: Options, w: World, newTag: string, ghost url: string, currentBranch: Option<string>)
    returns (trace: seq<Action>, outcome: Outcome)
    requires url == BuildUrl(o.environment, newTag, o.upload, o.live)
    ensures Behaviour(trace, outcome) ==
      Finish(Attempt(PublishPlan(o, newTag) + TriggerPlan(o, url), w), newTag, url, currentBranch)
  {
    trace := [];
    if !o.dryrun {
      var failure;
      trace, failure := PublishTag(newTag, w);
      if failure.Some? {
        FinishStopped(PublishPlan(o, newTag), TriggerPlan(o, url), w, newTag, url, currentBranch);
        return trace, Abort(failure.value);
      }
    }
    FinishAfter(PublishPlan(o, newTag), TriggerPlan(o, url), w, newTag, url, currentBranch);
    var rest;
    rest, outcome := TriggerPhase(o, w, newTag, url, currentBranch);
    trace := trace + rest;
  }

  /** Everything after the probe: the tag, its publication, the URL and the trigger. */
  method BuildPhase(o: Options, w: World, ghost tag: string, ghost url: string, ghost branch: Option<string>)
    returns (trace: seq<Action>, outcome: Outcome)
    requires tag == TagOf(o, w) && url == UrlOf(o, w) && branch == BranchOf(o, w)
    ensures Behaviour(trace, outcome) == Finish(Attempt(AfterProbe(o, tag, url), w), tag, url, branch)
  {
    var newTag, currentBranch, read := GenerateTag(o, w);
    TagPlanPasses(o, w);
    FinishAfter(read, PublishPlan(o, newTag) + TriggerPlan(o, url), w, newTag, url, currentBranch);
    var rest;
    rest, outcome := PublishPhase(o, w, newTag, url, currentBranch);
    trace := read + rest;
  }

  /** The reachability probe, then the rest of the run. */
  method ProbePhase(o: Options, w: World, ghost tag: string, ghost url: string, ghost branch: Option<string>)
    returns (trace: seq<Action>, outcome: Outcome)
    requires tag == TagOf(o, w) && url == UrlOf(o, w) && branch == BranchOf(o, w)
    ensures Behaviour(trace, outcome) == Finish(Attempt([Probe] + AfterProbe(o, tag, url), w), tag, url, branch)
  {
    AttemptCons(Probe, AfterProbe(o, tag, url), w);
    if w.probeResponse != "200" {
      return [Probe], Abort(JenkinsUnreachable(w.probeResponse));
    }
    var rest;
    rest, outcome := BuildPhase(o, w, tag, url, branch);
    trace := [Probe] + rest;
  }

  /** The script past the safety gate: the clean-tree gate unless allowed dirty, then the probe. */
  method ProceedPhase(o: Options, w: World, ghost tag: string, ghost url: string, ghost branch: Option<string>)
    returns (trace: seq<Action>, outcome: Outcome)
    requires tag == TagOf(o, w) && url == UrlOf(o, w) && branch == BranchOf(o, w)
    ensures Behaviour(trace, outcome) == Proceed(o, w, tag, url, branch)
  {
    ghost var afterClean := [Probe] + AfterProbe(o, tag, url);
    trace := [];
    if !o.dirty {
      var failure;
      trace, failure := RequireCleanWorkTree(w);
      if failure.Some? {
        FinishStopped(CleanPlan(o), afterClean, w, tag, url, branch);
        return trace, Abort(failure.value);
      }
    }
    FinishAfter(CleanPlan(o), afterClean, w, tag, url, branch);
    var rest;
    rest, outcome := ProbePhase(o, w, tag, url, branch);
    trace := trace + rest;
  }

  /** The top-level script, from the parsed options to its exit. */
  method Run(o: Options, w: World) returns (trace: seq<Action>, outcome: Outcome)
    ensures Behaviour(trace, outcome) == Expected(o, w)
  {
    if o.live && o.environment == "prod" {
      return [], Abort(LiveProdRefused);
    }
    trace, outcome := ProceedPhase(o, w, TagOf(o, w), UrlOf(o, w), BranchOf(o, w));
  }
}

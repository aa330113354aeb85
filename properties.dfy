/**
 * What every run of deploy.rb does, stated about the specification of a run (Deploy.Expected),
 * which Deploy.Run is proved to implement: the order of the gates, the early exits, the dry
 * run, the tag publication and the build trigger.
 *
 * Most facts are first proved about Deploy.Proceed, the behaviour of a run past the safety
 * gate for any tag, URL and branch, and then carried over to Expected, where those are the
 * ones the run derives.
 */
module DeployProperties {
  import opened Wrappers
  import opened Options
  import opened Deploy

  // ---------------------------------------------------------------- plans

  /** The actions come in strictly increasing rank, so none is repeated and none comes back. */
  predicate Ordered(trace: seq<Action>)
  {
    forall i, j :: 0 <= i < j < |trace| ==> Rank(trace[i]) < Rank(trace[j])
  }

  /** All ranks of a plan lie in [lo, hi). */
  predicate RanksWithin(plan: seq<Action>, lo: nat, hi: nat)
  {
    forall i :: 0 <= i < |plan| ==> lo <= Rank(plan[i]) < hi
  }

  lemma PassesConcat(a: seq<Action>, b: seq<Action>, w: World)
    ensures Passes(a + b, w) <==> Passes(a, w) && Passes(b, w)
  {
    if Passes(a, w) && Passes(b, w) {
      forall i | 0 <= i < |a + b|
        ensures !Stops((a + b)[i], w)
      {
        if i >= |a| {
          assert (a + b)[i] == b[i - |a|];
        } else {
          assert (a + b)[i] == a[i];
        }
      }
    }
    if Passes(a + b, w) {
      forall i | 0 <= i < |a|
        ensures !Stops(a[i], w)
      {
        assert (a + b)[i] == a[i];
      }
      forall j | 0 <= j < |b|
        ensures !Stops(b[j], w)
      {
        assert (a + b)[|a| + j] == b[j];
      }
    }
  }

  lemma PassesOne(a: Action, w: World)
    ensures Passes([a], w) <==> !Stops(a, w)
  {
    assert [a][0] == a;
  }

  lemma OrderedConcat(a: seq<Action>, b: seq<Action>, lo: nat, mid: nat, hi: nat)
    requires lo <= mid <= hi
    requires Ordered(a) && Ordered(b) && RanksWithin(a, lo, mid) && RanksWithin(b, mid, hi)
    ensures Ordered(a + b) && RanksWithin(a + b, lo, hi)
  {
    forall i, j | 0 <= i < j < |a + b|
      ensures Rank((a + b)[i]) < Rank((a + b)[j])
    {
      if j < |a| {
        assert (a + b)[i] == a[i] && (a + b)[j] == a[j];
      } else if i < |a| {
        assert (a + b)[i] == a[i] && (a + b)[j] == b[j - |a|];
      } else {
        assert (a + b)[i] == b[i - |a|] && (a + b)[j] == b[j - |a|];
      }
    }
    forall i | 0 <= i < |a + b|
      ensures lo <= Rank((a + b)[i]) < hi
    {
      if i < |a| {
        assert (a + b)[i] == a[i];
      } else {
        assert (a + b)[i] == b[i - |a|];
      }
    }
  }

  lemma PrefixKeeps(t: seq<Action>, plan: seq<Action>, lo: nat, hi: nat)
    requires |t| <= |plan| && t == plan[..|t|]
    ensures Ordered(plan) ==> Ordered(t)
    ensures RanksWithin(plan, lo, hi) ==> RanksWithin(t, lo, hi)
  {
    assert forall i :: 0 <= i < |t| ==> t[i] == plan[i];
  }

  lemma Regroup(a: seq<Action>, b: seq<Action>, c: seq<Action>, d: seq<Action>)
    ensures a + (b + (c + d)) == a + b + c + d
  {
  }

  lemma CleanPlanRanks(o: Options)
    ensures Ordered(CleanPlan(o)) && RanksWithin(CleanPlan(o), 0, 3)
  {
  }

  lemma PublishPlanRanks(o: Options, tag: string, url: string)
    ensures Ordered(PublishPlan(o, tag) + TriggerPlan(o, url))
    ensures RanksWithin(PublishPlan(o, tag) + TriggerPlan(o, url), 5, 8)
  {
    if !o.dryrun {
      assert PublishPlan(o, tag) + TriggerPlan(o, url) == [CreateTag(tag), PushTags, Trigger(url)];
    }
  }

  /** The plan of a run, in every configuration, is in rank order; after the probe, ranks exceed its own. */
  lemma PlanOrdered(o: Options, tag: string, url: string)
    ensures Ordered(Plan(o, tag, url))
    ensures RanksWithin(AfterProbe(o, tag, url), 4, 8)
  {
    var rest := PublishPlan(o, tag) + TriggerPlan(o, url);
    PublishPlanRanks(o, tag, url);
    assert Ordered(TagPlan(o)) && RanksWithin(TagPlan(o), 4, 5);
    OrderedConcat(TagPlan(o), rest, 4, 5, 8);
    assert Ordered([Probe]) && RanksWithin([Probe], 3, 4);
    OrderedConcat([Probe], AfterProbe(o, tag, url), 3, 4, 8);
    CleanPlanRanks(o);
    OrderedConcat(CleanPlan(o), [Probe] + AfterProbe(o, tag, url), 0, 3, 8);
  }

  /** With --allow-dirty the plan starts at the probe. */
  lemma DirtyPlanBounds(o: Options, tag: string, url: string)
    requires o.dirty
    ensures RanksWithin(Plan(o, tag, url), 3, 8)
  {
    PlanOrdered(o, tag, url);
    assert Ordered([Probe]) && RanksWithin([Probe], 3, 4);
    OrderedConcat([Probe], AfterProbe(o, tag, url), 3, 4, 8);
    assert Plan(o, tag, url) == [Probe] + AfterProbe(o, tag, url);
  }

  /** On a dry run the plan holds nothing after the branch read. */
  lemma DryRunPlanBounds(o: Options, tag: string, url: string)
    requires o.dryrun
    ensures RanksWithin(Plan(o, tag, url), 0, 5)
  {
    CleanPlanRanks(o);
    assert Ordered(TagPlan(o)) && RanksWithin(TagPlan(o), 4, 5);
    assert AfterProbe(o, tag, url) == TagPlan(o);
    assert Ordered([Probe]) && RanksWithin([Probe], 3, 4);
    OrderedConcat([Probe], TagPlan(o), 3, 4, 5);
    OrderedConcat(CleanPlan(o), [Probe] + TagPlan(o), 0, 3, 5);
  }

  /** Which parts of a plan pass. */
  lemma PlanPasses(o: Options, tag: string, url: string, w: World)
    ensures Passes(CleanPlan(o), w) <==> o.dirty || CleanTree(w)
    ensures Passes([Probe], w) <==> Reachable(w)
    ensures Passes(TagPlan(o), w)
    ensures Passes(PublishPlan(o, tag), w) <==> o.dryrun || (w.tagOk && w.pushOk)
    ensures Passes(TriggerPlan(o, url), w) <==> o.dryrun || BuildAccepted(w.buildResponse)
  {
    PassesOne(Probe, w);
    PassesOne(ReadBranch, w);
    PassesOne(Trigger(url), w);
    if !o.dirty {
      var p := CleanPlan(o);
      assert p[0] == Pull && p[1] == UpdateIndex && p[2] == Status;
    }
    if !o.dryrun {
      var p := PublishPlan(o, tag);
      assert p[0] == CreateTag(tag) && p[1] == PushTags;
    }
  }

  /** The whole plan passes exactly when every gate does. */
  lemma PlanPassesIffGates(o: Options, tag: string, url: string, w: World)
    ensures Passes(Plan(o, tag, url), w) <==>
      (o.dirty || CleanTree(w)) && Reachable(w) && (o.dryrun || (w.tagOk && w.pushOk && BuildAccepted(w.buildResponse)))
  {
    PlanPasses(o, tag, url, w);
    PassesConcat(PublishPlan(o, tag), TriggerPlan(o, url), w);
    PassesConcat(TagPlan(o), PublishPlan(o, tag) + TriggerPlan(o, url), w);
    PassesConcat([Probe], AfterProbe(o, tag, url), w);
    PassesConcat(CleanPlan(o), [Probe] + AfterProbe(o, tag, url), w);
  }

  // ---------------------------------------------------------------- past the safety gate

  lemma ExpectedProceeds(o: Options, w: World)
    requires !LiveProd(o)
    ensures Expected(o, w) == Proceed(o, w, TagOf(o, w), UrlOf(o, w), BranchOf(o, w))
  {
  }

  /** An attempt of an ordered plan performs a prefix of it, in rank order. */
  lemma FinishTrace(plan: seq<Action>, w: World, tag: string, url: string, branch: Option<string>)
    requires Ordered(plan)
    ensures var b := Finish(Attempt(plan, w), tag, url, branch);
      |b.trace| <= |plan| && b.trace == plan[..|b.trace|] && Ordered(b.trace)
  {
    var s := Attempt(plan, w);
    AttemptPrefix(plan, w);
    PrefixKeeps(s.trace, plan, 0, 0);
  }

  /**
   * An attempt aborts exactly when some action of the plan fails, and then with the failure
   * of its last action; otherwise it performs the whole plan.
   */
  lemma FinishOutcome(plan: seq<Action>, w: World, tag: string, url: string, branch: Option<string>)
    ensures var b := Finish(Attempt(plan, w), tag, url, branch);
      (b.outcome.Abort? <==> !Passes(plan, w)) &&
      (b.outcome.Completed? ==> b.trace == plan && b.outcome == Completed(tag, url, branch)) &&
      (b.outcome.Abort? ==> |b.trace| >= 1 && b.outcome.reason == Why(b.trace[|b.trace| - 1], w))
  {
    AttemptPrefix(plan, w);
    AttemptFailure(plan, w);
  }

  /** FinishTrace and FinishOutcome together. */
  lemma FinishFollows(plan: seq<Action>, w: World, tag: string, url: string, branch: Option<string>)
    requires Ordered(plan)
    ensures var b := Finish(Attempt(plan, w), tag, url, branch);
      |b.trace| <= |plan| && b.trace == plan[..|b.trace|] && Ordered(b.trace) &&
      (b.outcome.Abort? <==> !Passes(plan, w)) &&
      (b.outcome.Completed? ==> b.trace == plan && b.outcome == Completed(tag, url, branch)) &&
      (b.outcome.Abort? ==> |b.trace| >= 1 && b.outcome.reason == Why(b.trace[|b.trace| - 1], w))
  {
    FinishTrace(plan, w, tag, url, branch);
    FinishOutcome(plan, w, tag, url, branch);
  }

  /** Past the safety gate, the run performs its plan as far as the first failing action. */
  lemma PastFollowsPlan(o: Options, w: World, tag: string, url: string, branch: Option<string>)
    ensures var b := Proceed(o, w, tag, url, branch); var plan := Plan(o, tag, url);
      |b.trace| <= |plan| && b.trace == plan[..|b.trace|] && Ordered(b.trace) &&
      (b.outcome.Abort? <==> !Passes(plan, w)) &&
      (b.outcome.Completed? ==> b.trace == plan && b.outcome == Completed(tag, url, branch)) &&
      (b.outcome.Abort? ==> |b.trace| >= 1 && b.outcome.reason == Why(b.trace[|b.trace| - 1], w))
  {
    PlanOrdered(o, tag, url);
    FinishFollows(Plan(o, tag, url), w, tag, url, branch);
  }

  lemma PastClean(o: Options, w: World, tag: string, url: string, branch: Option<string>)
    requires o.dirty || CleanTree(w)
    ensures var f := Finish(Attempt([Probe] + AfterProbe(o, tag, url), w), tag, url, branch);
      Proceed(o, w, tag, url, branch) == Behaviour(CleanPlan(o) + f.trace, f.outcome)
  {
    AttemptCons(Pull, [UpdateIndex, Status], w);
    AttemptCons(UpdateIndex, [Status], w);
    AttemptCons(Status, [], w);
    FinishAfter(CleanPlan(o), [Probe] + AfterProbe(o, tag, url), w, tag, url, branch);
  }

  lemma PastReachable(o: Options, w: World, tag: string, url: string, branch: Option<string>)
    requires (o.dirty || CleanTree(w)) && Reachable(w)
    ensures var f := Finish(Attempt(PublishPlan(o, tag) + TriggerPlan(o, url), w), tag, url, branch);
      Proceed(o, w, tag, url, branch) == Behaviour(CleanPlan(o) + [Probe] + TagPlan(o) + f.trace, f.outcome)
  {
    var rest := PublishPlan(o, tag) + TriggerPlan(o, url);
    var f := Finish(Attempt(rest, w), tag, url, branch);
    PastClean(o, w, tag, url, branch);
    AttemptCons(Probe, AfterProbe(o, tag, url), w);
    TagPlanPasses(o, w);
    FinishAfter(TagPlan(o), rest, w, tag, url, branch);
    Regroup(CleanPlan(o), [Probe], TagPlan(o), f.trace);
  }

  // ---------------------------------------------------------------- the safety gate

  /** No action of a plan fails with the safety gate's refusal. */
  lemma {:induction false} AttemptNeverRefused(plan: seq<Action>, w: World)
    ensures Attempt(plan, w).failure != Some(LiveProdRefused)
  {
    if plan != [] && !Stops(plan[0], w) {
      AttemptNeverRefused(plan[1..], w);
    }
  }

  lemma PastNeverRefused(o: Options, w: World, tag: string, url: string, branch: Option<string>)
    ensures Proceed(o, w, tag, url, branch).outcome != Abort(LiveProdRefused)
  {
    AttemptNeverRefused(Plan(o, tag, url), w);
  }

  /** A live production release is refused before any action; no other failure is reported as that. */
  lemma LiveProdRefusedFirst(o: Options, w: World)
    ensures LiveProd(o) ==> Expected(o, w) == Behaviour([], Abort(LiveProdRefused))
    ensures Expected(o, w).outcome == Abort(LiveProdRefused) <==> LiveProd(o)
  {
    if !LiveProd(o) {
      ExpectedProceeds(o, w);
      PastNeverRefused(o, w, TagOf(o, w), UrlOf(o, w), BranchOf(o, w));
    }
  }

  // ---------------------------------------------------------------- the clean-tree gate

  lemma PastAllowDirty(o: Options, w: World, tag: string, url: string, branch: Option<string>)
    requires o.dirty
    ensures RanksWithin(Proceed(o, w, tag, url, branch).trace, 3, 8)
  {
    PastFollowsPlan(o, w, tag, url, branch);
    DirtyPlanBounds(o, tag, url);
    PrefixKeeps(Proceed(o, w, tag, url, branch).trace, Plan(o, tag, url), 3, 8);
  }

  /** With --allow-dirty the run never pulls, refreshes the index or asks for the status. */
  lemma AllowDirtySkipsCleanTree(o: Options, w: World)
    requires o.dirty
    ensures Pull !in Expected(o, w).trace && UpdateIndex !in Expected(o, w).trace
    ensures Status !in Expected(o, w).trace
  {
    if !LiveProd(o) {
      ExpectedProceeds(o, w);
      PastAllowDirty(o, w, TagOf(o, w), UrlOf(o, w), BranchOf(o, w));
      var t := Expected(o, w).trace;
      assert forall a :: a in t ==> Rank(a) >= 3;
    }
  }

  lemma PastCleanTreeGate(o: Options, w: World, tag: string, url: string, branch: Option<string>)
    requires !o.dirty
    ensures !w.pullOk ==> Proceed(o, w, tag, url, branch) == Behaviour([Pull], Abort(PullFailed))
    ensures w.pullOk && !w.updateIndexOk ==>
      Proceed(o, w, tag, url, branch) == Behaviour([Pull, UpdateIndex], Abort(UpdateIndexFailed))
    ensures w.pullOk && w.updateIndexOk && !w.statusOk ==>
      Proceed(o, w, tag, url, branch) == Behaviour([Pull, UpdateIndex, Status], Abort(StatusFailed))
    ensures w.pullOk && w.updateIndexOk && w.statusOk && w.statusOutput != "" ==>
      Proceed(o, w, tag, url, branch) == Behaviour([Pull, UpdateIndex, Status], Abort(DirtyTree(w.statusOutput)))
    ensures Probe in Proceed(o, w, tag, url, branch).trace <==> CleanTree(w)
  {
    var rest := [Probe] + AfterProbe(o, tag, url);
    AttemptCons(Pull, [UpdateIndex, Status], w);
    AttemptCons(UpdateIndex, [Status], w);
    AttemptCons(Status, [], w);
    if CleanTree(w) {
      PastClean(o, w, tag, url, branch);
      AttemptCons(Probe, AfterProbe(o, tag, url), w);
      assert Proceed(o, w, tag, url, branch).trace[3] == Probe;
    } else {
      FinishStopped(CleanPlan(o), rest, w, tag, url, branch);
    }
  }

  /**
   * Without --allow-dirty, a failed pull, a failed index refresh, a failed status command or
   * a non-empty status each end the run right there, with that failure; the probe is reached
   * exactly when the tree is clean.
   */
  lemma CleanTreeGate(o: Options, w: World)
    requires !LiveProd(o) && !o.dirty
    ensures !w.pullOk ==> Expected(o, w) == Behaviour([Pull], Abort(PullFailed))
    ensures w.pullOk && !w.updateIndexOk ==>
      Expected(o, w) == Behaviour([Pull, UpdateIndex], Abort(UpdateIndexFailed))
    ensures w.pullOk && w.updateIndexOk && !w.statusOk ==>
      Expected(o, w) == Behaviour([Pull, UpdateIndex, Status], Abort(StatusFailed))
    ensures w.pullOk && w.updateIndexOk && w.statusOk && w.statusOutput != "" ==>
      Expected(o, w) == Behaviour([Pull, UpdateIndex, Status], Abort(DirtyTree(w.statusOutput)))
    ensures Probe in Expected(o, w).trace <==> CleanTree(w)
  {
    ExpectedProceeds(o, w);
    PastCleanTreeGate(o, w, TagOf(o, w), UrlOf(o, w), BranchOf(o, w));
  }

  // ---------------------------------------------------------------- the probe

  /** An attempt can only fail with a reason some action of the plan gives. */
  lemma {:induction false} AttemptFailsWithin(plan: seq<Action>, w: World, reasons: set<Failure>)
    requires forall i :: 0 <= i < |plan| ==> Why(plan[i], w) in reasons
    ensures Attempt(plan, w).failure.Some? ==> Attempt(plan, w).failure.value in reasons
  {
    if plan != [] && !Stops(plan[0], w) {
      assert forall i :: 0 <= i < |plan[1..]| ==> plan[1..][i] == plan[i + 1];
      AttemptFailsWithin(plan[1..], w, reasons);
    }
  }

  /** Past a "200" probe, every failure comes from publication or the trigger. */
  lemma PastAfterProbeFailures(o: Options, w: World, tag: string, url: string, branch: Option<string>)
    requires (o.dirty || CleanTree(w)) && Reachable(w)
    ensures !Proceed(o, w, tag, url, branch).outcome.Abort? ||
      Proceed(o, w, tag, url, branch).outcome.reason in {TagFailed(tag), PushFailed, BuildFailed(w.buildResponse)}
  {
    var rest := PublishPlan(o, tag) + TriggerPlan(o, url);
    PastReachable(o, w, tag, url, branch);
    assert rest == [] || rest == [CreateTag(tag), PushTags, Trigger(url)];
    AttemptFailsWithin(rest, w, {TagFailed(tag), PushFailed, BuildFailed(w.buildResponse)});
  }

  lemma PastProbeGate(o: Options, w: World, tag: string, url: string, branch: Option<string>)
    requires o.dirty || CleanTree(w)
    ensures !Reachable(w) ==>
      Proceed(o, w, tag, url, branch) == Behaviour(CleanPlan(o) + [Probe], Abort(JenkinsUnreachable(w.probeResponse)))
    ensures Proceed(o, w, tag, url, branch).outcome == Abort(JenkinsUnreachable(w.probeResponse)) <==> !Reachable(w)
  {
    if Reachable(w) {
      PastAfterProbeFailures(o, w, tag, url, branch);
    } else {
      PastClean(o, w, tag, url, branch);
      AttemptCons(Probe, AfterProbe(o, tag, url), w);
    }
  }

  /**
   * Once the earlier gates pass, a probe answer other than exactly "200" ends the run right
   * after the probe, before the branch is read or anything is tagged; "200" lets it go on.
   */
  lemma ProbeGate(o: Options, w: World)
    requires !LiveProd(o) && (o.dirty || CleanTree(w))
    ensures !Reachable(w) ==>
      Expected(o, w) == Behaviour(CleanPlan(o) + [Probe], Abort(JenkinsUnreachable(w.probeResponse)))
    ensures Expected(o, w).outcome == Abort(JenkinsUnreachable(w.probeResponse)) <==> w.probeResponse != "200"
  {
    ExpectedProceeds(o, w);
    PastProbeGate(o, w, TagOf(o, w), UrlOf(o, w), BranchOf(o, w));
  }

  // ---------------------------------------------------------------- dry run

  lemma PastDryRun(o: Options, w: World, tag: string, url: string, branch: Option<string>)
    requires o.dryrun
    ensures RanksWithin(Proceed(o, w, tag, url, branch).trace, 0, 5)
    ensures Proceed(o, w, tag, url, branch).outcome.Completed? <==> (o.dirty || CleanTree(w)) && Reachable(w)
  {
    PastFollowsPlan(o, w, tag, url, branch);
    PlanPassesIffGates(o, tag, url, w);
    DryRunPlanBounds(o, tag, url);
    PrefixKeeps(Proceed(o, w, tag, url, branch).trace, Plan(o, tag, url), 0, 5);
  }

  /**
   * A dry run never tags, pushes or triggers a build, and completes exactly when the checks
   * pass, still reporting the tag and the URL it assembled.
   */
  lemma DryRunPublishesNothing(o: Options, w: World)
    requires o.dryrun
    ensures forall a :: a in Expected(o, w).trace ==> !a.CreateTag? && a != PushTags && !a.Trigger?
    ensures Expected(o, w).outcome.Completed? <==> ChecksPass(o, w)
    ensures Expected(o, w).outcome.Completed? ==>
      Expected(o, w).outcome == Completed(TagOf(o, w), UrlOf(o, w), BranchOf(o, w))
  {
    if !LiveProd(o) {
      ExpectedProceeds(o, w);
      PastDryRun(o, w, TagOf(o, w), UrlOf(o, w), BranchOf(o, w));
      var t := Expected(o, w).trace;
      assert forall a :: a in t ==> Rank(a) < 5;
    }
  }

  // ---------------------------------------------------------------- publication and trigger

  lemma PastPublishThenTrigger(o: Options, w: World, tag: string, url: string, branch: Option<string>)
    requires !o.dryrun && (o.dirty || CleanTree(w)) && Reachable(w)
    ensures var pre := CleanPlan(o) + [Probe] + TagPlan(o);
      !w.tagOk ==> Proceed(o, w, tag, url, branch) == Behaviour(pre + [CreateTag(tag)], Abort(TagFailed(tag)))
    ensures var pre := CleanPlan(o) + [Probe] + TagPlan(o);
      w.tagOk && !w.pushOk ==> Proceed(o, w, tag, url, branch) == Behaviour(pre + [CreateTag(tag), PushTags], Abort(PushFailed))
    ensures var pre := CleanPlan(o) + [Probe] + TagPlan(o);
      w.tagOk && w.pushOk ==>
        Proceed(o, w, tag, url, branch).trace == pre + [CreateTag(tag), PushTags, Trigger(url)] &&
        Proceed(o, w, tag, url, branch).outcome ==
          if BuildAccepted(w.buildResponse) then Completed(tag, url, branch) else Abort(BuildFailed(w.buildResponse))
  {
    var publish, trigger := PublishPlan(o, tag), TriggerPlan(o, url);
    PastReachable(o, w, tag, url, branch);
    AttemptCons(CreateTag(tag), [PushTags], w);
    AttemptCons(PushTags, [], w);
    AttemptCons(Trigger(url), [], w);
    if w.tagOk && w.pushOk {
      FinishAfter(publish, trigger, w, tag, url, branch);
    } else {
      FinishStopped(publish, trigger, w, tag, url, branch);
    }
  }

  /**
   * Past the checks, and not on a dry run: the tag is created first, then pushed, then the
   * build is triggered with the URL; a failed tag or push ends the run before the trigger,
   * and the trigger succeeds exactly on a "200" or "201" answer.
   */
  lemma PublishThenTrigger(o: Options, w: World)
    requires !o.dryrun && ChecksPass(o, w)
    ensures var pre := CleanPlan(o) + [Probe] + TagPlan(o);
      !w.tagOk ==> Expected(o, w) == Behaviour(pre + [CreateTag(TagOf(o, w))], Abort(TagFailed(TagOf(o, w))))
    ensures var pre := CleanPlan(o) + [Probe] + TagPlan(o);
      w.tagOk && !w.pushOk ==>
        Expected(o, w) == Behaviour(pre + [CreateTag(TagOf(o, w)), PushTags], Abort(PushFailed))
    ensures var pre := CleanPlan(o) + [Probe] + TagPlan(o);
      w.tagOk && w.pushOk ==>
        Expected(o, w).trace == pre + [CreateTag(TagOf(o, w)), PushTags, Trigger(UrlOf(o, w))] &&
        Expected(o, w).outcome ==
          if BuildAccepted(w.buildResponse) then Completed(TagOf(o, w), UrlOf(o, w), BranchOf(o, w))
          else Abort(BuildFailed(w.buildResponse))
  {
    ExpectedProceeds(o, w);
    PastPublishThenTrigger(o, w, TagOf(o, w), UrlOf(o, w), BranchOf(o, w));
  }

  // ---------------------------------------------------------------- overall

  /** Every run's actions happen in the script's order, whatever fails. */
  lemma TraceOrdered(o: Options, w: World)
    ensures Ordered(Expected(o, w).trace)
  {
    if !LiveProd(o) {
      ExpectedProceeds(o, w);
      PastFollowsPlan(o, w, TagOf(o, w), UrlOf(o, w), BranchOf(o, w));
    }
  }

  /**
   * A run exits with status 0 exactly when every gate passes: not a live production release,
   * a clean tree unless allowed dirty, the exact "200" probe answer and, unless this is a dry
   * run, a created and pushed tag and an accepted trigger.
   */
  lemma SuccessIffGatesPass(o: Options, w: World)
    ensures ExitCode(Expected(o, w).outcome) == 0 <==>
      ChecksPass(o, w) && (o.dryrun || (w.tagOk && w.pushOk && BuildAccepted(w.buildResponse)))
  {
    if !LiveProd(o) {
      ExpectedProceeds(o, w);
      PastFollowsPlan(o, w, TagOf(o, w), UrlOf(o, w), BranchOf(o, w));
      PlanPassesIffGates(o, TagOf(o, w), UrlOf(o, w), w);
    }
  }
}

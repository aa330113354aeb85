# deploy.rb, modelled in Dafny

`deploy.rb` releases a build of the capture client. It reads its options with OptionParser. It
then refuses a live production release and insists on a clean git work tree unless
`--allow-dirty` is given. It probes the Jenkins job and requires the exact answer `200`. Next
it derives the release tag: the `--tag` value, or the branch name, a dash and a 14-digit
local timestamp. Unless this is a dry run, it creates and pushes the tag. It assembles the
`buildWithParameters` trigger URL and, again unless this is a dry run, requests it, accepting
`200` or `201`. The script also defines `bump_version`, which it never calls.

The model has six modules:

- `Wrappers`: `Option` and `Result`.
- `Text`: the Ruby string and integer behaviour the script relies on. That is `Integer#to_s`,
  `String#to_i`, `split` and `join` with one separator character other than a space, `chomp`, and the
  zero-padding of `strftime`.
- `Version`: `bump_version`.
- `Options`: the options hash. Each recognised flag runs its callback on the hash, left to
  right from the defaults.
- `Deploy`: the workflow.
  - Every external command and the clock are replaced by a scripted `World` of their results.
  - The run records the external `Action`s it performs and ends in an `Outcome`: completed, or
    aborted with a `Failure`.
  - `Deploy.Run` and its phase methods follow the script's control flow step by step.
  - `Deploy.Expected` is the specification. It is the linear plan of actions, attempted up to
    the first action whose result stops the run.
- `DeployProperties`: the properties of the workflow, proved about `Deploy.Expected`.

The following quirks of the code are kept as written:

- `--[no-]upload` writes `options[:deploy]`, while the URL interpolates `options[:upload]`.
  The trigger URL therefore always says `UPLOAD=true`.
- When `--tag` is given, the branch is never read, so `current_branch` is nil. `Outcome` keeps
  that value (`None`) because verbose output prints it.
- The build answer is the whole standard output of the curl call, compared as text.

Where the code and a reading of its intent differ, the model follows the code:

- The timestamp comes from local time (`Time.new`), not UTC.
- No query parameter is URL-encoded.
- The branch lookup only happens without an explicit tag.
- `--no-upload` does not change the URL.

## Model

| member | source | states |
|---|---|---|
| Version.BumpVersion | deploy.rb:16-20 | Fails exactly when the split gives no component, because Ruby then raises on `nil + 1`. Otherwise the result reads back as the same number of components: the last one plus one, every other one unchanged. |
| Version.Components | deploy.rb:17 | `t.split(".")` with `to_i` applied to every part: the integer components of a version string. |
| Version.Render | deploy.rb:19 | `elems.join(".")` of integers, each rendered with `to_s`. |
| Version.ComponentsOfRender | deploy.rb:17-19 | Joining any list of integers with dots and reading it back with `split(".")` and `to_i` gives the same integers. |
| Text.ToI | deploy.rb:17 | `String#to_i` in base 10: leading whitespace, an optional sign, the longest digit run with single underscores between digits, and 0 when there are no digits. |
| Text.IntToText | deploy.rb:19 | `Integer#to_s`: a minus sign for negative values, then the decimal digits. |
| Text.Split | deploy.rb:17 | `String#split` with a one-character separator other than a space and no limit: the fields between separators, with trailing empty fields removed. |
| Text.Join | deploy.rb:19 | `Array#join`: the parts with the separator between neighbours. |
| Text.ToIOfIntToText | deploy.rb:17-19 | `to_i` reads back every integer `to_s` renders, negative ones included. |
| Text.ToIOfDigits | deploy.rb:17 | `to_i` of a non-empty digit string is its decimal value. |
| Text.ToIOfNegatedDigits | deploy.rb:17 | `to_i` of a minus sign followed by digits is the negated value. |
| Text.IntToTextChars | deploy.rb:19 | `to_s` of an integer is non-empty and holds only a sign and digits, so no dot. |
| Text.FieldsOfJoin | deploy.rb:17-19 | Splitting a join at the separator gives back the parts, when no part holds the separator. |
| Text.FieldsOfConcat | deploy.rb:17 | A separator-free prefix joins the first field of what follows it. |
| Text.CutAtFirst | deploy.rb:120 | Cutting `p + sep + q` at its first separator gives `(p, q)` when `p` has no separator. |
| Text.PadReadsBack | deploy.rb:104 | A value below 10^width is zero-padded to exactly `width` digits that read back as the value. |
| Text.ChompLine | deploy.rb:103 | `chomp` removes exactly one trailing `"\n"`, `"\r\n"` or `"\r"` from a line that does not itself end in a line break, and leaves a bare line unchanged. |
| Text.Chomp | deploy.rb:103 | The chomped text is a prefix of the input, at most two characters shorter. ChompLine states which endings it removes. |
| Options.Apply | deploy.rb:50-72 | One OptionParser callback run on the options hash. |
| Options.Parse | deploy.rb:46-78 | The options hash after the callbacks of all recognised flags have run left to right, starting from `environment: "dev"` and `upload: true`. |
| Options.ApplyWrites | deploy.rb:50-72 | Each callback writes its own key and leaves the others alone. `--allow-dirty` sets `:dirty`, `--upload` writes `:deploy`, and nothing writes `:upload`. |
| Options.UploadAlwaysTrue | deploy.rb:66-69 | For every command line, `:upload` keeps its default value, true. |
| Options.DeployIsLastUpload | deploy.rb:67-69 | `:deploy` holds the value of the last `--[no-]upload` flag. |
| Options.NoUploadFlagNoDeploy | deploy.rb:67-69 | Without an upload flag, `:deploy` is nil. |
| Options.EnvironmentIsLastEnv | deploy.rb:60-62 | The environment is the value of the last `--env`. |
| Options.EnvironmentDefaultsToDev | deploy.rb:59 | Without `--env`, the environment is `"dev"`. |
| Options.TagIsLastTag | deploy.rb:63-65 | The tag is the value of the last `--tag`. |
| Options.NoTagFlagNoTag | deploy.rb:63-65 | Without `--tag`, the tag is nil. |
| Options.LiveIsLastLive | deploy.rb:70-72 | Live is the value of the last `--[no-]live`. |
| Options.NoLiveFlagNotLive | deploy.rb:70-72 | Without a live flag, live is false. |
| Options.DryRunIsLastDryRun | deploy.rb:56-58 | A dry run is the value of the last `--[no-]dry-run`. |
| Options.NoDryRunFlagNoDryRun | deploy.rb:56-58 | Without a dry-run flag, it is not a dry run. |
| Options.DirtyIffAllowDirty | deploy.rb:53-55 | `:dirty` is set exactly when `--allow-dirty` appears on the command line. |
| Deploy.Stamp | deploy.rb:104 | `strftime("%Y%m%d%H%M%S")` of the local time. |
| Deploy.DeriveTag | deploy.rb:100-110 | The tag: the explicit one, or the chomped branch output, a dash and the stamp. |
| Deploy.BuildUrl | deploy.rb:120-124 | The trigger URL: endpoint, `?`, token, ENV, TAG and UPLOAD, then `&LIVE=true` on a live release. |
| Deploy.Expected | deploy.rb:80-136 | The specification of a run: refused with no action for a live prod release, otherwise the plan of actions attempted up to the first one whose result stops the run. |
| Deploy.StampReadsBack | deploy.rb:102-104 | For every valid local time, the `%Y%m%d%H%M%S` stamp is 14 digits that read back field by field as that time. |
| Deploy.ParseLaidOut | deploy.rb:104 | Six fields of widths 4, 2, 2, 2, 2 and 2 laid end to end are 14 characters and read back one by one. |
| Deploy.DigitsLaidOut | deploy.rb:104 | Digit strings laid end to end are a digit string. |
| Deploy.DerivedTagReadsBack | deploy.rb:101-104 | Without an explicit tag, the tag is the chomped branch name, a dash and 14 digits that read back as the local time. |
| Deploy.ExplicitTagVerbatim | deploy.rb:108-109 | An explicit tag is used verbatim, whatever the branch and the clock say. |
| Deploy.DashJoined | deploy.rb:104 | In `a + "-" + b`, `a` comes first, then the dash, then `b`. |
| Deploy.UrlLayout | deploy.rb:120-124 | The trigger URL is the endpoint, a `?`, and the query fields joined with `&`. |
| Deploy.QueryFieldsRead | deploy.rb:120-124 | Each query field is free of `&` and cuts at `=` into its expected name and value, when the environment and tag hold no `&`. |
| Deploy.UrlReadsBack | deploy.rb:120-124 | The URL starts with the endpoint and `?`. Read as a query string, the rest carries token, ENV, TAG and UPLOAD in that order, then `LIVE=true` exactly when live is set. |
| Deploy.LiveSuffixIffLive | deploy.rb:122-124 | The URL ends in `&LIVE=true` if and only if live is set, whatever the other values. |
| Deploy.ParsedUrlUploadsTrue | deploy.rb:66-69 | For every command line, the URL's UPLOAD parameter is the text `UPLOAD=true`. When the environment and tag hold no `&`, the query also reads back with `("UPLOAD", "true")` as its fourth parameter. |
| Deploy.ParamCut | deploy.rb:120 | A `name=value` parameter cuts back into its name and value. |
| Deploy.AttemptPrefix | deploy.rb:22-136 | The actions of a run are a prefix of its plan, and all of it when nothing fails. |
| Deploy.AttemptFailure | deploy.rb:22-136 | A run fails exactly when some planned action fails, and then with the failure of the last action it performed, the first failing one. |
| Deploy.AttemptStopped | deploy.rb:22-136 | Once part of the plan fails, nothing after it is attempted. |
| Deploy.AttemptContinues | deploy.rb:22-136 | When part of the plan goes through, the rest is attempted after it. |
| Deploy.FinishAfter | deploy.rb:22-136 | A part of the plan that goes through is followed by the behaviour of the rest. |
| Deploy.FinishStopped | deploy.rb:22-136 | A part of the plan that fails decides the behaviour of the whole. |
| Deploy.RequireCleanWorkTree | deploy.rb:22-39 | Pull, refresh the index, then check the status. It stops at the first failure, with that failure. It passes exactly when all three succeed and the status output is empty. |
| Deploy.PublishTag | deploy.rb:114-117 | `git tag`, then `git push --tags`, stopping at the first one that fails. |
| Deploy.GenerateTag | deploy.rb:99-110 | The tag is the explicit one or derived from branch and time. The branch is read, and `current_branch` set, only without an explicit tag. |
| Deploy.AssembleUrl | deploy.rb:119-124 | The URL built with `+=` is the query layout of `BuildUrl`. |
| Deploy.TriggerBuild | deploy.rb:128-136 | The trigger succeeds exactly on an answer of `"200"` or `"201"`. |
| Deploy.TriggerPhase | deploy.rb:119-136 | The URL is assembled, and requested unless this is a dry run. |
| Deploy.PublishPhase | deploy.rb:114-136 | The tag is published unless this is a dry run, then the trigger phase runs; the phase follows its plan. |
| Deploy.BuildPhase | deploy.rb:99-136 | Tag derivation, publication and trigger follow their plan. |
| Deploy.ProbePhase | deploy.rb:90-97 | Only a probe answer of exactly `"200"` lets the run go on. |
| Deploy.ProceedPhase | deploy.rb:86-136 | Past the safety gate, the run performs its plan as far as the first failing action. |
| Deploy.Run | deploy.rb:80-136 | The script's behaviour is `Expected`: refused outright for a live prod release, otherwise the plan up to its first failure. |
| DeployProperties.LiveProdRefusedFirst | deploy.rb:80-84 | A live production release aborts before any action. No other run aborts with that reason. |
| DeployProperties.AttemptNeverRefused | deploy.rb:80-84 | No planned action fails with the safety gate's refusal. |
| DeployProperties.AllowDirtySkipsCleanTree | deploy.rb:86-89 | With `--allow-dirty`, the run never pulls, refreshes the index or checks the status. |
| DeployProperties.CleanTreeGate | deploy.rb:22-39 | Without `--allow-dirty`: a failed pull, index refresh or status check, or any changed file, each aborts with its own reason. The probe is reached exactly when the tree is clean. |
| DeployProperties.ProbeGate | deploy.rb:90-97 | Once the earlier gates pass, any probe answer other than `"200"` aborts right after the probe. The run aborts as unreachable exactly when the answer is not `"200"`. |
| DeployProperties.AttemptFailsWithin | deploy.rb:22-136 | A run can only fail with a reason that one of its planned actions gives. |
| DeployProperties.PastAfterProbeFailures | deploy.rb:99-136 | Past a `"200"` probe, every failure comes from tagging, pushing or the trigger. |
| DeployProperties.DryRunPublishesNothing | deploy.rb:114-117 | A dry run never tags, pushes or triggers, and completes exactly when the checks pass, with the derived tag and the assembled URL. |
| DeployProperties.PublishThenTrigger | deploy.rb:114-136 | Not a dry run: the tag is created, then pushed, then the build is triggered. A failing tag or push aborts before the trigger, and the trigger succeeds exactly on `"200"` or `"201"`. |
| DeployProperties.TraceOrdered | deploy.rb:22-136 | Every run's actions come in the script's order, whatever fails. |
| DeployProperties.SuccessIffGatesPass | deploy.rb:80-136 | The exit status is 0 exactly when every gate passes. That means: no live prod, a clean tree unless allowed dirty, a `"200"` probe and, unless a dry run, a successful tag and push and an accepted trigger. |
| DeployProperties.PlanPassesIffGates | deploy.rb:80-136 | The whole plan passes exactly when every gate does. |
| DeployProperties.PlanPasses | deploy.rb:86-136 | Which part of the plan passes under which results. The branch read always passes. |
| DeployProperties.PlanOrdered | deploy.rb:86-136 | The plan is in the script's order in every configuration. |
| DeployProperties.DryRunPlanBounds | deploy.rb:114-117 | A dry-run plan holds nothing after the branch read. |
| DeployProperties.DirtyPlanBounds | deploy.rb:86-89 | With `--allow-dirty`, the plan starts at the probe. |

## Left out

- External commands, HTTP requests and the clock are not run. Their results are fields of
  `World`: the exit success of `git pull`, `git update-index`, `git status`, `git tag` and
  `git push`, the stdout of `git status` and `git rev-parse`, the probe and trigger output,
  and the local time.
- The curl command strings and the Windows detection (lines 11-14) only choose which curl
  program is run. The answer is a scripted string either way.
- OptionParser's own parsing, `--help`, the usage banner and errors for unknown flags are left
  out. A command line is the list of flags after parsing.
- Console output is left out: the `puts` lines, the verbose messages and the printed URL.
  `Completed` still carries the tag, the URL and `current_branch`, the values they print.
- The `verbose` option is parsed but affects nothing modelled.
- `raise` and `exit(1)` are both modelled as an abort with status 1. The exception message and
  the backtrace are not.
- Text.Split: does not model Ruby's special case for a single-space separator, which splits on
  runs of whitespace and drops leading whitespace. The script only splits on ".".
- Text.ToI: does not model Ruby's `0d` prefix or bases other than 10.
- Deploy.StampReadsBack: covers years up to 9999 only. Beyond that, `%Y` prints more than four
  digits and the stamp is no longer 14 characters.
- Deploy.UrlReadsBack: requires that the environment and the tag hold no `&`. The script does
  not URL-encode, so such a value would split into extra query fields.
- Deploy.DerivedTagReadsBack: requires a branch name that itself ends in no line break.
  `chomp` removes only one line ending.
- The arguments of `CreateTag` and `Trigger` are the strings the script builds, not what the
  shell makes of them. `git tag #{new_tag}` is word-split, and the quoted URL is still subject
  to `$`, backquote and backslash expansion.
- Reading the branch (`ReadBranch`) never stops a run: `%x()` does not check its exit
  status.

# k8ecr engine model

k8ecr finds the container images a Kubernetes namespace runs from Amazon ECR,
groups them per application, decides which groups need an upgrade, and
rewrites the image references of the affected workloads. The repository holds
three generations of this engine, plus a small terminal progress display used
while pushing images. Each generation is modelled as its own module, and none
is merged into another:

- **Current engine** (pkg/apps, pkg/resources, pkg/ecr/util.go):
  - `AppsTypes` holds the records.
  - `ChangeSets` covers a change set's containers, its versions in use, the semver-aware `SetLatest` decision and the dispatching `Upgrade`.
  - `Managers` is the kind registry.
  - `Apps` covers applications, `AddContainer`, `SetLatest` and `Scan`.
  - `Resources` holds the ECR-only reference parser, the container generator and the CronJob manager.
  - `EcrUtil` picks the newest tag.
- **Older engine** (pkg/imagemanager): module `ImageManager`. It has its own parser, Deployments and Cronjobs lists per image, a string-equality `SetLatest` that recomputes its flag, and sequential upgrades.
- **Oldest engine** (pkg/appmanager and the root package's appmanager.go, image.go and deploy.go):
  - `AppManager` covers `newImage`, `makeContainerList`, grouping per "App" label, `Scan`, `Init` and `Deploy`.
  - `RootAppManager` is the root package's copy. Its only difference is that applications are never named.
  - `Deploy` covers the deploy command's options, their filtering and the slot-update loop.
- **Progress display** (pkg/ecr/push.go): module `Progress`.

Shared pieces:

- `Wrappers` provides `Option`, `Result` and `Error`. A Go panic is `Err(Panicked(..))`.
- `Strs` models Go's `strings.Split` and `sort.Strings`.
- `Semver` implements precedence as in item 11 of Semantic Versioning 2.0.0.
- `ImageRefs` is the `[registry/]repo[:tag]` split that every parser shares.
- `Kube` has workloads and an abstract client whose list, get and update are functions over a cluster state `W`.
- `Folds` provides generic folds and their lemmas.

Turning a tag into a semantic version (the lenient grammar of the semver
library) is a parameter `parse: string -> Option<Semver.Version>`. The
cluster is a `Kube.Client<W>`. Where Go ranges over a map, the model either
takes the iteration order as a parameter (`ChangeSets.Enumerates`) or picks
an arbitrary key.

## Model

| member | source | states |
|---|---|---|
| ImageRefs.SplitPieces | pkg/resources/main.go:13-30 | the first piece of a split is the text before the first separator, there is one piece more than separators, and with exactly one separator the second piece is the text after it |
| ImageRefs.SplitRef | pkg/resources/main.go:13-30 | fails (the source's panic) exactly when the reference has two or more '/'; otherwise the registry is the text before the first '/', the repo is the last segment up to its first ':', and the tag is the text after the ':' when there is exactly one, else "latest" |
| ImageRefs.SplitRefRoundTrip | pkg/apps/changeset.go:120-122 | splitting `registry/repo:version` gives back the three parts when none contains '/' and repo and version contain no ':' |
| Semver.CompareProps | pkg/ecr/util.go:26-27 | precedence is antisymmetric, and equal precedence means the same version |
| Semver.CompareTransitive | pkg/ecr/util.go:26-27 | precedence is transitive, so sorting by it is well defined |
| Strs.SortStrings | pkg/apps/changeset.go:115 | the result is an ascending permutation of the input |
| Strs.SortedElements | pkg/apps/changeset.go:104-117 | the elements of a set, each once, strictly ascending |
| Strs.SplitLength | pkg/resources/main.go:13 | `strings.Split` gives one more piece than there are separators |
| Strs.SplitShape | pkg/resources/main.go:13 | the first piece is the text before the first separator, and the rest is the split of what follows it |
| Strs.Split | pkg/resources/main.go:13 | `strings.Split` with a one-character separator always gives at least one piece |
| EcrUtil.GreatestSemver | pkg/ecr/util.go:18-28 | None exactly when no tag parses; otherwise a parsing tag of the input whose version is at least that of every other parsing tag |
| EcrUtil.LatestVersion | pkg/ecr/util.go:14-31 | "" for no tags; otherwise a tag of the input. On the semver path it is semver-maximal and the caller's slice is unchanged. On the fallback path it is lexically maximal and the slice becomes a sorted permutation of itself |
| EcrUtil.LatestIgnoresOrder | pkg/ecr/util.go:14-31 | reordering the tags picks a tag of the same parsed version on the semver path, and the same tag on the fallback |
| ChangeSets.NewChangeSet | pkg/apps/changeset.go:42-49 | a change set for the given image, with no target, no upgrade due and no versions in use |
| ChangeSets.AddContainer | pkg/apps/changeset.go:80-86 | the kind's list gains the container at its end, the kind is created if absent, and the flag and target are unchanged |
| ChangeSets.AddContainerKindList | pkg/apps/changeset.go:80-86 | every other kind's list is unchanged |
| ChangeSets.AddContainerInUse | pkg/apps/changeset.go:80-86 | the versions in use grow by exactly the container's version |
| ChangeSets.Versions | pkg/apps/changeset.go:104-117 | each version in use exactly once, strictly ascending, and nothing else |
| ChangeSets.SetLatest | pkg/apps/changeset.go:54-78 | always sets the target; never clears the flag; with no containers, leaves the flag alone. For a non-semver target, raises the flag iff some version in use differs from it. For a semver target, raises it if some version in use does not parse or is below the target, and leaves it alone when all are at or above the target |
| ChangeSets.RegistryPath | pkg/apps/changeset.go:120-122 | the reference built as `registry/repo:target` splits back into registry, repository and target when no part holds a '/' and neither repository nor target a ':' |
| ChangeSets.RunTargets | pkg/apps/changeset.go:89-101 | calls the manager of each target's kind in order, threading the cluster state, with every call but the last succeeding. It stops at the first error, or with a nil dereference at a kind with no manager; without an error, every target was called |
| ChangeSets.Upgrade | pkg/apps/changeset.go:89-101 | the above, over every container of every kind, kinds in the map's iteration order |
| ChangeSets.WorkCoversAll | pkg/apps/changeset.go:91-92 | the targets an upgrade visits are exactly the change set's containers under their kinds |
| Managers.RegisterResource | pkg/apps/manager.go:12-14 | the manager is filed under its kind, other kinds are unchanged, the table grows by at most one entry, and kinds stay keyed by their managers' kinds |
| Managers.LastRegistrationWins | pkg/apps/manager.go:13 | registering two managers of one kind keeps only the second |
| Apps.NewApp | pkg/apps/apps.go:14-19 | the application has the given name and no change sets |
| Apps.GetChangeSets | pkg/apps/apps.go:22-28 | one entry per image family, each a change set of the application, and every change set appears |
| Apps.AppSetLatest | pkg/apps/apps.go:31-38 | only the change set of `registry/repository` is updated, as `ChangeSet.SetLatest` would; without that change set, nothing changes |
| Apps.ManagerSetLatest | pkg/apps/apps.go:67-71 | every application is updated as `App.SetLatest` says, and no application is added or removed |
| Apps.AddContainer | pkg/apps/apps.go:75-86 | the container's application is added if missing, and every other application is unchanged |
| Apps.AddContainerLists | pkg/apps/apps.go:75-86 | the container is appended to exactly one list (its application's, for its image and kind), and every other list is unchanged |
| Apps.AddContainerDecisions | pkg/apps/apps.go:75-86 | a new application is named after its key; a new change set starts with no target and no upgrade due; existing change sets keep their decisions |
| Apps.AddContainerWellFormed | pkg/apps/apps.go:76-85 | keeps every container filed under its own application and image |
| Apps.Generate | pkg/apps/apps.go:95-99 | fails exactly when the generator fails on some item; otherwise the entries are the generator's containers for each item, in item order and slot order, each tagged with the manager's kind |
| Apps.Discover | pkg/apps/apps.go:90-99 | for an iteration order that lists every registered kind once: no error exactly when every registered kind lists and generates successfully; without error, the entries are those of every kind, kind after kind in that order; with an error, it is that of the first failing kind in the order, and the entries are exactly those of the kinds before it |
| Apps.DiscoverFromFirstError | pkg/apps/apps.go:90-96 | a failed discovery stops at the first kind in the order whose listing or generator fails, returns that kind's error, and holds the entries of every kind before it, in order |
| Apps.Scan | pkg/apps/apps.go:89-102 | visits every registered kind once, in map iteration order: no error exactly when every registered kind succeeds, and then every container is added to the applications already present; on an error it returns the first failing kind's error, and the containers of the kinds before it remain added |
| Apps.DiscoverSelect | pkg/apps/apps.go:90-99 | with each manager registered under its own kind, a successful discovery finds for each list exactly the containers of that kind's manager, whatever the iteration order |
| Apps.ScanKeepsExisting | pkg/apps/apps.go:89-102 | a scan never clears what is there: every list before the scan is a prefix of the same list after it |
| Apps.ScanTwiceDuplicates | pkg/apps/apps.go:89-102 | scanning an unchanged cluster twice lists every container twice: in any two iteration orders when the first scan succeeds, and in all cases when both use the same order |
| Apps.ScanWellFormed | pkg/apps/apps.go:89-102 | a scan keeps containers filed under their own application and image |
| Apps.AddAllLists | pkg/apps/apps.go:95-99 | adding entries appends to each list exactly the entries that belong there, in order |
| Resources.Parse | pkg/resources/main.go:12-37 | `Ok(None)` when the first '/'-segment does not end in "amazonaws.com". Otherwise it fails exactly for two or more '/', and returns the registry, the repo before the first ':' and the tag ("latest" unless there is exactly one ':') |
| Resources.ParseSingleSegment | pkg/resources/main.go:19-30 | a single-segment ECR reference is its own registry and repo, and runs "latest" |
| Resources.ParseRegistryPath | pkg/resources/main.go:12-34 | parsing a change set's `RegistryPath` gives back its image and target |
| Resources.ContainersOf | pkg/resources/main.go:39-57 | panics exactly when some slot's ECR reference does not parse; otherwise the containers are those of the ECR slots, in slot order |
| Resources.EmittedFrom | pkg/resources/main.go:44-52 | every container names its workload and slot, carries the "app" label and the slot's parsed image and tag, and there are no more containers than slots |
| Resources.ContainersOfSlot | pkg/resources/main.go:42-54 | a slot outside ECR yields nothing; an ECR slot yields exactly its container |
| Resources.ContainersOfAppend | pkg/resources/main.go:41-55 | when neither run of slots panics, the containers of both together are those of each, in order |
| Resources.CronjobUpgrade | pkg/resources/cronjob.go:34-48 | a failing Get returns its error with no Update. Otherwise there is exactly one Update, even when no slot matched, of the job with its name and labels: matching slots point at `RegistryPath`, every slot keeps its name and place, other slots keep their image, and the Update's error is returned |
| Resources.UpgradeThenScan | pkg/resources/cronjob.go:40-45 | the upgraded slot of the written job parses back to the change set's image and target |
| Resources.CronjobResource | pkg/resources/cronjob.go:11-33 | the kind is "Cronjob", the fetcher is the CronJob listing, and the generator is `resources` over the job template's containers |
| Resources.Register | pkg/resources/main.go:59-62 | both managers are registered, CronJob last, and the table stays keyed by kind |
| Kube.ReplaceImage | pkg/resources/cronjob.go:40-45 | the same slots in the same order; only slots of the given name change image |
| Kube.PatchImage | pkg/resources/cronjob.go:35-47 | a failed Get makes no Update; otherwise exactly one Update of the patched item, whose result is returned |
| ImageManager.Parse | pkg/imagemanager/apps.go:186-207 | has no registry check; fails exactly for two or more '/'; returns the registry, the repo before the first ':' and the tag, or "latest" |
| ImageManager.ParseSingleSegment | pkg/imagemanager/apps.go:187-198 | a single segment is its own registry, tag included, and the repo is the text before its first ':' |
| ImageManager.NewImage | pkg/imagemanager/apps.go:60-62 | the reference built as `registry/repo:target` splits back into registry, repository and target when no part holds a '/' and neither repository nor target a ':' |
| ImageManager.ParseNewImage | pkg/imagemanager/apps.go:60-62 | the reference an upgrade writes parses back to the image map's image and target |
| ImageManager.Versions | pkg/imagemanager/apps.go:45-58 | the distinct versions in use across both lists, and nothing else |
| ImageManager.ImageSetLatest | pkg/imagemanager/apps.go:159-169 | sets the target and recomputes the flag from scratch: the flag is raised iff some version in use differs from the target, so it can be cleared |
| ImageManager.SetLatest | pkg/imagemanager/apps.go:156-172 | every application's image map for the named image is updated, and all other image maps and applications are untouched |
| ImageManager.Resources | pkg/imagemanager/apps.go:209-225 | one resource per slot, in slot order, naming the workload and slot, with the "app" label and the parsed image and tag |
| ImageManager.ResourcesFail | pkg/imagemanager/apps.go:209-225 | panics exactly when some slot's reference has two or more '/' |
| ImageManager.CollectNamed | pkg/imagemanager/apps.go:227-242 | every collected resource belongs to a listed workload with a non-empty name |
| ImageManager.CollectSkipsUnnamed | pkg/imagemanager/apps.go:234-236 | items with an empty name contribute nothing |
| ImageManager.CollectFails | pkg/imagemanager/apps.go:227-259 | a scan of the listing panics exactly when `resources` panics on some item with a name |
| ImageManager.CollectResources | pkg/imagemanager/apps.go:227-259 | a scan that does not panic yields the resources of every item with a name, in list order, and nothing else |
| ImageManager.CollectContains | pkg/imagemanager/apps.go:233-239 | the resources of each named item appear whole in the result, after those of the items listed before it and before those of the items after it |
| ImageManager.ScanKind | pkg/imagemanager/apps.go:227-259 | a listing error is returned as is; otherwise the resources of the named items |
| ImageManager.GroupResources | pkg/imagemanager/apps.go:286-297 | empty inputs give an empty map |
| ImageManager.DeploymentsLists | pkg/imagemanager/apps.go:263-292 | filing deployments into a map whose applications sit under their names keeps them so, appends each matching deployment to Deployments in input order and leaves Cronjobs as it was |
| ImageManager.CronjobsLists | pkg/imagemanager/apps.go:263-296 | filing cron jobs appends each matching one to Cronjobs in input order and leaves Deployments as it was |
| ImageManager.GroupResourcesLists | pkg/imagemanager/apps.go:263-297 | each deployment lands in Deployments and each cron job in Cronjobs of its application and image, in input order, exactly once |
| ImageManager.Scan | pkg/imagemanager/apps.go:302-313 | the first listing error leaves the applications unchanged; otherwise they are replaced by the grouping of what was found |
| ImageManager.ScanReplaces | pkg/imagemanager/apps.go:311 | a successful scan does not depend on the applications held before |
| ImageManager.UpgradeList | pkg/imagemanager/apps.go:102-143 | one Get-patch-Update round per resource, in order, threading the cluster state. Each round points the resource's slot at the new reference, and the first error ends the loop |
| ImageManager.Upgrade | pkg/imagemanager/apps.go:146-152 | deployments before cron jobs, both moved to `Registry/Repo:UpdateTo`; an error among the deployments means no cron job is touched |
| ImageManager.UpgradeUpdatesEach | pkg/imagemanager/apps.go:102-152 | a successful upgrade makes one round per resource, each sending exactly one Update |
| AppManager.NewImage | pkg/appmanager/image.go:16-39 | fails exactly for two or more '/'; `Original` is the input; registry, repo and tag are as split, with "latest" unless there is exactly one ':' |
| AppManager.NewImageRoundTrip | pkg/appmanager/image.go:17-38 | `newImage("R/name:tag")` gives back R, name and tag |
| AppManager.NewImageSingleSegment | pkg/appmanager/image.go:18-28 | a single segment is its own registry, and the repo is the text before its first ':' |
| AppManager.NewImageUntagged | pkg/appmanager/image.go:29-32 | a last segment with no ':' or with more than one gives the version "latest" |
| AppManager.MakeContainerList | pkg/appmanager/apps.go:106-116 | panics exactly when some slot's reference does not parse; otherwise 2·n entries: n zero containers, then one container per slot in order, with the slot's name, its parsed image and no target |
| AppManager.Named | pkg/appmanager/apps.go:125-126 | keeps only items with a non-empty name, and never more than were listed |
| AppManager.NamedInOrder | pkg/appmanager/apps.go:125-126 | the kept items are a subsequence of the listing, in list order |
| AppManager.NamedKeepsNamed | pkg/appmanager/apps.go:125-126 | every item with a non-empty name is kept as many times as it is listed |
| AppManager.NamedKeepsEach | pkg/appmanager/apps.go:125-126 | each listed item with a non-empty name is among the kept ones |
| AppManager.ResourcesOf | pkg/appmanager/apps.go:123-134 | one resource per named item, in order, built from that item |
| AppManager.ResourcesOfFails | pkg/appmanager/apps.go:123-134 | a scan panics exactly when building some named item's container list does |
| AppManager.ResourceOfFields | pkg/appmanager/apps.go:126-132 | a resource records the item's name, its "App" label (capital A) and its container list |
| AppManager.ResourcesOfSkipsUnnamed | pkg/appmanager/apps.go:127-129 | items with an empty name contribute nothing |
| AppManager.ScanKind | pkg/appmanager/apps.go:118-156 | a listing error is returned as is; otherwise the resources of the named items |
| AppManager.GroupResources | pkg/appmanager/apps.go:158-185 | empty inputs give an empty map |
| AppManager.Group | pkg/appmanager/apps.go:158-185 | empty inputs give an empty map; the contents are stated by GroupLists, GroupCounts and GroupKeys |
| AppManager.GroupLists | pkg/appmanager/apps.go:158-185 | each deployment is appended to the Deployments list and each cron job to the Cronjobs list of its labelled application, in input order |
| AppManager.GroupCounts | pkg/appmanager/apps.go:160-183 | the Deployments lists together hold as many resources as there were deployments, and likewise for cron jobs |
| AppManager.GroupKeys | pkg/appmanager/apps.go:158-185 | the applications are exactly the labels of the inputs, named after their label |
| AppManager.ScanWith | pkg/appmanager/apps.go:190-201 | the first listing error returns with the applications unchanged; otherwise they are replaced by the grouping |
| AppManager.Scan | pkg/appmanager/apps.go:190-201 | a deployment listing error is returned first, else a cron job listing error, each with the applications unchanged; when both listings succeed there is no error and the applications are replaced by their grouping |
| AppManager.Init | pkg/appmanager/apps.go:90-99 | the applications start empty, so a failed scan leaves none |
| AppManager.Deploy | pkg/appmanager/apps.go:102-104 | reports no error |
| RootAppManager.GroupResources | appmanager.go:120-145 | empty inputs give an empty map |
| RootAppManager.GroupResourcesUnnamed | appmanager.go:125-139 | every application keeps the empty name, and the applications are exactly the labels of the inputs |
| RootAppManager.GroupResourcesLists | appmanager.go:120-145 | deployments and cron jobs land in their application's lists in input order, and the totals equal the input lengths |
| RootAppManager.Scan | appmanager.go:150-161 | a deployment listing error is returned first, else a cron job listing error, each with the applications unchanged; when both listings succeed there is no error and the applications are replaced by their (unnamed) grouping |
| Deploy.TypeName | deploy.go:154-163 | "Deployment" exactly for 0, "Cronjob" exactly for 1, and "ERROR" for anything else |
| Deploy.LatestVersion | deploy.go:31-48 | "" for no tags; otherwise a tag of the input, semver-maximal when any tag parses, else lexically maximal |
| Deploy.SlotsOf | deploy.go:171-182 | an unnamed deployment has no slots; a named one has one per container, in order |
| Deploy.ContainerVersions | deploy.go:168-185 | one option per slot of every named deployment, in order, built from that slot; panics exactly when some slot's reference does |
| Deploy.ContainerVersionsSkipsUnnamed | deploy.go:171-173 | deployments with an empty name contribute no option |
| Deploy.ContainerVersionsOfOne | deploy.go:174-182 | a named deployment yields one Deployment option per container, in order, with the container's name and parsed image and no target |
| Deploy.UpgradeOptions | deploy.go:187-199 | a subsequence of the options, in order, each carrying its repository's newest tag. Every kept option has a non-empty target that differs from the running tag as a string, and every such option is kept |
| Deploy.UpgradeOptionsCounts | deploy.go:187-199 | every option worth offering is kept as many times as it is listed |
| Deploy.NewReferenceRoundTrip | deploy.go:233 | the reference written for a choice parses back to the choice's registry, repo and target |
| Deploy.MatchesFromZero | deploy.go:231-232 | no slot matches exactly when the count of matching slots is zero |
| Deploy.Sweep | deploy.go:231-241 | one Update per matching slot (fewer only when one fails), each sending the deployment with the slots so far pointed at the new reference; without an error, the last Update carries all of them |
| Deploy.UpdateDeployment | deploy.go:226-255 | a failing Get makes no Update. Otherwise one Update per matching slot unless one fails, and the last sends every matching slot pointed at `Registry/Repo:Latest` |
| Deploy.UpdateDeploymentNoMatch | deploy.go:231-241 | with no matching slot, no Update is made and no error is reported |
| Deploy.UpdateDeploymentSendsPatches | deploy.go:231-241 | every Update sends the fetched deployment with only slots of the chosen name changed, and those point at the new reference |
| Progress.FormatProgress | pkg/ecr/push.go:114-120 | the ID, then ": ", then the progress bar, or the status when there is no bar |
| Progress.FormatProgressRoundTrip | pkg/ecr/push.go:114-120 | an ID without ':' and the text shown after it can be read back from the line |
| Progress.Itoa | pkg/ecr/push.go:138 | `%d`: the decimal digits of the number, read back to its value, with '-' before a negative one |
| Progress.DigitsValue | pkg/ecr/push.go:138 | reading the digits back gives the number |
| Progress.UpdateLine | pkg/ecr/push.go:135-141 | the move to the start of the line and up, then the message, then the move down, in that order |
| Progress.UpdateLineEscapes | pkg/ecr/push.go:135-141 | a redrawn line has exactly three escape characters besides the message's own |
| Progress.Update | pkg/ecr/push.go:144-155 | an empty ID changes nothing and prints nothing. A known ID keeps the display and redraws its line `lines - bars[id]` lines up. A new ID gets the next line, the count grows by one, and the ID is printed |
| Progress.UpdateWf | pkg/ecr/push.go:144-155 | an update keeps one line per ID, with the IDs occupying lines 0 to lines-1 one to one |
| Progress.OffsetInRange | pkg/ecr/push.go:148 | under that invariant, the cursor offset for a known ID lies in [1, lines] |
| Progress.RunWf | pkg/ecr/push.go:163-177 | from the empty display the invariant holds after any stream |
| Progress.RunKeys | pkg/ecr/push.go:144-155 | the known IDs are those present at the start plus the non-empty IDs of the stream |
| Progress.RunLines | pkg/ecr/push.go:163-177 | a push draws exactly one line per distinct non-empty ID |

## Left out

- Kubernetes client-go I/O (`getClientSet`, `getClusterConfig`, `homeDir`, pkg/apps/util.go, pkg/appmanager/util.go): each call is a function of `Kube.Client<W>` over an abstract cluster state.
- `NewAppManager` (pkg/apps/apps.go:50-63), `NewImageManager` (pkg/imagemanager/apps.go:87-99) and the root package's `Init` (appmanager.go:58-66): these build a client set, which is not modelled. What follows it is. The root `Init` never assigns `Apps`, so it is `RootAppManager.Scan` over the applications already there: a failed scan keeps them, or the nil map. Only pkg/appmanager's `Init` starts from an empty map before it scans, as `AppManager.Init` states.
- The semver library's parsing grammar: it is the parameter `parse`; only precedence (Semantic Versioning 2.0.0, item 11) is defined.
- EcrUtil.GreatestSemver: `sort.Sort` is not stable, so among tags of equal precedence the source may return any spelling. The model returns the later one, and `LatestIgnoresOrder` promises only the same parsed version.
- AWS ECR, IAM and session code, `getLatestImage`, and tag paging: the tag lists and the repository-to-tag map are inputs.
- Docker login, tagging, the push stream, and `getNextLine`: `Progress.Run` folds `Update` over a given sequence of decoded lines. The push loop's exit on a message with an error is not modelled.
- `ProgressDetail` of a push line: the display never reads it.
- The CLI, configuration, `displayChoices`, `getChosen` (stdin), `Execute`, the chooser prompt, Slack webhooks and autodeploy.py.
- pkg/resources/deployment.go does not compile. It is not part of this model: `Resources.Register` takes the Deployment manager as a parameter.
- `getUpgradeChoices` (deploy.go:201-218) does not compile.
- Console printing inside `Upgrade`, `Scan`, `parse` and the other operations.
- Go map iteration order: `Apps.GetChangeSets` returns the change sets in an unspecified order. `App.GetImages` and `ImageManager.GetImages` are not modelled beyond that.
- Apps.Scan: the source calls `rm.Resources(mgr)`, a field `ResourceManager` does not declare. The model uses the manager's `Fetcher`, which is what the field evidently stands for.
- Apps.Scan: a generator panic ends the process in the source. The model returns it as an error, with only the kinds before the failing one added.
- The process-ending panics (two or more '/' in a reference, a kind with no manager) are `Err(Panicked(..))` results rather than aborts.
- Strs: Go strings are byte sequences and the model's are character sequences. `strings.Split` and `sort.Strings` agree on the two for the one-byte separators '/' and ':' and for byte order, which UTF-8 preserves. Lengths and indices would differ on non-ASCII text, but no operation of the model exposes them.
- Deploy.LatestVersion: on the fallback path deploy.go:46 sorts the caller's slice in place; the model returns only the tag. Its one caller, `getLatestImage` in image.go, discards the slice afterwards. `EcrUtil.LatestVersion` models the same effect for pkg/ecr/util.go.
- Go's `int` in `ResourceType` and in the progress display is unbounded here. The values involved (0, 1, and the line counts) never approach its limits.

/** The root package's copy of the oldest engine (appmanager.go, image.go).
    Its types, `newImage`, `makeContainerList` and listing loops are those of
    pkg/appmanager and are used from `AppManager`; its `groupResources`
    never sets an application's name. */
module RootAppManager {
  import opened Wrappers
  import Kube
  import Folds
  import AppManager

  type App = AppManager.App
  type Resource = AppManager.Resource

  /** `groupResources` of the root package: applications keep Go's zero
      name "". */
  function GroupResources(deployments: seq<Resource>, cronjobs: seq<Resource>): (r: map<string, App>)
    ensures |deployments| == 0 && |cronjobs| == 0 ==> r == map[]
  {
    AppManager.Group(deployments, cronjobs, false)
  }

  /** Every application the root package groups has the empty name, and the
      applications present are exactly the labels of the inputs. */
  lemma GroupResourcesUnnamed(deployments: seq<Resource>, cronjobs: seq<Resource>)
    ensures forall a :: a in GroupResources(deployments, cronjobs) ==> GroupResources(deployments, cronjobs)[a].name == ""
    ensures forall a :: a in GroupResources(deployments, cronjobs) <==>
              (exists i :: 0 <= i < |deployments| && deployments[i].app == a) ||
              (exists i :: 0 <= i < |cronjobs| && cronjobs[i].app == a)
  {
    AppManager.GroupKeys(deployments, cronjobs, false);
  }

  /** Deployments go to the Deployments list and cron jobs to the Cronjobs
      list of their application, in input order, and none is lost. */
  lemma GroupResourcesLists(deployments: seq<Resource>, cronjobs: seq<Resource>, a: string)
    ensures AppManager.ListOf(GroupResources(deployments, cronjobs), a, true) == Folds.Concat(AppManager.Pick(a), deployments)
    ensures AppManager.ListOf(GroupResources(deployments, cronjobs), a, false) == Folds.Concat(AppManager.Pick(a), cronjobs)
    ensures AppManager.Total(GroupResources(deployments, cronjobs), true) == |deployments|
    ensures AppManager.Total(GroupResources(deployments, cronjobs), false) == |cronjobs|
  {
    AppManager.GroupLists(deployments, cronjobs, false, a);
    AppManager.GroupCounts(deployments, cronjobs, false, true);
    AppManager.GroupCounts(deployments, cronjobs, false, false);
  }

  /** `Scan` of the root package: a deployment listing error, else a cron
      job listing error, returns with the applications unchanged; when both
      listings succeed they are replaced by the grouping and no error is
      returned. */
  function Scan<W>(apps: map<string, App>, deployClient: Kube.Client<W>, cronClient: Kube.Client<W>, w: W)
    : (r: AppManager.ScanOutcome)
    ensures AppManager.ScanKind(deployClient, w).Err? ==>
              r == AppManager.ScanOutcome(apps, Some(AppManager.ScanKind(deployClient, w).error))
    ensures AppManager.ScanKind(deployClient, w).Ok? && AppManager.ScanKind(cronClient, w).Err? ==>
              r == AppManager.ScanOutcome(apps, Some(AppManager.ScanKind(cronClient, w).error))
    ensures AppManager.ScanKind(deployClient, w).Ok? && AppManager.ScanKind(cronClient, w).Ok? ==>
              r == AppManager.ScanOutcome(GroupResources(AppManager.ScanKind(deployClient, w).value,
                                                         AppManager.ScanKind(cronClient, w).value), None)
    ensures r.err.Some? ==> r.apps == apps
    ensures r.err.None? ==>
              && AppManager.ScanKind(deployClient, w).Ok? && AppManager.ScanKind(cronClient, w).Ok?
              && r.apps == GroupResources(AppManager.ScanKind(deployClient, w).value,
                                          AppManager.ScanKind(cronClient, w).value)
  {
    AppManager.ScanWith(apps, deployClient, cronClient, w, false)
  }
}

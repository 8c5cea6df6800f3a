/** The Helm, SystemInstance, workload and API-instance reconcilers on their shared stores, and their
    events. */
module HelmSensor {
  import opened Text
  import opened Registry
  import opened Landscape
  import opened ReferenceFindings
  import opened HelmRelease
  import opened HelmLaws

  class Sensor {
    const model: Model
    const index: NameIndex
    const releases: HelmReleaseReconciler
    const customs: SystemInstanceReconciler
    const workloads: WorkloadReconciler
    const apiInstances: APIInstanceReconciler

    ghost predicate Valid() {
      && releases.model == customs.model == workloads.model == apiInstances.model == model
      && releases.index == customs.index == workloads.index == apiInstances.index == index
    }

    ghost function View(): Helm
      reads model, index, releases
    {
      ViewOf(model, index, releases.latestRevision)
    }

    constructor (model: Model, index: NameIndex)
      ensures Valid() && this.model == model && this.index == index
      ensures fresh(releases) && View() == ViewOf(model, index, map[])
    {
      var r := new HelmReleaseReconciler(model, index);
      var s := new SystemInstanceReconciler(model, index);
      var w := new WorkloadReconciler(model, index);
      var a := new APIInstanceReconciler(model, index);
      this.model, this.index, releases, customs, workloads, apiInstances := model, index, r, s, w, a;
    }

    /** The event says truly which referenced entities the model knows. */
    ghost predicate Truthful(e: Event)
      reads model
    {
      match e
      case InstanceEvent(onApi, _, Found(obj), known) =>
        known == (obj.Ref() in if onApi then model.apis else model.components)
      case SecretSeen(secret, known, _) => known == (secret.systemRef in model.systems)
      case _ => true
    }

    method HandleInstance(onApi: bool, name: string, got: Got, ghost known: bool)
      requires Valid() && Truthful(InstanceEvent(onApi, name, got, known))
      modifies index`names, model`componentInstances, model`apiInstances, model`findings, model`history
      ensures index.OnlyKinds({KindComponentInstance, KindAPIInstance})
      ensures View() == OnInstance(old(View()), onApi, name, got, known)
    {
      hide InstanceFound, InstanceGone;
      match got
      case Found(obj) =>
        if onApi {
          apiInstances.ReconcileFound(name, obj);
        } else {
          workloads.ReconcileFound(name, obj);
        }
      case NotFound =>
        if onApi {
          apiInstances.ReconcileGone(name);
        } else {
          workloads.ReconcileGone(name);
        }
    }

    method HandleCustom(name: string, resource: Option<CustomResource>)
      requires Valid()
      modifies index`names, model`systemInstances
      ensures index.OnlyKinds({KindSystemInstance})
      ensures View() == OnCustom(old(View()), name, resource)
    {
      hide CustomFound, CustomGone;
      match resource
      case Some(r) => customs.ReconcileFound(name, r, releases.latestRevision);
      case None => customs.ReconcileGone(name, releases.latestRevision);
    }

    /** Any event: the reconcilers on the shared stores do what the machine does. */
    method Handle(e: Event)
      requires Valid() && Truthful(e) && !e.Elsewhere?
      modifies releases`latestRevision, index`names, index`helmOwner
      modifies model`systemInstances, model`componentInstances, model`apiInstances, model`findings, model`history
      ensures index.OnlyKinds({KindSystemInstance, KindComponentInstance, KindAPIInstance})
      ensures View() == Step(old(View()), e)
    {
      hide OnInstance, OnCustom, SecretFound, SecretGone;
      match e
      case InstanceEvent(onApi, name, got, known) => HandleInstance(onApi, name, got, known);
      case SecretSeen(secret, _, addFails) => releases.ReconcileFound(secret, addFails);
      case SecretLost(namespace, name) => releases.ReconcileGone(namespace, name);
      case Startup(secrets) => releases.PopulateLatestRevisions(secrets);
      case CustomEvent(name, resource) => HandleCustom(name, resource);
    }
  }
}

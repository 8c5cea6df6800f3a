/** The landscape model the sensor feeds: id-keyed stores with add (insert or replace), delete and
    get. The model server itself is not part of this model; its stores are taken at their interface. */
module Landscape {
  import opened Uuids
  import opened Registry

  datatype Artifact = Artifact(displayName: string, hash: string)
  datatype ArtifactInstance = ArtifactInstance(displayName: string, artifact: Uuid, locations: seq<string>)
  datatype Role = Role(displayName: string, roleSpec: Uuid)
  datatype Subject = NoSubject | Identity(identity: Uuid) | Group(group: Uuid)
  datatype Binding = Binding(displayName: string, role: Uuid, subject: Subject)
  datatype SystemInstance = SystemInstance(displayName: string, chart: string)

  /** An API instance or a component instance. `ref` is the API or Component it instantiates (Nil for
      none), `annotated` the SystemInstance its own annotation names (Nil for none), and
      `systemInstance` the SystemInstance it is attached to (Nil for none). */
  datatype Instance = Instance(displayName: string, ref: Uuid, annotated: Uuid, systemInstance: Uuid)

  datatype ResourceType =
    | ArtifactResource | BindingResource | RoleResource | SystemResource | SystemInstanceResource
    | APIResource | APIInstanceResource | ComponentResource | ComponentInstanceResource | ContextResource | NodeResource

  datatype ResourceRef = ResourceRef(id: Uuid, resourceType: ResourceType)
  datatype FindingType = OfKind(kind: FindingKind) | MissingSubjectAnnotation | MissingRoleSpecAnnotation
  datatype Finding = Finding(findingType: FindingType, resources: seq<ResourceRef>)

  /** From f to g one finding is set or cleared, and no other changes. */
  ghost predicate FindingIs(f: map<Uuid, Finding>, g: map<Uuid, Finding>, id: Uuid, present: bool, content: Finding) {
    && (forall x | x != id :: SameAt(f, g, x))
    && if present then MapsTo(g, id, content) else id !in g
  }

  class Model {
    var artifacts: map<Uuid, Artifact>
    var artifactInstances: map<Uuid, ArtifactInstance>
    var findings: map<Uuid, Finding>
    var roles: map<Uuid, Role>
    var bindings: map<Uuid, Binding>
    var systemInstances: map<Uuid, SystemInstance>
    var componentInstances: map<Uuid, Instance>
    var apiInstances: map<Uuid, Instance>
    var systems: set<Uuid>
    var apis: set<Uuid>
    var components: set<Uuid>
    /** A history of the findings, one entry for every write by a reconciler of reference findings. */
    ghost var history: seq<map<Uuid, Finding>>

    constructor ()
      ensures artifacts == map[] && artifactInstances == map[] && findings == map[] && roles == map[]
        && bindings == map[]
      ensures systemInstances == map[] && componentInstances == map[] && apiInstances == map[] && history == []
    {
      artifacts, artifactInstances, findings, roles, bindings := map[], map[], map[], map[], map[];
      systemInstances, componentInstances, apiInstances := map[], map[], map[];
      systems, apis, components, history := {}, {}, {}, [];
    }
  }
}

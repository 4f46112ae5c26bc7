/** The records of the current engine (pkg/apps): image and container
    identities, containers, change sets, and the per-kind resource manager. */
module AppsTypes {
  import opened Wrappers

  /** An image family: registry and repository, without a tag. */
  datatype ImageIdentifier = ImageIdentifier(repo: string, registry: string)

  /** A container slot: the owning resource's name and the container's name. */
  datatype ContainerIdentifier = ContainerIdentifier(resource: string, container: string)

  /** One container found in the cluster, with the version it currently runs. */
  datatype Container = Container(containerId: ContainerIdentifier, imageId: ImageIdentifier, app: string, current: string)

  /** The containers of one application that use one image family, kept per
      workload kind, with the upgrade decision for them. */
  datatype ChangeSet = ChangeSet(
    imageId: ImageIdentifier,
    needsUpdate: bool,
    updateTo: string,
    containers: map<string, seq<Container>>)

  /** What a workload kind plugs into the engine: how to list its raw items in
      cluster state `W`, how to turn one item into containers (an `Err` is a
      panic while parsing an image), and how to upgrade one container. */
  datatype ResourceManager<!Item, !W> = ResourceManager(
    kind: string,
    fetcher: W -> Result<seq<Item>>,
    generator: Item -> Result<seq<Container>>,
    upgrade: (W, ChangeSet, Container) -> (W, Option<Error>))
}

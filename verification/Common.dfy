/** Types shared by the models of the controllers. */
module Common {

  datatype Option<+T> = None | Some(value: T)

  /** A Helm release is identified by its namespace and its name. */
  datatype Release = Release(namespace: string, name: string)

  /** The two kinds of profile that own ClusterSummaries. */
  datatype ProfileKind = ClusterProfile | Profile
}

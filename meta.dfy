/** The parts of the Kubernetes object metadata that the core reads. */
module Meta {

  /** The namespace of cluster system components. */
  const NamespaceSystem: string := "kube-system"
  /** The namespace readable by everyone. */
  const NamespacePublic: string := "kube-public"

  /** An object's metadata; a nil label map is the empty map. */
  datatype ObjectMeta = ObjectMeta(
    name: string,
    namespace: string,
    labels: map<string, string>,
    annotations: map<string, string>)
}

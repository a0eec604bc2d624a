/** References to namespaced Kubernetes objects (api/v1/common_types.go). */
module Resources {

  datatype Option<+T> = None | Some(value: T)

  /** A name with its namespace; it doubles as the key under which an object is stored. */
  datatype ResourceRef = ResourceRef(name: string, namespace: string) {
    predicate IsZero() {
      name == "" && namespace == ""
    }
  }

  /** An object of any kind. */
  datatype ObjectKey = ObjectKey(kind: string, namespace: string, name: string)

  const NO_REF := ResourceRef("", "")

  /** An empty namespace defaults to the namespace of the object that holds the reference. */
  function Resolve(ref: ResourceRef, ownerNamespace: string): ResourceRef {
    if ref.namespace == "" then ref.(namespace := ownerNamespace) else ref
  }

  /** A bare name means another object to every namespace, and a full reference the same to all. */
  lemma ReferenceIsRelative(ref: ResourceRef, a: string, b: string)
    ensures Resolve(ref, a).name == ref.name
    ensures Resolve(ref, a).namespace == a <==> ref.namespace == "" || ref.namespace == a
    ensures a != b ==> (Resolve(ref, a) == Resolve(ref, b) <==> ref.namespace != "")
  {
  }

  /** Where a database listens, and the Secret with its passwords. */
  datatype ServerAddress = ServerAddress(host: string, port: int, secretName: string)

  /** The labels of objects, by namespace and name. */
  type Labelled = map<ResourceRef, map<string, string>>
}

/** The slice of the Kubernetes object machinery that the controller touches:
    optional values, API errors, object metadata and owner references. */
module Apimachinery {

  datatype Option<+T> = None | Some(value: T)

  /** An error returned by the API server or by a client-side helper.
      Only "is it NotFound?" is ever inspected by the controller. */
  datatype Error = NotFound(message: string) | Other(message: string)

  /** client.IgnoreNotFound: a NotFound error becomes nil, any other error is kept. */
  function IgnoreNotFound(e: Error): (r: Option<Error>)
    ensures r.None? <==> e.NotFound?
    ensures r.Some? ==> r.value == e
  {
    if e.NotFound? then None else Some(e)
  }

  /** The namespace/name key of an object. */
  datatype NamespacedName = NamespacedName(namespace: string, name: string)

  /** A back-reference from a dependent object to the object that owns it. */
  datatype OwnerReference = OwnerReference(
    kind: string,
    name: string,
    uid: string,
    controller: bool,
    blockOwnerDeletion: bool)

  datatype ObjectMeta = ObjectMeta(
    name: string,
    namespace: string,
    uid: string,
    labels: map<string, string>,
    annotations: map<string, string>,
    ownerReferences: seq<OwnerReference>)
  {
    function Key(): NamespacedName {
      NamespacedName(namespace, name)
    }
  }

  /** An int-or-string value, as used for service and target ports. */
  datatype IntOrString = IntVal(i: int) | StrVal(s: string)
}

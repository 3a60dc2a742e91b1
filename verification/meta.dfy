/** Vocabulary shared by every object the reconciler reads or writes: Go's
    `int32`, optional and fallible values, and the object metadata of the
    cluster API. */
module Meta {

  /** Go's `int32`. Every numeric field of the declaration and of its
      dependents has this width; the reconciler only copies and compares
      them, so no arithmetic wrap-around arises. */
  type Int32 = x: int | -0x8000_0000 <= x < 0x8000_0000

  /** A nil-able pointer or an unset field. */
  datatype Option<+T> = None | Some(value: T)

  /** A value or the error that replaced it (Go's `(T, error)` pair). */
  datatype Result<+T, +E> = Ok(value: T) | Err(error: E)

  /** A label or annotation set. */
  type StringMap = map<string, string>

  /** The back-reference `SetControllerReference` stamps on a dependent: the
      owning declaration's kind and name. Owner references are
      namespace-local, so kind and name identify the owner. */
  datatype OwnerRef = OwnerRef(kind: string, name: string)

  /** The part of `metav1.ObjectMeta` the reconciler reads or writes. */
  datatype ObjectMeta = ObjectMeta(
    name: string,
    namespace: string,
    labels: StringMap,
    annotations: StringMap,
    owner: Option<OwnerRef>)
}

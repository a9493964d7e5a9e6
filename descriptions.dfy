/** The value seen through `IReferenceDescription`: one model element (the source)
    refers to another (the target) through an `EReference`, possibly at a position of
    a multi-valued feature. Every reference field may be null. */
module Descriptions {
  import opened Options
  import opened Uris

  /** Java's 32-bit `int`. */
  newtype Int32 = x: int | -0x8000_0000 <= x < 0x8000_0000

  /** An `EReference` of the Ecore meta model, kept as an opaque identity. */
  datatype EReference = EReference(id: nat)

  datatype ReferenceDescription = ReferenceDescription(
    source: Option<Uri>,
    target: Option<Uri>,
    container: Option<Uri>,
    eReference: Option<EReference>,
    indexInList: Int32)
}

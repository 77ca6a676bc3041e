/** Value types shared by the catalog model. */
module Types {

  /** An optional value; `None` plays the part of `null`. */
  datatype Option<+T> = None | Some(value: T)

  /** The attributes of a product other than its identifier, which this model never inspects. */
  type Details

  /**
   * A product record. The catalog only ever looks at `id`; everything else the
   * application stores about a product is kept opaque in `details`.
   */
  datatype Product = Product(id: string, details: Details)
}

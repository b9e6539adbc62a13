/**
 * Value shapes shared by the front-end components: the table row (`CustomFile`),
 * the dropdown option (`OptionType`), and the two kinds of absence a JavaScript
 * value can have.
 */
module Types {

  /** A JavaScript value that may be missing in two distinct ways.
      `null` and `undefined` are equal under `==` and under `??`, but not under `===`. */
  datatype Nullable<T> = Val(value: T) | Null | Undefined {

    /** `x ?? d`: the value itself unless it is null or undefined. */
    function OrElse(d: T): (r: T)
      ensures Val? ==> r == value
      ensures !Val? ==> r == d
    {
      match this
      case Val(v) => v
      case _ => d
    }
  }

  datatype Option<T> = None | Some(value: T)

  /** A dropdown entry. */
  datatype OptionType = OptionType(value: string, labelText: string)

  /** One row of the file table, as built from a backend source node.
      `id` (a fresh random UUID in the source) is not part of this model. */
  datatype CustomFile = CustomFile(
    name: string,
    size: int,
    fileType: string,
    nodesCount: int,
    processing: string,
    relationshipCount: int,
    status: string,
    model: string,
    sourceUrl: Nullable<string>,
    fileSource: string,
    gcsBucket: Nullable<string>,
    gcsBucketFolder: Nullable<string>,
    errorMessage: Nullable<string>,
    uploadProgress: int
  )
}

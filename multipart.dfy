/**
 * The multipart/form-data body both notifiers assemble with OkHttp's `MultipartBuilder`, reduced to
 * its parts in the order they were added.
 */
module Multipart {
  import opened Common

  /**
   * One part: a text field (`addFormDataPart(name, value)`) or a binary file part with
   * content type application/octet-stream (`addFormDataPart(name, filename, body)`).
   */
  datatype Part =
    | FormField(name: string, value: string)
    | FormFile(name: string, filename: string, contents: seq<byte>)

  /** A builder whose parts accumulate; `Build` snapshots what has been added so far. */
  class MultipartBuilder {
    var parts: seq<Part>

    constructor ()
      ensures parts == []
    {
      parts := [];
    }

    method AddFormDataPart(p: Part)
      modifies this
      ensures parts == old(parts) + [p]
    {
      parts := parts + [p];
    }

    /** `build()`: the body holds the parts added up to now. */
    function Build(): seq<Part>
      reads this
    {
      parts
    }
  }
}

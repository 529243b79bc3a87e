/** Failure-compatible results for the decoder's structural errors. */
module Results {

  /** The structural errors that abort a decode. */
  datatype Error =
    | BadMagic        // a magic tag differs from the expected one
    | Truncated       // a read ran past the end of the bytes
    | BadSeek         // a seek to a negative position
    | SizeMismatch    // a subfile did not decompress to its declared size
    | BadCompression  // the compressed block could not be decompressed
    | IndexOutOfRange // a list index past the end of the list
    | MissingKey      // a dictionary lookup of an absent key
    | NotInList       // removal of a value that is not in the list
    | WrongExtension  // a skeleton file whose extension is not the game's
    | Unsupported     // a skeleton format the importer does not read yet
    | UnknownFormat   // a skeleton format name the importer has no branch for
    | CountMismatch   // skeleton tables that disagree on the bone count
    | NoSkeleton      // a skeleton archive without a usable skeleton

  datatype Option<+T> = None | Some(value: T)

  datatype Result<+T> = Success(value: T) | Failure(error: Error) {
    predicate IsFailure() {
      Failure?
    }

    function PropagateFailure<U>(): Result<U>
      requires Failure?
    {
      Failure(error)
    }

    function Extract(): T
      requires Success?
    {
      value
    }
  }

  /** A step that either succeeds without a value or fails. */
  datatype Outcome = Pass | Fail(error: Error) {
    predicate IsFailure() {
      Fail?
    }

    function PropagateFailure<U>(): Result<U>
      requires Fail?
    {
      Failure(error)
    }
  }
}

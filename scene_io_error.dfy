/** The Rust library's error type, and how an operation of that library can end
    without a value: by returning one of those errors or by panicking. */
module SceneIOErrors {

  /** `SceneIOError`: each variant carries the text it is displayed with. */
  datatype SceneIOError =
    | FailedToEncode(description: string)
    | FailedToDecode(description: string)
    | IOError(source: string)
    | FailedToReadObj(description: string)

  /** A returned error, or a panic (an out-of-bounds index, a failed `expect`). */
  datatype Failure =
    | Raised(error: SceneIOError)
    | Panicked(reason: string)

  const IndexOutOfBounds := "index out of bounds"
}

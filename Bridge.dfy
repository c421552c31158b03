/** What crosses the React Native bridge from a native module: how a
    promise is settled (`resolve(value)` or `reject(code, message, error)`),
    and what the native side learns about an image file. */
module Bridge {

  /** One settlement of a bridge promise. */
  datatype Reply = Resolved(value: string) | Rejected(code: string, message: string)

  /** The checks made on an image path, in the order the modules make
      them: the file exists, its bytes decode to an image, and that image
      converts to a bitmap the engine accepts. */
  datatype ImageFile = ImageFile(present: bool, decodes: bool, converts: bool)
}

/** The exceptions raised by the data loaders and the evaluation helpers. */
module Exceptions {

  datatype Error =
      /** The project's ConfigError: a required key is missing from a config section. */
    | ConfigError(field: string, section: string)
      /** The project's FileTypeError: a file whose extension is not a delimited type. */
    | FileTypeError
      /** A path that is neither a directory nor a file. */
    | FileNotFoundError(path: string)
      /** The base loader does not know how to read any storage format. */
    | NotImplementedError
      /** A dict lookup of a key the dict does not hold. */
    | KeyError(key: string)
      /** A list indexed at or past its length. */
    | IndexError
      /** A division by zero. */
    | ZeroDivisionError
      /** `max` applied to an empty collection. */
    | ValueError
}

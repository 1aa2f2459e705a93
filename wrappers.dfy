/** The optional-value datatype the TypeScript sources express with `T | undefined` or `T | null`. */
module Wrappers {

  datatype Option<+T> = None | Some(value: T)
  {
    /** The value, or `otherwise` when there is none. */
    function GetOr(otherwise: T): T
    {
      if Some? then value else otherwise
    }
  }
}

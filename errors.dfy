/** The exceptions that escape the pipeline, each tagged with the function being documented. */
module Errors {

  datatype Error =
      /** AttributeError: a type hint without `__name__` where no fallback exists. */
    | NoTypeName(funcName: string)
      /** TypeError: the `in` test of a documented argument against a parameter map that is `None`. */
    | NoParamTypeMap(funcName: string)
      /** AttributeError: `.replace` called on a description the parser left out. */
    | NoDescription(funcName: string)
      /** Whatever the docstring parser raised, passed on unchanged. */
    | ParseFailed(funcName: string, message: string)
}

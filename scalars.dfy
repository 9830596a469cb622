/** Configuration of one custom scalar (`ScalarData` in `scalars.py`). */
module Scalars {
  import opened Wrappers

  /**
   * `targetType` is the Python type a custom scalar maps to; `serialize` names
   * the function applied to a parameter of that scalar in the variables payload.
   */
  datatype ScalarData = ScalarData(targetType: string, serialize: Option<string>)
}

/** Optional values: a pandas cell that may be missing (NaN / None). */
module Options {
  datatype Option<+T> = None | Some(value: T)
}

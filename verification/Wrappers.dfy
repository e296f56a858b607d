module Wrappers {
  datatype Option<+T> = None | Some(value: T)

  /** A Go map lookup: the empty string stands for a missing key. */
  function Lookup(m: map<string, string>, key: string): string {
    if key in m then m[key] else ""
  }
}

/** Shared vocabulary: optional values and word-addressed memory with a default content. */
module Cells {
  datatype Option<+T> = None | Some(value: T)

  /** The content of cell `k`; a cell nobody has written yet holds `d`. */
  function At<K, V>(m: map<K, V>, k: K, d: V): V {
    if k in m then m[k] else d
  }
}

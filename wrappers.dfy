/** An optional value: the file `LoadMesh` reads, `None` when it cannot
    be opened, and the first property-table entry found for a key. */
module Wrappers {

  datatype Option<+T> = None | Some(value: T)
}

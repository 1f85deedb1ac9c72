// An optional value, for arguments the source lets callers omit and for
// results that do not exist on an error path.
module Options {

  datatype Option<+T> = None | Some(value: T)
}

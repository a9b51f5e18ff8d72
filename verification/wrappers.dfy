/** Optional values: a C# reference that may be `null`, or a Unity object that
    may have been destroyed (a destroyed object compares equal to `null`). */
module Wrappers {
  datatype Option<T> = None | Some(value: T)
}

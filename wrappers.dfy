/** Python's `None`-or-value, used for optional inputs (a missing API key, an absent
    `user_data` dictionary, an absent image, a generation that raised). */
module Wrappers {

  datatype Option<T> = None | Some(value: T)

}

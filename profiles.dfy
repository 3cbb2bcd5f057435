/** The request's `user_data` dictionary as both reply paths read it. */
module Profiles {

  /** Keys to string values (`name`, `gender`). Values of other types, such as the integer
      `age` of the local default profile, are not represented: nothing reads them. */
  type Profile = map<string, string>

}

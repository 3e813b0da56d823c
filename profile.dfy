/** The user record both models read (`user_info`). */
module Profiles {

  /** Name, gender, age and years of service; the caller has already
      parsed age and service years as integers. */
  datatype Profile = Profile(name: string, gender: string, age: int, serviceYears: int)
}

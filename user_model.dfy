/** The fields of a user document the core reads and writes, and the role enum. */
module UserModel {
  import opened Common

  /** `role`: a creator (`mitra`) or a donor (`donatur`). */
  datatype Role = Mitra | Donatur

  /** The role enum validator. */
  function ParseRole(name: string): (r: Option<Role>)
    ensures r == Some(Mitra) <==> name == "mitra"
    ensures r == Some(Donatur) <==> name == "donatur"
  {
    if name == "mitra" then Some(Mitra) else if name == "donatur" then Some(Donatur) else None
  }

  /** A stored user; `password` holds the bcrypt hash the save hook computed. */
  datatype User = User(
    id: Id,
    username: string,
    email: string,
    fullname: string,
    password: string,
    phone: string,
    role: Role,
    refreshToken: Option<string>,
    verification: bool,
    otp: Option<string>,
    otpExpiry: Option<Time>)
}

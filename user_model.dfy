/** Accounts and the requests that create or open them (src/app/models/user.model.ts). */
module UserModel {
  import opened Wrappers
  import opened Dates

  datatype UserRole = Admin | Client

  datatype User = User(id: string, email: string, password: string, name: string, role: UserRole, createdAt: DateTime)

  /** A user without the password: what the session keeps and what login returns. */
  datatype SessionUser = SessionUser(id: string, email: string, name: string, role: UserRole, createdAt: DateTime)

  datatype UserRegisterDto = UserRegisterDto(email: string, password: string, name: string, role: UserRole)

  datatype UserLoginDto = UserLoginDto(email: string, password: string)

  datatype AuthResponse = AuthResponse(user: SessionUser, token: Option<string>)

  /** `const { password, ...rest } = user`. */
  function WithoutPassword(u: User): SessionUser {
    SessionUser(u.id, u.email, u.name, u.role, u.createdAt)
  }
}

/** The records exchanged with the authentication endpoints (types/auth.ts). */
module AuthTypes {
  import opened Wrappers

  /** The authenticated identity. */
  datatype User = User(id: string, email: string, name: string, emailVerified: bool)

  /** What a successful login hands over: the bearer token and the user it belongs to. */
  datatype AuthResponse = AuthResponse(token: string, user: User)

  /** The payload of a successful registration. */
  datatype RegisterData = RegisterData(message: string, userId: string)

  /** The envelope the register endpoint answers with. */
  datatype RegisterResponse = RegisterResponse(success: bool, data: Option<RegisterData>, error: Option<string>)

  /** The generic `{success, data?, error?}` envelope. */
  datatype ApiResponse<T> = ApiResponse(success: bool, data: Option<T>, error: Option<string>)
}

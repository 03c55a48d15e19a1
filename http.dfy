/** The HTTP errors that the service's endpoints raise (FastAPI's HTTPException). */
module Http {

  datatype HttpError = HttpError(status: int, detail: string)

  /** Raised by `get_current_user` when the bearer token does not validate. */
  const CouldNotValidate := HttpError(401, "Could not validate credentials")
  /** Raised by `get_current_user` when the token names no stored user. */
  const UserNotFound401 := HttpError(401, "User not found")
}

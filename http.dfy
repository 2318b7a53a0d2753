/** The error a FastAPI handler raises: `HTTPException(status_code, detail)`. */
module Http {
  datatype HttpException = HttpException(status: int, detail: string)
}

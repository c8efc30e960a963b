/** HTTP status codes (RFC 9110) and the ResponseEntity a controller returns. */
module Http {
  /** 200 OK, section 15.3.1 of RFC 9110. */
  const Ok: int := 200
  /** 400 Bad Request, section 15.5.1 of RFC 9110. */
  const BadRequest: int := 400
  /** 413 Content Too Large, section 15.5.14 of RFC 9110. */
  const PayloadTooLarge: int := 413
  /** 415 Unsupported Media Type, section 15.5.16 of RFC 9110. */
  const UnsupportedMediaType: int := 415
  /** 500 Internal Server Error, section 15.6.1 of RFC 9110. */
  const InternalServerError: int := 500

  /** `ResponseEntity.status(status).body(body)`. */
  datatype Response<B> = Response(status: int, body: B)
}

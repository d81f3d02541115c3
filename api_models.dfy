/**
 * Stand-ins for the collaborator types of app/model/api_models.py, whose source is not part of
 * this model: the response type, the outcome of one call to the generation backend, and the
 * backend's builder of default responses.
 */
module ApiModels {

  /** A response: its text, its HTTP status and whether it was served from the response cache. */
  datatype ApiResponse = ApiResponse(text: string, status: int, cached: bool)

  /** What one call of `generate` does: it returns a response or raises `GeneratorException`. */
  datatype Generation = Generated(response: ApiResponse) | GeneratorException(message: string)

  /** `generate_default_api_response(message, status)`: a fresh, uncached response. */
  function DefaultResponse(message: string, status: int): (r: ApiResponse)
  {
    ApiResponse(message, status, false)
  }
}

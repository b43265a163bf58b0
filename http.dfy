/** The error the API layer raises (django-ninja's `HttpError`): an HTTP status and the `detail` message. */
module Http {

  datatype HttpErro = HttpErro(status: int, detalhe: string)
}

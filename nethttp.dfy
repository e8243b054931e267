/** The values of Go's net/http that the fetch pipeline reads and builds. */
module NetHttp {
  import opened Wrappers
  import opened Bytes

  /** A Go error, known only by the text of its Error method. */
  datatype Error = Error(message: string)

  /** A response as the client hands it back: the status code, the status
      line text (such as "200 OK"), the header with every value of each
      name, and the outcome of reading the whole body. */
  datatype Response = Response(
    statusCode: int,
    status: string,
    header: map<string, seq<string>>,
    body: Result<seq<byte>, Error>)

  /** The request the pipeline sends: method, URL, the Host it names (by
      default the URL's host), the header (one value per canonical name, as
      Header.Set leaves it) and the optional body. */
  datatype Request = Request(
    httpMethod: string,
    url: string,
    host: string,
    header: map<string, string>,
    body: Option<string>)
}

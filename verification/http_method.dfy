/**
 * The HTTP request methods known to the web framework: the methods of
 * section 4.3 of RFC 7231 (without CONNECT) and PATCH from RFC 5789.
 */
module HttpMethods {

  datatype HttpMethod = GET | HEAD | POST | PUT | PATCH | DELETE | OPTIONS | TRACE
}

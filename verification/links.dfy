/** The unit of work: a URL, an opaque string. */
module Links {

  type Url = string
}

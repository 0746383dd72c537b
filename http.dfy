/** The abstract request and response the dispatch core consumes and produces,
    standing in for hyper's `Request<Body>`, `Response<Body>`, `Method` and `StatusCode`. */
module Http {

  datatype Option<+T> = None | Some(value: T)

  /** The request methods: the four a route can be registered for, and any
      other method by its name. `Other` stands only for names other than
      "GET", "POST", "PUT" and "DELETE"; those four are always written with
      their own constructors, as hyper parses them to its own constants. */
  datatype Method = GET | POST | PUT | DELETE | Other(name: string)

  /** An inbound request: its method (`verb`, as `method` is a keyword), the path part of its URI, and what reading
      its body as text yields (`None` when reading the body fails). */
  datatype Request = Request(verb: Method, path: string, body: Option<string>)

  datatype Response = Response(status: nat, body: string)

  /** The response for a request that no route matches. */
  const NotFound: Response := Response(404, "Not Found")
}

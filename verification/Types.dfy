/** Values shared by every component: optional and failing results, route
    sources and statuses (src/system.py). */
module Types {
  datatype Option<+T> = None | Some(value: T)

  datatype Result<+T> = Ok(value: T) | Err

  datatype SourceCode = STATIC | RIP1 | OSPF | BGP | SLA

  datatype RouteStatus = UP | DOWN | UNKNOWN

  function Min(a: int, b: int): int {
    if a <= b then a else b
  }
}

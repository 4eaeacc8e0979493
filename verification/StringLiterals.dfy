/** The inside of a double-quoted string literal, as JSON and JavaScript write it. */
module StringLiterals {
  /** A backslash and whatever follows it, or one other character. */
  datatype Unit = Pair(c: char) | Lone(c: char)

  predicate UnitOk(u: Unit) {
    u.Lone? ==> u.c != '"' && u.c != '\\'
  }

  predicate BodyOk(body: seq<Unit>) {
    forall u | u in body :: UnitOk(u)
  }

  function Body(body: seq<Unit>): string {
    if body == [] then []
    else (if body[0].Pair? then ['\\', body[0].c] else [body[0].c]) + Body(body[1..])
  }
}

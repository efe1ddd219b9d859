/** Parsed descriptor expressions (`expression::Tree`): a name and its
    arguments, each itself a tree. Turning text into a tree is not part of
    this model; it is supplied as a function where needed. */
module Expression {
  import opened Results
  import opened Miniscript

  datatype Tree = Tree(name: string, args: seq<Tree>)

  /** `expression::terminal`: a leaf is handed to `convert`, whose error
      becomes `Unexpected`; a node with arguments is refused with its name. */
  function Terminal<T>(term: Tree, convert: string -> Result<T, string>): (r: Result<T, Error>)
    ensures r.Ok? <==> term.args == [] && convert(term.name).Ok?
    ensures r.Ok? ==> r.value == convert(term.name).value
    ensures term.args != [] ==> r == Err(Unexpected(term.name))
    ensures term.args == [] && convert(term.name).Err? ==> r == Err(Unexpected(convert(term.name).error))
  {
    if term.args == [] then
      match convert(term.name)
      case Ok(v) => Ok(v)
      case Err(e) => Err(Unexpected(e))
    else
      Err(Unexpected(term.name))
  }
}

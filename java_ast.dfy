/**
 * The part of a parsed Java compilation unit (javalang) the modelled rules
 * look at. Node kinds the rules do not distinguish are `Other`, with their
 * children. A node's children are listed in the order javalang walks them;
 * for a method call, the selectors come before the arguments.
 */
module JavaAst {
  import opened Wrappers
  import opened Findings

  datatype JNode =
    | Invocation(qualifier: string, member: string, arguments: seq<JNode>, selectors: seq<JNode>,
                 position: Option<Position>)
    | Literal(value: string)
    | MethodDecl(name: string, body: seq<JNode>)
    | VarDecl(typeName: string, declarators: seq<string>, initializers: seq<JNode>, position: Option<Position>)
    | Other(children: seq<JNode>)

  /** The position javalang records for a node; None for the kinds that carry none here. */
  function PositionOf(n: JNode): Option<Position> {
    match n
    case Invocation(_, _, _, _, p) => p
    case VarDecl(_, _, _, p) => p
    case _ => None
  }

  /** A compilation unit: the paths of its imports and its type declarations. */
  datatype Tree = Tree(imports: seq<string>, types: seq<JNode>)

  /** A node's children in the order javalang walks them. */
  function Children(n: JNode): seq<JNode> {
    match n
    case Invocation(_, _, args, sels, _) => sels + args
    case MethodDecl(_, body) => body
    case VarDecl(_, _, inits, _) => inits
    case Other(cs) => cs
    case Literal(_) => []
  }

  /**
   * Iterating a node list: each node, then everything below it, depth first.
   * Every listed node and every child of a visited node is visited, so by
   * induction every descendant is.
   */
  function Walk(forest: seq<JNode>): (r: seq<JNode>)
    ensures forall n :: n in forest ==> n in r
    ensures forall n, m :: n in r && m in Children(n) ==> m in r
    ensures |forest| <= |r|
    decreases forest
  {
    if forest == [] then []
    else
      var n := forest[0];
      var below := match n
        case Invocation(_, _, args, sels, _) => Walk(sels) + Walk(args)
        case MethodDecl(_, body) => Walk(body)
        case VarDecl(_, _, inits, _) => Walk(inits)
        case Other(cs) => Walk(cs)
        case Literal(_) => [];
      assert forall x :: x in forest ==> x == n || x in forest[1..];
      [n] + below + Walk(forest[1..])
  }

  /** `for path, node in tree`: every node of the unit in walk order. */
  function Nodes(t: Tree): seq<JNode> {
    Walk(t.types)
  }

  /** `for _, node in method_declaration`: the declaration itself, then its body. */
  function MethodNodes(m: JNode): seq<JNode> {
    Walk([m])
  }

  /** `tree.filter(MethodDeclaration)`: the method declarations, nested ones included, in walk order. */
  function MethodDecls(t: Tree): (r: seq<JNode>)
    ensures forall m :: m in r ==> m.MethodDecl?
  {
    OnlyMethodDecls(Nodes(t))
  }

  function OnlyMethodDecls(ns: seq<JNode>): (r: seq<JNode>)
    ensures forall m :: m in r <==> m in ns && m.MethodDecl?
  {
    if ns == [] then []
    else (if ns[0].MethodDecl? then [ns[0]] else []) + OnlyMethodDecls(ns[1..])
  }
}

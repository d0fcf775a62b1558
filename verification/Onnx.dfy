// A small semantics of ONNX graphs: the operators that the exporter emits, run in
// order. A graph runs only if every node reads names that already exist and writes a
// name that does not.
module Onnx {
  import opened Wrappers
  import opened Tensors

  datatype Tensor =
    | M(m: Matrix)
    | V(v: Row)
    | S(s: real)
    | Bools(bools: seq<bool>)
    | Ints(ints: seq<int>)

  datatype Op = Sub | Div | MatMulOp | Add | Tanh | Mul | ReduceMean | Greater | Cast

  datatype Node<N(==)> = Node(op: Op, inputs: seq<N>, output: N)

  type Env<N(==)> = map<N, Tensor>

  function Lift(r: Option<Matrix>): Option<Tensor> {
    if r.None? then None else Some(M(r.value))
  }

  // A matrix with a vector or with another matrix.
  function Arith(op: Binary, x: Tensor, y: Tensor): Option<Tensor> {
    match (x, y)
    case (M(a), V(v)) => Lift(WithRow(op, a, v))
    case (M(a), M(b)) => Lift(Pairwise(op, a, b))
    case _ => None
  }

  // Mul multiplies elementwise; ReduceMean has keepdims = 0; Cast goes to int64.
  function Eval(tanh: real -> real, op: Op, args: seq<Tensor>): Option<Tensor> {
    match op
    case Sub => if |args| == 2 then Arith(Minus(), args[0], args[1]) else None
    case Div => if |args| == 2 then Arith(Over(), args[0], args[1]) else None
    case Add => if |args| == 2 then Arith(Plus(), args[0], args[1]) else None
    case Mul => if |args| == 2 then Arith(Times(), args[0], args[1]) else None
    case MatMulOp =>
      if |args| == 2 && args[0].M? && args[1].M? then Lift(MatMul(args[0].m, args[1].m)) else None
    case Tanh => if |args| == 1 && args[0].M? then Some(M(Map(tanh, args[0].m))) else None
    case ReduceMean =>
      if |args| == 2 && args[0].M? && args[1] == Ints([1]) && RowMeans(args[0].m).Some?
      then Some(V(RowMeans(args[0].m).value)) else None
    case Greater =>
      if |args| == 2 && args[0].V? && args[1].S?
      then Some(Bools(seq(|args[0].v|, i requires 0 <= i < |args[0].v| => args[0].v[i] > args[1].s))) else None
    case Cast =>
      if |args| == 1 && args[0].Bools?
      then Some(Ints(seq(|args[0].bools|, i requires 0 <= i < |args[0].bools| => if args[0].bools[i] then 1 else 0)))
      else None
  }

  predicate Ready<N>(node: Node<N>, env: Env<N>) {
    (forall i :: 0 <= i < |node.inputs| ==> node.inputs[i] in env) && node.output !in env
  }

  function Fetch<N>(inputs: seq<N>, env: Env<N>): (args: seq<Tensor>)
    requires forall i :: 0 <= i < |inputs| ==> inputs[i] in env
    ensures |args| == |inputs|
  {
    seq(|inputs|, i requires 0 <= i < |inputs| => env[inputs[i]])
  }

  function StepNode<N>(tanh: real -> real, node: Node<N>, env: Env<N>): Option<Env<N>> {
    if !Ready(node, env) then None
    else
      var out := Eval(tanh, node.op, Fetch(node.inputs, env));
      if out.None? then None else Some(env[node.output := out.value])
  }

  function Run<N>(tanh: real -> real, nodes: seq<Node<N>>, env: Env<N>): Option<Env<N>>
    decreases |nodes|
  {
    if nodes == [] then Some(env)
    else
      var next := StepNode(tanh, nodes[0], env);
      if next.None? then None else Run(tanh, nodes[1..], next.value)
  }

  datatype Graph<N(==)> = Graph(inits: seq<(N, Tensor)>, nodes: seq<Node<N>>)

  // The initializers, each under a name of its own.
  function Load<N>(inits: seq<(N, Tensor)>, env: Env<N>): Option<Env<N>>
    decreases |inits|
  {
    if inits == [] then Some(env)
    else if inits[0].0 in env then None
    else Load(inits[1..], env[inits[0].0 := inits[0].1])
  }

  // Running a graph on its inputs.
  function Evaluate<N>(tanh: real -> real, g: Graph<N>, inputs: Env<N>): Option<Env<N>> {
    var env := Load(g.inits, inputs);
    if env.None? then None else Run(tanh, g.nodes, env.value)
  }

  // ----- renaming -----------------------------------------------------------------

  function RenameNode<N, T>(f: N -> T, node: Node<N>): Node<T> {
    Node(node.op, seq(|node.inputs|, i requires 0 <= i < |node.inputs| => f(node.inputs[i])), f(node.output))
  }

  function RenameNodes<N, T>(f: N -> T, nodes: seq<Node<N>>): (r: seq<Node<T>>)
    ensures |r| == |nodes|
  {
    if nodes == [] then [] else [RenameNode(f, nodes[0])] + RenameNodes(f, nodes[1..])
  }

  function RenameInits<N, T>(f: N -> T, inits: seq<(N, Tensor)>): (r: seq<(T, Tensor)>)
    ensures |r| == |inits|
  {
    if inits == [] then [] else [(f(inits[0].0), inits[0].1)] + RenameInits(f, inits[1..])
  }

  lemma {:induction false} RenameAppend<N, T>(f: N -> T, a: seq<Node<N>>, b: seq<Node<N>>)
    ensures RenameNodes(f, a + b) == RenameNodes(f, a) + RenameNodes(f, b)
  {
    if a == [] {
      assert a + b == b;
    } else {
      RenameAppend(f, a[1..], b);
      var first := [RenameNode(f, a[0])];
      assert (a + b)[1..] == a[1..] + b;
      assert RenameNodes(f, a + b) == first + RenameNodes(f, a[1..] + b);
      Regrouped(first, RenameNodes(f, a[1..]), RenameNodes(f, b));
    }
  }

  lemma {:induction false} RenameInitsAppend<N, T>(f: N -> T, a: seq<(N, Tensor)>, b: seq<(N, Tensor)>)
    ensures RenameInits(f, a + b) == RenameInits(f, a) + RenameInits(f, b)
  {
    if a == [] {
      assert a + b == b;
    } else {
      RenameInitsAppend(f, a[1..], b);
      var first := [(f(a[0].0), a[0].1)];
      assert (a + b)[1..] == a[1..] + b;
      assert RenameInits(f, a + b) == first + RenameInits(f, a[1..] + b);
      Regrouped(first, RenameInits(f, a[1..]), RenameInits(f, b));
    }
  }

  lemma Regrouped<T>(a: seq<T>, b: seq<T>, c: seq<T>)
    ensures a + (b + c) == (a + b) + c
  {
  }

  ghost predicate Injective<N(!new), T>(f: N -> T) {
    forall a, b :: f(a) == f(b) ==> a == b
  }

  // The same tensors under new names, and nothing else.
  ghost predicate SameUnder<N(!new), T(!new)>(f: N -> T, env: Env<N>, env': Env<T>) {
    && (forall n :: n in env ==> f(n) in env' && env'[f(n)] == env[n])
    && (forall t :: t in env' ==> exists n :: n in env && f(n) == t)
  }

  ghost predicate SameResult<N(!new), T(!new)>(f: N -> T, r: Option<Env<N>>, r': Option<Env<T>>) {
    (r.None? && r'.None?) || (r.Some? && r'.Some? && SameUnder(f, r.value, r'.value))
  }

  lemma SameAfter<N(!new), T(!new)>(f: N -> T, env: Env<N>, env': Env<T>, n: N, x: Tensor)
    requires Injective(f) && SameUnder(f, env, env')
    ensures n in env <==> f(n) in env'
    ensures SameUnder(f, env[n := x], env'[f(n) := x])
  {
  }

  lemma StepRename<N(!new), T(!new)>(tanh: real -> real, f: N -> T, node: Node<N>, env: Env<N>, env': Env<T>)
    requires Injective(f) && SameUnder(f, env, env')
    ensures SameResult(f, StepNode(tanh, node, env), StepNode(tanh, RenameNode(f, node), env'))
  {
    var node' := RenameNode(f, node);
    forall n ensures n in env <==> f(n) in env' {
    }
    assert forall i :: 0 <= i < |node.inputs| ==> node'.inputs[i] == f(node.inputs[i]);
    if Ready(node', env') {
      assert forall i :: 0 <= i < |node.inputs| ==> node'.inputs[i] in env';
      assert Ready(node, env);
      assert Fetch(node.inputs, env) == Fetch(node'.inputs, env');
      var out := Eval(tanh, node.op, Fetch(node.inputs, env));
      if out.Some? {
        SameAfter(f, env, env', node.output, out.value);
      }
    }
  }

  // An injective renaming changes nothing but the names.
  lemma {:induction false} RunRename<N(!new), T(!new)>(
    tanh: real -> real, f: N -> T, nodes: seq<Node<N>>, env: Env<N>, env': Env<T>)
    requires Injective(f) && SameUnder(f, env, env')
    ensures SameResult(f, Run(tanh, nodes, env), Run(tanh, RenameNodes(f, nodes), env'))
    decreases |nodes|
  {
    if nodes != [] {
      StepRename(tanh, f, nodes[0], env, env');
      var next := StepNode(tanh, nodes[0], env);
      if next.Some? {
        RunRename(tanh, f, nodes[1..], next.value, StepNode(tanh, RenameNode(f, nodes[0]), env').value);
      }
    }
  }

  lemma {:induction false} LoadRename<N(!new), T(!new)>(
    f: N -> T, inits: seq<(N, Tensor)>, env: Env<N>, env': Env<T>)
    requires Injective(f) && SameUnder(f, env, env')
    ensures SameResult(f, Load(inits, env), Load(RenameInits(f, inits), env'))
    decreases |inits|
  {
    if inits != [] {
      SameAfter(f, env, env', inits[0].0, inits[0].1);
      if inits[0].0 !in env {
        LoadRename(f, inits[1..], env[inits[0].0 := inits[0].1], env'[f(inits[0].0) := inits[0].1]);
      }
    }
  }

  lemma EvaluateRename<N(!new), T(!new)>(tanh: real -> real, f: N -> T, g: Graph<N>, env: Env<N>, env': Env<T>)
    requires Injective(f) && SameUnder(f, env, env')
    ensures SameResult(f, Evaluate(tanh, g, env),
                       Evaluate(tanh, Graph(RenameInits(f, g.inits), RenameNodes(f, g.nodes)), env'))
  {
    LoadRename(f, g.inits, env, env');
    var loaded := Load(g.inits, env);
    if loaded.Some? {
      RunRename(tanh, f, g.nodes, loaded.value, Load(RenameInits(f, g.inits), env').value);
    }
  }
}

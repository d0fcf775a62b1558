// The exporter (ml/export_onnx.py): a bundle compiled to a list of named ONNX nodes,
// and the proof that the graph computes what the scorer computes.
module OnnxExport {
  import opened Wrappers
  import opened Tensors
  import opened Scoring
  import opened Onnx
  import opened OnnxNames

  // ----- the compiler -----------------------------------------------------------

  datatype Unsupported = NotAutoencoder | NotTanh

  // build_onnx: initializers and nodes are appended layer by layer; `h` is the name of
  // the value so far.
  method BuildOnnx(kind: string, activation: string, b: Bundle) returns (r: Result<Graph<string>, Unsupported>)
    ensures r.Ok? <==> kind == "autoencoder" && activation == "tanh"
    ensures r.Ok? ==> r.value == Spelled(Compiled(b))
    ensures kind != "autoencoder" ==> r == Err(NotAutoencoder)
  {
    if kind != "autoencoder" {
      return Err(NotAutoencoder);
    }
    if activation != "tanh" {
      return Err(NotTanh);
    }
    var inits := [("mean", V(b.mean)), ("scale", V(b.scale)), ("threshold", S(b.threshold)),
                  ("feature_axis", Ints([1]))];
    var nodes := [Node(Sub, ["X", "mean"], "centered"), Node(Div, ["centered", "scale"], "z")];
    var h := "z";
    var i := 0;
    BuildStart(b);
    while i < |b.weights|
      invariant 0 <= i <= |b.weights|
      invariant Built(b, i, inits, nodes, h)
    {
      var l := b.weights[i];
      var d := Digits(i);
      BuildMore(b, i, inits, nodes, h);
      inits := inits + [("w" + d, M(l.w)), ("b" + d, V(l.b))];
      var layer;
      layer, h := BuildLayer(h, d, i < |b.weights| - 1);
      nodes := nodes + layer;
      i := i + 1;
    }
    BuildEnd(b, inits, nodes, h);
    nodes := nodes + [
      Node(Sub, ["z", h], "residual"),
      Node(Mul, ["residual", "residual"], "squared"),
      Node(ReduceMean, ["squared", "feature_axis"], "scores"),
      Node(Greater, ["scores", "threshold"], "hit"),
      Node(Cast, ["hit"], "label")];
    return Ok(Graph(inits, nodes));
  }

  // The nodes of one layer and the name of its value; no activation after the last.
  method BuildLayer(h: string, d: string, more: bool) returns (layer: seq<Node<string>>, h': string)
    ensures layer == LayerText(h, d, more)
    ensures h' == (if more then "act" else "lin") + d
  {
    layer := [Node(MatMulOp, [h, "w" + d], "mm" + d)];
    h' := "lin" + d;
    layer := layer + [Node(Add, ["mm" + d, "b" + d], h')];
    if more {
      layer := layer + [Node(Tanh, [h'], "act" + d)];
      h' := "act" + d;
    }
  }

  // What the loop has built after i layers.
  predicate Built(b: Bundle, i: nat, inits: seq<(string, Tensor)>, nodes: seq<Node<string>>, h: string)
    requires i <= |b.weights|
  {
    && h == Spell(NameAfter(i, |b.weights|))
    && inits == RenameInits(Spell, Inits(b, i))
    && nodes == RenameNodes(Spell, Upto(i, |b.weights|))
  }

  // The string form of LayerFrom.
  function LayerText(h: string, d: string, more: bool): seq<Node<string>> {
    [Node(MatMulOp, [h, "w" + d], "mm" + d)] + [Node(Add, ["mm" + d, "b" + d], "lin" + d)]
    + (if more then [Node(Tanh, ["lin" + d], "act" + d)] else [])
  }

  function EpilogueText(h: string): seq<Node<string>> {
    [Node(Sub, ["z", h], "residual"),
     Node(Mul, ["residual", "residual"], "squared"),
     Node(ReduceMean, ["squared", "feature_axis"], "scores"),
     Node(Greater, ["scores", "threshold"], "hit"),
     Node(Cast, ["hit"], "label")]
  }

  lemma BuildStart(b: Bundle)
    ensures Built(b, 0,
                  [("mean", V(b.mean)), ("scale", V(b.scale)), ("threshold", S(b.threshold)), ("feature_axis", Ints([1]))],
                  [Node(Sub, ["X", "mean"], "centered"), Node(Div, ["centered", "scale"], "z")], "z")
  {
    SpelledStart(b);
  }

  lemma BuildMore(b: Bundle, i: nat, inits: seq<(string, Tensor)>, nodes: seq<Node<string>>, h: string)
    requires i < |b.weights| && Built(b, i, inits, nodes, h)
    ensures var d, more := Digits(i), i < |b.weights| - 1;
            Built(b, i + 1, inits + [("w" + d, M(b.weights[i].w)), ("b" + d, V(b.weights[i].b))],
                  nodes + LayerText(h, d, more), (if more then "act" else "lin") + d)
  {
    var d := Digits(i);
    BuildInits(b, i, inits);
    BuildNodes(|b.weights|, i, nodes, h);
    AllBuilt(b, i + 1, inits + [("w" + d, M(b.weights[i].w)), ("b" + d, V(b.weights[i].b))],
             nodes + LayerText(h, d, i < |b.weights| - 1), (if i < |b.weights| - 1 then "act" else "lin") + d);
  }

  lemma AllBuilt(b: Bundle, i: nat, inits: seq<(string, Tensor)>, nodes: seq<Node<string>>, h: string)
    requires i <= |b.weights| && h == Spell(NameAfter(i, |b.weights|))
    requires inits == RenameInits(Spell, Inits(b, i)) && nodes == RenameNodes(Spell, Upto(i, |b.weights|))
    ensures Built(b, i, inits, nodes, h)
  {
  }

  lemma BuildInits(b: Bundle, i: nat, inits: seq<(string, Tensor)>)
    requires i < |b.weights| && inits == RenameInits(Spell, Inits(b, i))
    ensures inits + [("w" + Digits(i), M(b.weights[i].w)), ("b" + Digits(i), V(b.weights[i].b))]
            == RenameInits(Spell, Inits(b, i + 1))
  {
    SpelledInits(b, i);
  }

  lemma BuildNodes(n: nat, i: nat, nodes: seq<Node<string>>, h: string)
    requires i < n && nodes == RenameNodes(Spell, Upto(i, n)) && h == Spell(NameAfter(i, n))
    ensures nodes + LayerText(h, Digits(i), i < n - 1) == RenameNodes(Spell, Upto(i + 1, n))
    ensures (if i < n - 1 then "act" else "lin") + Digits(i) == Spell(NameAfter(i + 1, n))
  {
    SpelledLayer(i, n);
  }

  lemma BuildEnd(b: Bundle, inits: seq<(string, Tensor)>, nodes: seq<Node<string>>, h: string)
    requires Built(b, |b.weights|, inits, nodes, h)
    ensures Graph(inits, nodes + EpilogueText(h)) == Spelled(Compiled(b))
  {
    var n := |b.weights|;
    SpelledEpilogue(NameAfter(n, n));
    RenameAppend(Spell, Upto(n, n), Epilogue(NameAfter(n, n)));
  }

  // ----- what it compiles to --------------------------------------------------------

  function Prologue(): seq<Node<Name>> {
    [Node(Sub, [X, Mean], Centered), Node(Div, [Centered, Scale], Z)]
  }

  // The value before layer i of n.
  function NameAfter(i: nat, n: nat): Name {
    if i == 0 then Z else if i < n then Act(i - 1) else Lin(i - 1)
  }

  function LayerFrom(h: Name, i: nat, more: bool): seq<Node<Name>> {
    [Node(MatMulOp, [h, W(i)], MM(i)), Node(Add, [MM(i), B(i)], Lin(i))]
    + (if more then [Node(Tanh, [Lin(i)], Act(i))] else [])
  }

  function LayerNodes(i: nat, n: nat): seq<Node<Name>> {
    LayerFrom(NameAfter(i, n), i, i + 1 < n)
  }

  // Everything before layer i of n.
  function Upto(i: nat, n: nat): seq<Node<Name>> {
    if i == 0 then Prologue() else Upto(i - 1, n) + LayerNodes(i - 1, n)
  }

  function Epilogue(h: Name): seq<Node<Name>> {
    [Node(Sub, [Z, h], Residual),
     Node(Mul, [Residual, Residual], Squared),
     Node(ReduceMean, [Squared, FeatureAxis], Scores),
     Node(Greater, [Scores, Threshold], Hit),
     Node(Cast, [Hit], Label)]
  }

  function Inits(b: Bundle, k: nat): seq<(Name, Tensor)>
    requires k <= |b.weights|
  {
    if k == 0 then
      [(Mean, V(b.mean)), (Scale, V(b.scale)), (Threshold, S(b.threshold)), (FeatureAxis, Ints([1]))]
    else
      Inits(b, k - 1) + [(W(k - 1), M(b.weights[k - 1].w)), (B(k - 1), V(b.weights[k - 1].b))]
  }

  function Compiled(b: Bundle): Graph<Name> {
    var n := |b.weights|;
    Graph(Inits(b, n), Upto(n, n) + Epilogue(NameAfter(n, n)))
  }

  function Spelled(g: Graph<Name>): Graph<string> {
    Graph(RenameInits(Spell, g.inits), RenameNodes(Spell, g.nodes))
  }

  // ----- the loop builds it -----------------------------------------------------------

  lemma Spelled1(op: Op, a: Name, o: Name)
    ensures RenameNode(Spell, Node(op, [a], o)) == Node(op, [Spell(a)], Spell(o))
  {
    assert RenameNode(Spell, Node(op, [a], o)).inputs == [Spell(a)];
  }

  lemma Spelled2(op: Op, a: Name, b: Name, o: Name)
    ensures RenameNode(Spell, Node(op, [a, b], o)) == Node(op, [Spell(a), Spell(b)], Spell(o))
  {
    assert RenameNode(Spell, Node(op, [a, b], o)).inputs == [Spell(a), Spell(b)];
  }

  lemma RenameFirst(n: Node<Name>, rest: seq<Node<Name>>)
    ensures RenameNodes(Spell, [n] + rest) == [RenameNode(Spell, n)] + RenameNodes(Spell, rest)
  {
    assert ([n] + rest)[1..] == rest;
  }

  lemma RenameTwo(m: Node<Name>, n: Node<Name>)
    ensures RenameNodes(Spell, [m, n]) == [RenameNode(Spell, m), RenameNode(Spell, n)]
  {
    RenameFirst(n, []);
    RenameFirst(m, [n]);
    assert [m] + [n] == [m, n] && [n] + [] == [n];
  }

  lemma RenameInitsFirst(x: (Name, Tensor), rest: seq<(Name, Tensor)>)
    ensures RenameInits(Spell, [x] + rest) == [(Spell(x.0), x.1)] + RenameInits(Spell, rest)
  {
    assert ([x] + rest)[1..] == rest;
  }

  lemma RenameInitsTwo(x: (Name, Tensor), y: (Name, Tensor))
    ensures RenameInits(Spell, [x, y]) == [(Spell(x.0), x.1), (Spell(y.0), y.1)]
  {
    RenameInitsFirst(y, []);
    RenameInitsFirst(x, [y]);
    assert [x] + [y] == [x, y] && [y] + [] == [y];
  }

  lemma SpelledStart(b: Bundle)
    ensures RenameInits(Spell, Inits(b, 0))
            == [("mean", V(b.mean)), ("scale", V(b.scale)), ("threshold", S(b.threshold)), ("feature_axis", Ints([1]))]
    ensures RenameNodes(Spell, Upto(0, |b.weights|))
            == [Node(Sub, ["X", "mean"], "centered"), Node(Div, ["centered", "scale"], "z")]
  {
    RenameTwo(Prologue()[0], Prologue()[1]);
    Spelled2(Sub, X, Mean, Centered);
    Spelled2(Div, Centered, Scale, Z);
    var first: seq<(Name, Tensor)> := [(Mean, V(b.mean)), (Scale, V(b.scale))];
    var second: seq<(Name, Tensor)> := [(Threshold, S(b.threshold)), (FeatureAxis, Ints([1]))];
    assert Inits(b, 0) == first + second;
    RenameInitsAppend(Spell, first, second);
    RenameInitsTwo(first[0], first[1]);
    RenameInitsTwo(second[0], second[1]);
  }

  lemma SpelledInits(b: Bundle, i: nat)
    requires i < |b.weights|
    ensures RenameInits(Spell, Inits(b, i + 1))
            == RenameInits(Spell, Inits(b, i))
               + [("w" + Digits(i), M(b.weights[i].w)), ("b" + Digits(i), V(b.weights[i].b))]
  {
    RenameInitsAppend(Spell, Inits(b, i), [(W(i), M(b.weights[i].w)), (B(i), V(b.weights[i].b))]);
    RenameInitsTwo((W(i), M(b.weights[i].w)), (B(i), V(b.weights[i].b)));
  }

  // The nodes the loop appends for layer i of n.
  lemma SpelledLayer(i: nat, n: nat)
    requires i < n
    ensures RenameNodes(Spell, Upto(i + 1, n))
            == RenameNodes(Spell, Upto(i, n)) + LayerText(Spell(NameAfter(i, n)), Digits(i), i + 1 < n)
  {
    RenameAppend(Spell, Upto(i, n), LayerNodes(i, n));
    SpelledLayerNodes(NameAfter(i, n), i, i + 1 < n);
  }

  lemma SpelledLayerNodes(h: Name, i: nat, more: bool)
    ensures RenameNodes(Spell, LayerFrom(h, i, more)) == LayerText(Spell(h), Digits(i), more)
  {
    var mm, add, tanh := Node(MatMulOp, [h, W(i)], MM(i)), Node(Add, [MM(i), B(i)], Lin(i)), Node(Tanh, [Lin(i)], Act(i));
    Spelled2(MatMulOp, h, W(i), MM(i));
    Spelled2(Add, MM(i), B(i), Lin(i));
    Spelled1(Tanh, Lin(i), Act(i));
    RenameTwo(mm, add);
    if more {
      RenameAppend(Spell, [mm, add], [tanh]);
      RenameFirst(tanh, []);
      assert [tanh] + [] == [tanh];
    } else {
      assert LayerFrom(h, i, more) == [mm, add];
    }
  }

  lemma SpelledEpilogue(h: Name)
    ensures RenameNodes(Spell, Epilogue(h)) == EpilogueText(Spell(h))
  {
    Spelled2(Sub, Z, h, Residual);
    Spelled2(Mul, Residual, Residual, Squared);
    Spelled2(ReduceMean, Squared, FeatureAxis, Scores);
    Spelled2(Greater, Scores, Threshold, Hit);
    Spelled1(Cast, Hit, Label);
    var e := Epilogue(h);
    RenameFive(e[0], e[1], e[2], e[3], e[4]);
    assert e == [e[0], e[1], e[2], e[3], e[4]];
  }

  lemma RenameFive(a: Node<Name>, b: Node<Name>, c: Node<Name>, d: Node<Name>, e: Node<Name>)
    ensures RenameNodes(Spell, [a, b, c, d, e])
            == [RenameNode(Spell, a), RenameNode(Spell, b), RenameNode(Spell, c), RenameNode(Spell, d), RenameNode(Spell, e)]
  {
    RenameFirst(e, []);
    RenameTwo(c, d);
    RenameTwo(a, b);
    RenameAppend(Spell, [c, d], [e]);
    RenameAppend(Spell, [a, b], [c, d] + [e]);
    assert [e] + [] == [e] && [a, b, c, d, e] == [a, b] + ([c, d] + [e]);
  }

  // ----- the graph computes the scores ------------------------------------------------

  type Tanh = real -> real

  lemma RunFirst(tanh: Tanh, node: Node<Name>, rest: seq<Node<Name>>, env: Env<Name>)
    ensures var next := StepNode(tanh, node, env);
            Run(tanh, [node] + rest, env) == if next.None? then None else Run(tanh, rest, next.value)
  {
    assert ([node] + rest)[1..] == rest;
  }

  // A node of one or two inputs that exist, writing a name that does not.
  lemma Step1(tanh: Tanh, op: Op, a: Name, o: Name, env: Env<Name>)
    requires a in env && o !in env
    ensures var out := Eval(tanh, op, [env[a]]);
            StepNode(tanh, Node(op, [a], o), env) == if out.None? then None else Some(env[o := out.value])
  {
    assert Fetch([a], env) == [env[a]];
  }

  lemma Step2(tanh: Tanh, op: Op, a: Name, b: Name, o: Name, env: Env<Name>)
    requires a in env && b in env && o !in env
    ensures var out := Eval(tanh, op, [env[a], env[b]]);
            StepNode(tanh, Node(op, [a, b], o), env) == if out.None? then None else Some(env[o := out.value])
  {
    assert Fetch([a, b], env) == [env[a], env[b]];
  }

  // The weights of layers from i on are loaded and their outputs are still free.
  predicate Awaiting(b: Bundle, i: nat, env: Env<Name>) {
    forall j: nat :: i <= j < |b.weights| ==>
      && W(j) in env && env[W(j)] == M(b.weights[j].w)
      && B(j) in env && env[B(j)] == V(b.weights[j].b)
      && MM(j) !in env && Lin(j) !in env && Act(j) !in env
  }

  predicate LayerName(n: Name) {
    n.MM? || n.Lin? || n.Act?
  }

  // Later values, under new layer names only.
  ghost predicate Grown(env: Env<Name>, env': Env<Name>) {
    && (forall n :: n in env ==> n in env' && env'[n] == env[n])
    && (forall n :: n in env' && n !in env ==> LayerName(n))
  }

  // MatMul and Add of one layer.
  lemma RunLinear(tanh: Tanh, l: Layer, i: nat, name: Name, h: Matrix, env: Env<Name>, rest: seq<Node<Name>>)
    requires name in env && env[name] == M(h) && W(i) in env && env[W(i)] == M(l.w) && B(i) in env && env[B(i)] == V(l.b)
    requires MM(i) !in env && Lin(i) !in env
    ensures var mm := MatMul(h, l.w);
            var r := Run(tanh, [Node(MatMulOp, [name, W(i)], MM(i))] + ([Node(Add, [MM(i), B(i)], Lin(i))] + rest), env);
            if mm.None? || WithRow(Plus(), mm.value, l.b).None? then r.None?
            else r == Run(tanh, rest, env[MM(i) := M(mm.value)][Lin(i) := M(WithRow(Plus(), mm.value, l.b).value)])
  {
    var addNode := Node(Add, [MM(i), B(i)], Lin(i));
    RunFirst(tanh, Node(MatMulOp, [name, W(i)], MM(i)), [addNode] + rest, env);
    Step2(tanh, MatMulOp, name, W(i), MM(i), env);
    var mm := MatMul(h, l.w);
    if mm.Some? {
      var env' := env[MM(i) := M(mm.value)];
      RunFirst(tanh, addNode, rest, env');
      Step2(tanh, Add, MM(i), B(i), Lin(i), env');
    }
  }

  // A run of the nodes from env comes to the rest and env', with r under that name, or
  // gets stuck if there is no r.
  ghost predicate Reaches(tanh: Tanh, nodes: seq<Node<Name>>, env: Env<Name>, rest: seq<Node<Name>>, env': Env<Name>,
                          name: Name, r: Option<Matrix>)
  {
    if r.None? then Run(tanh, nodes, env).None?
    else
      && Run(tanh, nodes, env) == Run(tanh, rest, env') && Grown(env, env')
      && name in env' && env'[name] == M(r.value)
  }

  lemma ReachesFurther(tanh: Tanh, nodes: seq<Node<Name>>, env: Env<Name>, middle: seq<Node<Name>>, mid: Env<Name>,
                       name: Name, out: Matrix, rest: seq<Node<Name>>, env': Env<Name>, last: Name, r: Option<Matrix>)
    requires Reaches(tanh, nodes, env, middle, mid, name, Some(out)) && Reaches(tanh, middle, mid, rest, env', last, r)
    ensures Reaches(tanh, nodes, env, rest, env', last, r)
  {
    if r.Some? {
      GrownMore(env, mid, env');
    }
  }

  lemma RunLayer(tanh: Tanh, b: Bundle, i: nat, h: Matrix, env: Env<Name>, rest: seq<Node<Name>>)
    returns (env': Env<Name>)
    requires i < |b.weights| && Awaiting(b, i, env)
    requires NameAfter(i, |b.weights|) in env && env[NameAfter(i, |b.weights|)] == M(h)
    ensures var n := |b.weights|;
            var r := LayerOut(tanh, b.weights[i], h, i + 1 == n);
            && Reaches(tanh, LayerNodes(i, n) + rest, env, rest, env', NameAfter(i + 1, n), r)
            && (r.Some? ==> Awaiting(b, i + 1, env'))
  {
    var n := |b.weights|;
    var l, name := b.weights[i], NameAfter(i, n);
    var act := Node(Op.Tanh, [Lin(i)], Act(i));
    var tail := if i + 1 < n then [act] + rest else rest;
    LayerTail(name, i, i + 1 < n, rest);
    RunLinear(tanh, l, i, name, h, env, tail);
    env' := env;
    var mm := MatMul(h, l.w);
    if mm.Some? && WithRow(Plus(), mm.value, l.b).Some? {
      var lin := WithRow(Plus(), mm.value, l.b).value;
      env' := env[MM(i) := M(mm.value)][Lin(i) := M(lin)];
      LayerGrows(b, i, env, M(mm.value), M(lin), M(Map(tanh, lin)));
      if i + 1 < n {
        RunFirst(tanh, act, rest, env');
        Step1(tanh, Op.Tanh, Lin(i), Act(i), env');
        env' := env'[Act(i) := M(Map(tanh, lin))];
      }
    }
  }

  lemma LayerGrows(b: Bundle, i: nat, env: Env<Name>, mm: Tensor, lin: Tensor, act: Tensor)
    requires i < |b.weights| && Awaiting(b, i, env)
    ensures var two := env[MM(i) := mm][Lin(i) := lin];
            && Grown(env, two) && Awaiting(b, i + 1, two)
            && Grown(env, two[Act(i) := act]) && Awaiting(b, i + 1, two[Act(i) := act])
  {
  }

  lemma LayerTail(h: Name, i: nat, more: bool, rest: seq<Node<Name>>)
    ensures LayerFrom(h, i, more) + rest
            == [Node(MatMulOp, [h, W(i)], MM(i))]
               + ([Node(Add, [MM(i), B(i)], Lin(i))] + (if more then [Node(Op.Tanh, [Lin(i)], Act(i))] + rest else rest))
  {
  }

  lemma GrownMore(a: Env<Name>, b: Env<Name>, c: Env<Name>)
    requires Grown(a, b) && Grown(b, c)
    ensures Grown(a, c)
  {
  }

  // Layers i to n of n.
  function Layers(i: nat, n: nat): seq<Node<Name>>
    requires i <= n
    decreases n - i
  {
    if i == n then [] else LayerNodes(i, n) + Layers(i + 1, n)
  }

  lemma {:induction false} UptoIs(i: nat, n: nat)
    requires i <= n
    ensures Upto(i, n) + Layers(i, n) == Prologue() + Layers(0, n)
  {
    if i > 0 {
      UptoIs(i - 1, n);
      assert Upto(i - 1, n) + (LayerNodes(i - 1, n) + Layers(i, n)) == Upto(i, n) + Layers(i, n);
    }
  }

  lemma FirstLayer(i: nat, n: nat, rest: seq<Node<Name>>)
    requires i < n
    ensures Layers(i, n) + rest == LayerNodes(i, n) + (Layers(i + 1, n) + rest)
  {
  }

  lemma ForwardFirst(tanh: Tanh, b: Bundle, i: nat, h: Matrix)
    requires i < |b.weights|
    ensures var out := LayerOut(tanh, b.weights[i], h, i + 1 == |b.weights|);
            Forward(tanh, b.weights[i..], h) == if out.None? then None else Forward(tanh, b.weights[i + 1..], out.value)
  {
    assert b.weights[i..][1..] == b.weights[i + 1..];
  }

  // The compiled layers compute the forward pass, for any number of layers, and get
  // stuck exactly when it has a dimension mismatch.
  lemma {:induction false} RunLayers(tanh: Tanh, b: Bundle, i: nat, h: Matrix, env: Env<Name>, rest: seq<Node<Name>>)
    returns (env': Env<Name>)
    requires i <= |b.weights| && Awaiting(b, i, env)
    requires NameAfter(i, |b.weights|) in env && env[NameAfter(i, |b.weights|)] == M(h)
    ensures var n := |b.weights|;
            Reaches(tanh, Layers(i, n) + rest, env, rest, env', NameAfter(n, n), Forward(tanh, b.weights[i..], h))
    decreases |b.weights| - i
  {
    var n := |b.weights|;
    if i == n {
      env' := env;
      assert Layers(i, n) + rest == rest;
    } else {
      var later := Layers(i + 1, n) + rest;
      FirstLayer(i, n, rest);
      env' := RunLayer(tanh, b, i, h, env, later);
      ForwardFirst(tanh, b, i, h);
      var out := LayerOut(tanh, b.weights[i], h, i + 1 == n);
      if out.Some? {
        var mid, r := env', Forward(tanh, b.weights[i + 1..], out.value);
        env' := RunLayers(tanh, b, i + 1, out.value, mid, rest);
        ReachesFurther(tanh, LayerNodes(i, n) + later, env, later, mid, NameAfter(i + 1, n), out.value,
                       rest, env', NameAfter(n, n), r);
      }
    }
  }

  // ----- initializers -------------------------------------------------------------------

  lemma {:induction false} LoadAppend(a: seq<(Name, Tensor)>, b: seq<(Name, Tensor)>, env: Env<Name>)
    requires Load(a, env).Some?
    ensures Load(a + b, env) == Load(b, Load(a, env).value)
    decreases |a|
  {
    if a == [] {
      assert a + b == b;
    } else {
      assert (a + b)[1..] == a[1..] + b;
      LoadAppend(a[1..], b, env[a[0].0 := a[0].1]);
    }
  }

  lemma LoadTwo(x: (Name, Tensor), y: (Name, Tensor), env: Env<Name>)
    requires x.0 !in env && y.0 !in env && x.0 != y.0
    ensures Load([x, y], env) == Some(env[x.0 := x.1][y.0 := y.1])
  {
    assert [x, y][1..] == [y] && [y][1..] == [];
    assert Load([y], env[x.0 := x.1]) == Load([], env[x.0 := x.1][y.0 := y.1]);
  }

  // The constants that are not weights, and the input.
  function Base(b: Bundle, x: Matrix): Env<Name> {
    map[X := M(x), Mean := V(b.mean), Scale := V(b.scale), Threshold := S(b.threshold), FeatureAxis := Ints([1])]
  }

  // The initializers of k layers are loaded, and nothing else.
  ghost predicate Loaded(b: Bundle, x: Matrix, k: nat, env: Env<Name>)
    requires k <= |b.weights|
  {
    && (forall n :: n in Base(b, x) ==> n in env && env[n] == Base(b, x)[n])
    && (forall j: nat :: j < k ==>
          && W(j) in env && env[W(j)] == M(b.weights[j].w)
          && B(j) in env && env[B(j)] == V(b.weights[j].b))
    && (forall n :: n in env ==> n in Base(b, x) || ((n.W? || n.B?) && n.i < k))
  }

  lemma LoadBase(b: Bundle, x: Matrix)
    ensures Load(Inits(b, 0), map[X := M(x)]) == Some(Base(b, x))
  {
    var first: seq<(Name, Tensor)> := [(Mean, V(b.mean)), (Scale, V(b.scale))];
    var second: seq<(Name, Tensor)> := [(Threshold, S(b.threshold)), (FeatureAxis, Ints([1]))];
    assert Inits(b, 0) == first + second;
    LoadTwo(first[0], first[1], map[X := M(x)]);
    LoadAppend(first, second, map[X := M(x)]);
    LoadTwo(second[0], second[1], map[X := M(x)][Mean := V(b.mean)][Scale := V(b.scale)]);
  }

  lemma LoadedMore(b: Bundle, x: Matrix, k: nat, env: Env<Name>)
    requires k < |b.weights| && Loaded(b, x, k, env)
    ensures W(k) !in env && B(k) !in env
    ensures Loaded(b, x, k + 1, env[W(k) := M(b.weights[k].w)][B(k) := V(b.weights[k].b)])
  {
  }

  lemma {:induction false} LoadInits(b: Bundle, x: Matrix, k: nat)
    requires k <= |b.weights|
    ensures Load(Inits(b, k), map[X := M(x)]).Some?
    ensures Loaded(b, x, k, Load(Inits(b, k), map[X := M(x)]).value)
  {
    if k == 0 {
      LoadBase(b, x);
    } else {
      LoadInits(b, x, k - 1);
      var start := map[X := M(x)];
      var env := Load(Inits(b, k - 1), start).value;
      var w, v := (W(k - 1), M(b.weights[k - 1].w)), (B(k - 1), V(b.weights[k - 1].b));
      LoadAppend(Inits(b, k - 1), [w, v], start);
      LoadedMore(b, x, k - 1, env);
      LoadTwo(w, v, env);
      assert Load(Inits(b, k), start) == Some(env[w.0 := w.1][v.0 := v.1]);
    }
  }

  // ----- scaling, error and label ---------------------------------------------------------

  lemma SquareRow(x: Row)
    ensures RowOp(Times(), x, x) == RowMap(Square(), x)
  {
    forall j | 0 <= j < |x| ensures RowOp(Times(), x, x)[j] == RowMap(Square(), x)[j] {
      assert Stretched(x, j) == x[j];
      assert Times()(x[j], x[j]) == Square()(x[j]);
    }
  }

  lemma SquareIsMul(a: Matrix)
    ensures Pairwise(Times(), a, a) == Some(Map(Square(), a))
  {
    forall i | 0 <= i < a.rows ensures RowOp(Times(), a.at[i], a.at[i]) == RowMap(Square(), a.at[i]) {
      SquareRow(a.at[i]);
    }
    assert Pairwise(Times(), a, a).value.at == Map(Square(), a).at;
  }

  // The prologue's inputs, and room for what it writes.
  predicate PrologueReady(b: Bundle, x: Matrix, env: Env<Name>) {
    && X in env && env[X] == M(x) && Mean in env && env[Mean] == V(b.mean) && Scale in env && env[Scale] == V(b.scale)
    && Centered !in env && Z !in env
  }

  lemma LoadedReady(b: Bundle, x: Matrix, env: Env<Name>)
    requires Loaded(b, x, |b.weights|, env)
    ensures PrologueReady(b, x, env)
  {
    assert X in Base(b, x) && Mean in Base(b, x) && Scale in Base(b, x);
    assert Centered !in Base(b, x) && Z !in Base(b, x);
  }

  lemma RunPrologue(tanh: Tanh, b: Bundle, x: Matrix, env: Env<Name>, rest: seq<Node<Name>>)
    returns (env': Env<Name>)
    requires PrologueReady(b, x, env)
    ensures var z := Scaled(b, x);
            && (z.None? ==> Run(tanh, Prologue() + rest, env).None?)
            && (z.Some? ==>
                  && Run(tanh, Prologue() + rest, env) == Run(tanh, rest, env')
                  && Scaling(env, env', z.value))
  {
    var div := Node(Div, [Centered, Scale], Z);
    assert Prologue() + rest == [Node(Sub, [X, Mean], Centered)] + ([div] + rest);
    RunWithRow(tanh, Sub, Minus(), X, x, Mean, b.mean, Centered, env, [div] + rest);
    env' := env;
    var c := WithRow(Minus(), x, b.mean);
    if c.Some? {
      env' := env[Centered := M(c.value)];
      RunWithRow(tanh, Div, Over(), Centered, c.value, Scale, b.scale, Z, env', rest);
      var z := WithRow(Over(), c.value, b.scale);
      if z.Some? {
        ScalingIs(env, c.value, z.value);
        env' := env'[Z := M(z.value)];
      }
    }
  }

  // A node that combines a matrix with a row.
  lemma RunWithRow(tanh: Tanh, op: Op, f: Binary, a: Name, m: Matrix, v: Name, row: Row, o: Name,
                   env: Env<Name>, rest: seq<Node<Name>>)
    requires a in env && env[a] == M(m) && v in env && env[v] == V(row) && o !in env
    requires (op == Sub && f == Minus()) || (op == Div && f == Over())
    ensures var r := WithRow(f, m, row);
            Run(tanh, [Node(op, [a, v], o)] + rest, env)
            == if r.None? then None else Run(tanh, rest, env[o := M(r.value)])
  {
    RunFirst(tanh, Node(op, [a, v], o), rest, env);
    Step2(tanh, op, a, v, o, env);
  }

  lemma ScalingIs(env: Env<Name>, centered: Matrix, z: Matrix)
    requires Centered !in env && Z !in env
    ensures Scaling(env, env[Centered := M(centered)][Z := M(z)], z)
  {
  }

  function Labels(b: Bundle, scores: Row): seq<int> {
    seq(|scores|, i requires 0 <= i < |scores| => if scores[i] > b.threshold then 1 else 0)
  }

  // The names the epilogue writes.
  predicate Final(n: Name) {
    n == Residual || n == Squared || n == Scores || n == Hit || n == Label
  }

  function AfterErrors(env: Env<Name>, d: Matrix, errors: Row): (env': Env<Name>)
    ensures Scores in env' && env'[Scores] == V(errors)
    ensures Threshold in env ==> Threshold in env' && env'[Threshold] == env[Threshold]
    ensures Hit in env' <==> Hit in env
    ensures Label in env' <==> Label in env
  {
    env[Residual := M(d)][Squared := M(Map(Square(), d))][Scores := V(errors)]
  }

  lemma RunErrors(tanh: Tanh, h: Name, z: Matrix, recon: Matrix, env: Env<Name>, rest: seq<Node<Name>>)
    requires Z in env && env[Z] == M(z) && h in env && env[h] == M(recon)
    requires FeatureAxis in env && env[FeatureAxis] == Ints([1])
    requires forall n :: n in env ==> !Final(n)
    ensures var nodes := [Node(Sub, [Z, h], Residual)] + ([Node(Mul, [Residual, Residual], Squared)]
                         + ([Node(ReduceMean, [Squared, FeatureAxis], Scores)] + rest));
            var d, r := Pairwise(Minus(), z, recon), ResidualErrors(z, recon);
            if r.None? then Run(tanh, nodes, env).None?
            else Run(tanh, nodes, env)
                 == Run(tanh, rest, AfterErrors(env, d.value, r.value))
  {
    var mul, mean := Node(Mul, [Residual, Residual], Squared), Node(ReduceMean, [Squared, FeatureAxis], Scores);
    RunFirst(tanh, Node(Sub, [Z, h], Residual), [mul] + ([mean] + rest), env);
    Step2(tanh, Sub, Z, h, Residual, env);
    var d := Pairwise(Minus(), z, recon);
    if d.Some? {
      RunMeanSquare(tanh, d.value, env[Residual := M(d.value)], rest);
    }
  }

  lemma RunMeanSquare(tanh: Tanh, d: Matrix, env: Env<Name>, rest: seq<Node<Name>>)
    requires Residual in env && env[Residual] == M(d) && FeatureAxis in env && env[FeatureAxis] == Ints([1])
    requires Squared !in env && Scores !in env
    ensures var means := RowMeans(Map(Square(), d));
            Run(tanh, [Node(Mul, [Residual, Residual], Squared)]
                      + ([Node(ReduceMean, [Squared, FeatureAxis], Scores)] + rest), env)
            == if means.None? then None
               else Run(tanh, rest, env[Squared := M(Map(Square(), d))][Scores := V(means.value)])
  {
    var mean := Node(ReduceMean, [Squared, FeatureAxis], Scores);
    RunFirst(tanh, Node(Mul, [Residual, Residual], Squared), [mean] + rest, env);
    Step2(tanh, Mul, Residual, Residual, Squared, env);
    SquareIsMul(d);
    var env' := env[Squared := M(Map(Square(), d))];
    RunFirst(tanh, mean, rest, env');
    Step2(tanh, ReduceMean, Squared, FeatureAxis, Scores, env');
  }

  lemma RunLabels(tanh: Tanh, b: Bundle, scores: Row, env: Env<Name>)
    requires Scores in env && env[Scores] == V(scores) && Threshold in env && env[Threshold] == S(b.threshold)
    requires Hit !in env && Label !in env
    ensures var r := Run(tanh, [Node(Greater, [Scores, Threshold], Hit)] + ([Node(Cast, [Hit], Label)] + []), env);
            r.Some? && Scores in r.value && r.value[Scores] == V(scores)
            && Label in r.value && r.value[Label] == Ints(Labels(b, scores))
  {
    var cast := Node(Cast, [Hit], Label);
    RunFirst(tanh, Node(Greater, [Scores, Threshold], Hit), [cast] + [], env);
    Step2(tanh, Greater, Scores, Threshold, Hit, env);
    var hits := seq(|scores|, i requires 0 <= i < |scores| => scores[i] > b.threshold);
    var env' := env[Hit := Bools(hits)];
    RunFirst(tanh, cast, [], env');
    Step1(tanh, Cast, Hit, Label, env');
    assert seq(|hits|, i requires 0 <= i < |hits| => if hits[i] then 1 else 0) == Labels(b, scores);
  }

  // ----- correctness ------------------------------------------------------------------------

  // What a run of the graph has to be: stuck exactly when the scorer raises a shape
  // error, and otherwise its scores and labels.
  ghost predicate Correct(b: Bundle, errors: Option<Row>, r: Option<Env<Name>>) {
    if errors.None? then r.None?
    else
      && r.Some?
      && Scores in r.value && r.value[Scores] == V(errors.value)
      && Label in r.value && r.value[Label] == Ints(Labels(b, errors.value))
  }

  lemma EpilogueIs(h: Name)
    ensures Epilogue(h)
            == [Node(Sub, [Z, h], Residual)] + ([Node(Mul, [Residual, Residual], Squared)]
               + ([Node(ReduceMean, [Squared, FeatureAxis], Scores)]
                  + ([Node(Greater, [Scores, Threshold], Hit)] + ([Node(Cast, [Hit], Label)] + []))))
  {
  }

  lemma RunEpilogue(tanh: Tanh, b: Bundle, h: Name, z: Matrix, recon: Matrix, env: Env<Name>)
    requires Z in env && env[Z] == M(z) && h in env && env[h] == M(recon)
    requires FeatureAxis in env && env[FeatureAxis] == Ints([1])
    requires Threshold in env && env[Threshold] == S(b.threshold)
    requires forall n :: n in env ==> !Final(n)
    ensures Correct(b, ResidualErrors(z, recon), Run(tanh, Epilogue(h), env))
  {
    EpilogueIs(h);
    var rest := [Node(Greater, [Scores, Threshold], Hit)] + ([Node(Cast, [Hit], Label)] + []);
    RunErrors(tanh, h, z, recon, env, rest);
    var r := ResidualErrors(z, recon);
    if r.Some? {
      var env' := AfterErrors(env, Pairwise(Minus(), z, recon).value, r.value);
      RunLabels(tanh, b, r.value, env');
    }
  }

  // What the prologue needs and leaves.
  ghost predicate Scaling(env: Env<Name>, env': Env<Name>, z: Matrix) {
    && (forall n :: n in env ==> n in env' && env'[n] == env[n])
    && (forall n :: n in env' ==> n in env || n == Centered || n == Z)
    && Z in env' && env'[Z] == M(z)
  }

  lemma LayersReady(b: Bundle, x: Matrix, env: Env<Name>, env1: Env<Name>, z: Matrix)
    requires Loaded(b, x, |b.weights|, env) && Scaling(env, env1, z)
    ensures Awaiting(b, 0, env1)
  {
    forall j: nat | j < |b.weights|
      ensures W(j) in env1 && env1[W(j)] == M(b.weights[j].w) && B(j) in env1 && env1[B(j)] == V(b.weights[j].b)
      ensures MM(j) !in env1 && Lin(j) !in env1 && Act(j) !in env1
    {
      assert W(j) in env && B(j) in env;
      StillFree(b, x, env, MM(j));
      StillFree(b, x, env, Lin(j));
      StillFree(b, x, env, Act(j));
    }
  }

  lemma StillFree(b: Bundle, x: Matrix, env: Env<Name>, n: Name)
    requires Loaded(b, x, |b.weights|, env) && LayerName(n)
    ensures n !in env
  {
    assert n !in Base(b, x);
  }

  lemma EpilogueReady(b: Bundle, x: Matrix, env: Env<Name>, env1: Env<Name>, env2: Env<Name>, z: Matrix)
    requires Loaded(b, x, |b.weights|, env) && Scaling(env, env1, z) && Grown(env1, env2)
    ensures Z in env2 && env2[Z] == M(z)
    ensures FeatureAxis in env2 && env2[FeatureAxis] == Ints([1])
    ensures Threshold in env2 && env2[Threshold] == S(b.threshold)
    ensures forall n :: n in env2 ==> !Final(n)
  {
    assert FeatureAxis in Base(b, x) && Threshold in Base(b, x);
    assert env[FeatureAxis] == Ints([1]) && env[Threshold] == S(b.threshold);
    assert env1[FeatureAxis] == Ints([1]) && env1[Threshold] == S(b.threshold);
    NotFinalYet(b, x, env, env1, env2, z);
  }

  lemma NotFinalYet(b: Bundle, x: Matrix, env: Env<Name>, env1: Env<Name>, env2: Env<Name>, z: Matrix)
    requires Loaded(b, x, |b.weights|, env) && Scaling(env, env1, z) && Grown(env1, env2)
    ensures forall n :: n in env2 ==> !Final(n)
  {
    forall n | n in env1
      ensures !Final(n)
    {
    }
  }

  // On every bundle and every batch, the compiled graph and the scorer agree.
  lemma CompilerCorrect(tanh: Tanh, b: Bundle, x: Matrix)
    ensures Correct(b, ReconstructionErrors(tanh, b, x), Evaluate(tanh, Compiled(b), map[X := M(x)]))
  {
    var n := |b.weights|;
    LoadInits(b, x, n);
    CompiledNodes(b);
    NodesCorrect(tanh, b, x, Load(Inits(b, n), map[X := M(x)]).value);
  }

  lemma NodesCorrect(tanh: Tanh, b: Bundle, x: Matrix, env: Env<Name>)
    requires Loaded(b, x, |b.weights|, env)
    ensures var n := |b.weights|;
            Correct(b, ReconstructionErrors(tanh, b, x),
                    Run(tanh, Prologue() + (Layers(0, n) + Epilogue(NameAfter(n, n))), env))
  {
    var n := |b.weights|;
    var tail := Layers(0, n) + Epilogue(NameAfter(n, n));
    LoadedReady(b, x, env);
    var env1 := RunPrologue(tanh, b, x, env, tail);
    if Scaled(b, x).Some? {
      ScaledCorrect(tanh, b, x, env, env1, Scaled(b, x).value);
    }
  }

  lemma ScaledCorrect(tanh: Tanh, b: Bundle, x: Matrix, env: Env<Name>, env1: Env<Name>, z: Matrix)
    requires Loaded(b, x, |b.weights|, env) && Scaling(env, env1, z)
    ensures var n := |b.weights|;
            var recon := Forward(tanh, b.weights, z);
            Correct(b, if recon.None? then None else ResidualErrors(z, recon.value),
                    Run(tanh, Layers(0, n) + Epilogue(NameAfter(n, n)), env1))
  {
    var h := NameAfter(|b.weights|, |b.weights|);
    assert b.weights[0..] == b.weights;
    LayersReady(b, x, env, env1, z);
    var env2 := RunLayers(tanh, b, 0, z, env1, Epilogue(h));
    var recon := Forward(tanh, b.weights, z);
    if recon.Some? {
      EpilogueReady(b, x, env, env1, env2, z);
      RunEpilogue(tanh, b, h, z, recon.value, env2);
    }
  }

  lemma CompiledNodes(b: Bundle)
    ensures var n := |b.weights|;
            Compiled(b).nodes == Prologue() + (Layers(0, n) + Epilogue(NameAfter(n, n)))
  {
    var n := |b.weights|;
    UptoIs(n, n);
    assert Layers(n, n) == [] && Upto(n, n) + [] == Upto(n, n);
    assert Prologue() + Layers(0, n) + Epilogue(NameAfter(n, n)) == Prologue() + (Layers(0, n) + Epilogue(NameAfter(n, n)));
  }

  // The same for the graph as it is written out: its names are all different and all
  // defined before use, and for a bundle whose shapes fit, every batch gets the
  // scorer's scores, and label 1 exactly above the threshold.
  lemma ExportCorrect(tanh: Tanh, b: Bundle, x: Matrix)
    requires ShapeOk(b) && x.cols == |b.features|
    ensures ReconstructionErrors(tanh, b, x).Some?
    ensures var errors := ReconstructionErrors(tanh, b, x).value;
            var r := Evaluate(tanh, Spelled(Compiled(b)), map["X" := M(x)]);
            && r.Some? && "scores" in r.value && "label" in r.value
            && r.value["scores"] == V(errors)
            && r.value["label"] == Ints(Labels(b, errors))
            && |errors| == x.rows
            && forall k :: 0 <= k < x.rows ==> (Labels(b, errors)[k] == 1 <==> errors[k] > b.threshold)
  {
    ShapeSound(tanh, b, x);
    CompilerCorrect(tanh, b, x);
    SpellingKeeps(tanh, b, x);
    BothSpelled(b, ReconstructionErrors(tanh, b, x).value, Evaluate(tanh, Compiled(b), map[X := M(x)]),
                Evaluate(tanh, Spelled(Compiled(b)), map["X" := M(x)]));
  }

  lemma BothSpelled(b: Bundle, errors: Row, r: Option<Env<Name>>, r': Option<Env<string>>)
    requires Correct(b, Some(errors), r) && SameResult(Spell, r, r')
    ensures r'.Some? && "scores" in r'.value && "label" in r'.value
    ensures r'.value["scores"] == V(errors) && r'.value["label"] == Ints(Labels(b, errors))
  {
    assert Scores in r.value && Label in r.value;
    assert Spell(Scores) == "scores" && Spell(Label) == "label";
  }

  lemma SpellingKeeps(tanh: Tanh, b: Bundle, x: Matrix)
    ensures SameResult(Spell, Evaluate(tanh, Compiled(b), map[X := M(x)]),
                       Evaluate(tanh, Spelled(Compiled(b)), map["X" := M(x)]))
  {
    forall a, c | Spell(a) == Spell(c) ensures a == c {
      SpellInjective(a, c);
    }
    var env: Env<Name>, env': Env<string> := map[X := M(x)], map["X" := M(x)];
    assert Spell(X) == "X";
    EvaluateRename(tanh, Spell, Compiled(b), env, env');
  }
}

/** Depth-bounded minimax over a two-player game whose positions change when a child is
    derived from them, and the alpha-beta search that computes it with pruning.

    A search node is its lineage: the positions from the root to the node, the node
    last. A depth level is a bot ply followed by an opponent ply, so the depth advances
    only after the opponent moves. Scores are extended reals: a ply with no actions
    returns the initial -inf (maximiser) or +inf (minimiser) unchanged. */
module GameSearch {

  /** Real numbers with -inf and +inf. */
  datatype Ext = NegInf | Fin(r: real) | PosInf

  predicate Lt(a: Ext, b: Ext)
  {
    match a
    case NegInf => !b.NegInf?
    case Fin(x) => b.PosInf? || (b.Fin? && x < b.r)
    case PosInf => false
  }

  predicate Le(a: Ext, b: Ext) { !Lt(b, a) }

  function Max(a: Ext, b: Ext): (r: Ext)
    ensures Le(a, r) && Le(b, r) && (r == a || r == b)
  {
    if Lt(a, b) then b else a
  }

  function Min(a: Ext, b: Ext): (r: Ext)
    ensures Le(r, a) && Le(r, b) && (r == a || r == b)
  {
    if Lt(b, a) then b else a
  }

  /** `b` is strictly better than `a` for the side to move. */
  predicate Better(myTurn: bool, a: Ext, b: Ext) { if myTurn then Lt(a, b) else Lt(b, a) }

  /** The running best after seeing `b`: max for the maximiser, min for the minimiser. */
  function Best(myTurn: bool, a: Ext, b: Ext): Ext { if myTurn then Max(a, b) else Min(a, b) }

  /** The value a ply starts from before any child is seen. */
  function Worst(myTurn: bool): Ext { if myTurn then NegInf else PosInf }

  /** The game: depth bound, terminal test, the actions of each side, the step that derives
      a child (returning the parent as it is afterwards and the child), the leaf heuristic
      and the action each position records as the one that produced it. */
  datatype Game<!P(!new), !A(!new)> = Game(
    maxDepth: nat,
    terminal: P -> bool,
    actions: (P, bool) -> seq<A>,
    expand: (P, A, bool) -> (P, P),
    score: (P, nat) -> real,
    moveOf: P -> A)
  {
    /** Every child records the action that produced it. */
    ghost predicate Tracks()
    {
      forall p: P, a: A, t: bool :: moveOf(expand(p, a, t).1) == a
    }
  }

  function Last<P>(path: seq<P>): P
    requires |path| > 0
  {
    path[|path| - 1]
  }

  /** The unpruned search: the value of the last node of `path` and the lineage of the leaf
      it comes from. A leaf (maximum depth or terminal) is scored; otherwise the children
      are visited in action order and a child's leaf replaces the running one only on
      strict improvement. */
  function Value<P(!new), A(!new)>(g: Game<P, A>, path: seq<P>, depth: nat, myTurn: bool): (r: (Ext, seq<P>))
    requires |path| > 0 && depth <= g.maxDepth
    ensures path <= r.1
    decreases g.maxDepth - depth, if myTurn then 1 else 0, 1, 0
  {
    var node := Last(path);
    if depth == g.maxDepth || g.terminal(node) then (Fin(g.score(node, depth)), path)
    else Fold(g, path, node, depth, myTurn, g.actions(node, myTurn), 0, Worst(myTurn), path)
  }

  /** The children loop from action `i` on, with the parent as the earlier steps left it. */
  function Fold<P(!new), A(!new)>(g: Game<P, A>, path: seq<P>, parent: P, depth: nat, myTurn: bool, acts: seq<A>, i: nat,
                      best: Ext, bestPath: seq<P>): (r: (Ext, seq<P>))
    requires |path| > 0 && depth < g.maxDepth && i <= |acts| && path <= bestPath
    ensures path <= r.1
    decreases g.maxDepth - depth, if myTurn then 1 else 0, 0, |acts| - i
  {
    if i == |acts| then (best, bestPath)
    else
      var step := g.expand(parent, acts[i], myTurn);
      var child := Value(g, path + [step.1], if myTurn then depth else depth + 1, !myTurn);
      Fold(g, path, step.0, depth, myTurn, acts, i + 1, Best(myTurn, best, child.0),
           if Better(myTurn, best, child.0) then child.1 else bestPath)
  }

  /** Later children never make the result worse for the side to move than the running best. */
  lemma {:induction false} FoldNeverWorse<P(!new), A(!new)>(g: Game<P, A>, path: seq<P>, parent: P, depth: nat, myTurn: bool,
                                                acts: seq<A>, i: nat, best: Ext, bestPath: seq<P>)
    requires |path| > 0 && depth < g.maxDepth && i <= |acts| && path <= bestPath
    ensures var r := Fold(g, path, parent, depth, myTurn, acts, i, best, bestPath).0;
      if myTurn then Le(best, r) else Le(r, best)
    decreases |acts| - i
  {
    if i < |acts| {
      var step := g.expand(parent, acts[i], myTurn);
      var child := Value(g, path + [step.1], if myTurn then depth else depth + 1, !myTurn);
      FoldNeverWorse(g, path, step.0, depth, myTurn, acts, i + 1, Best(myTurn, best, child.0),
                     if Better(myTurn, best, child.0) then child.1 else bestPath);
    }
  }

  /** Ties keep the earlier leaf: if the loop ends at the running best, no later child
      displaced the running leaf. */
  lemma {:induction false} FoldTiesKeepEarlier<P(!new), A(!new)>(g: Game<P, A>, path: seq<P>, parent: P, depth: nat, myTurn: bool,
                                                     acts: seq<A>, i: nat, best: Ext, bestPath: seq<P>)
    requires |path| > 0 && depth < g.maxDepth && i <= |acts| && path <= bestPath
    ensures var r := Fold(g, path, parent, depth, myTurn, acts, i, best, bestPath);
      r.0 == best ==> r.1 == bestPath
    decreases |acts| - i
  {
    if i < |acts| {
      var step := g.expand(parent, acts[i], myTurn);
      var child := Value(g, path + [step.1], if myTurn then depth else depth + 1, !myTurn);
      var best' := Best(myTurn, best, child.0);
      var bestPath' := if Better(myTurn, best, child.0) then child.1 else bestPath;
      FoldTiesKeepEarlier(g, path, step.0, depth, myTurn, acts, i + 1, best', bestPath');
      FoldNeverWorse(g, path, step.0, depth, myTurn, acts, i + 1, best', bestPath');
    }
  }

  /** The leaf found below a node is either the node itself or lies below the child made by
      one of the node's own actions. */
  lemma {:induction false} FoldLeafAction<P(!new), A(!new)>(g: Game<P, A>, path: seq<P>, parent: P, depth: nat, myTurn: bool,
                                                acts: seq<A>, i: nat, best: Ext, bestPath: seq<P>)
    requires g.Tracks()
    requires |path| > 0 && depth < g.maxDepth && i <= |acts| && path <= bestPath
    requires |bestPath| > |path| ==> g.moveOf(bestPath[|path|]) in acts
    ensures var r := Fold(g, path, parent, depth, myTurn, acts, i, best, bestPath).1;
      |r| > |path| ==> g.moveOf(r[|path|]) in acts
    decreases |acts| - i
  {
    if i < |acts| {
      var step := g.expand(parent, acts[i], myTurn);
      var childPath := path + [step.1];
      var child := Value(g, childPath, if myTurn then depth else depth + 1, !myTurn);
      assert childPath <= child.1;
      assert child.1[|path|] == step.1;
      assert g.moveOf(step.1) == acts[i];
      FoldLeafAction(g, path, step.0, depth, myTurn, acts, i + 1, Best(myTurn, best, child.0),
                     if Better(myTurn, best, child.0) then child.1 else bestPath);
    }
  }

  /** The leaf of a non-leaf node descends from the child of one of its actions. */
  lemma ValueLeafAction<P(!new), A(!new)>(g: Game<P, A>, path: seq<P>, depth: nat, myTurn: bool)
    requires g.Tracks() && |path| > 0 && depth <= g.maxDepth
    ensures var r := Value(g, path, depth, myTurn).1;
      |r| > |path| ==> g.moveOf(r[|path|]) in g.actions(Last(path), myTurn)
  {
    var node := Last(path);
    if !(depth == g.maxDepth || g.terminal(node)) {
      FoldLeafAction(g, path, node, depth, myTurn, g.actions(node, myTurn), 0, Worst(myTurn), path);
    }
  }

  /** The fail-soft contract of alpha-beta for a search window (alpha, beta) against the
      unpruned value `V` with leaf `L`: a result at or below alpha bounds V from above, a
      result at or above beta bounds it from below, a result strictly inside the window is
      exact and comes from the same leaf, and an infinite result at an infinite window
      edge also comes from the same leaf. */
  ghost predicate FailSoft<P>(alpha: Ext, beta: Ext, v: Ext, leaf: seq<P>, V: Ext, L: seq<P>)
  {
    && (Le(v, alpha) ==> Le(V, v))
    && (Le(beta, v) ==> Le(v, V))
    && (Lt(alpha, v) && Lt(v, beta) ==> v == V && leaf == L)
    && (v == NegInf && alpha == NegInf ==> leaf == L)
    && (v == PosInf && beta == PosInf ==> leaf == L)
  }

  /** alphabeta: the leaf case scores the node; otherwise the side to move's loop. */
  method AlphaBeta<P(!new), A(!new)>(g: Game<P, A>, path: seq<P>, depth: nat, alpha: Ext, beta: Ext, myTurn: bool)
    returns (v: Ext, leaf: seq<P>)
    requires |path| > 0 && depth <= g.maxDepth && Lt(alpha, beta)
    ensures path <= leaf
    ensures var (V, L) := Value(g, path, depth, myTurn); FailSoft(alpha, beta, v, leaf, V, L)
    decreases g.maxDepth - depth, if myTurn then 1 else 0, 1
  {
    var node := Last(path);
    if depth == g.maxDepth || g.terminal(node) {
      return Fin(g.score(node, depth)), path;
    }
    if myTurn {
      v, leaf := MaxPly(g, path, depth, alpha, beta);
    } else {
      v, leaf := MinPly(g, path, depth, alpha, beta);
    }
  }

  /** The maximiser's loop: children at the same depth with the opponent to move; a child's
      leaf is taken on strict improvement; cut off once the running max reaches beta;
      alpha rises to the running max. */
  method MaxPly<P(!new), A(!new)>(g: Game<P, A>, path: seq<P>, depth: nat, alpha: Ext, beta: Ext)
    returns (v: Ext, leaf: seq<P>)
    requires |path| > 0 && depth < g.maxDepth && !g.terminal(Last(path)) && Lt(alpha, beta)
    ensures path <= leaf
    ensures var (V, L) := Value(g, path, depth, true); FailSoft(alpha, beta, v, leaf, V, L)
    decreases g.maxDepth - depth, 1, 0
  {
    var node := Last(path);
    var acts := g.actions(node, true);
    var parent := node;
    var a := alpha;
    v := NegInf;
    leaf := path;
    ghost var S := NegInf;
    ghost var R := path;
    var i := 0;
    while i < |acts|
      invariant 0 <= i <= |acts| && path <= leaf && path <= R
      invariant Value(g, path, depth, true) == Fold(g, path, parent, depth, true, acts, i, S, R)
      invariant a == Max(alpha, v) && Lt(v, beta)
      invariant Le(v, alpha) ==> Le(S, v)
      invariant Lt(alpha, v) ==> S == v && leaf == R
      invariant v == NegInf ==> S == NegInf && leaf == path && R == path
      decreases |acts| - i
    {
      var step := g.expand(parent, acts[i], true);
      var childPath := path + [step.1];
      var cv, cleaf := AlphaBeta(g, childPath, depth, a, beta, false);
      ghost var (C, CL) := Value(g, childPath, depth, false);
      ghost var S' := Max(S, C);
      ghost var R' := if Lt(S, C) then CL else R;
      assert Fold(g, path, parent, depth, true, acts, i, S, R) == Fold(g, path, step.0, depth, true, acts, i + 1, S', R');
      if Lt(v, cv) {
        leaf := cleaf;
      }
      v := Max(v, cv);
      parent := step.0;
      S, R := S', R';
      i := i + 1;
      if Le(beta, v) {
        FoldNeverWorse(g, path, parent, depth, true, acts, i, S, R);
        if v == PosInf && beta == PosInf {
          FoldTiesKeepEarlier(g, path, parent, depth, true, acts, i, S, R);
        }
        break;
      }
      a := Max(a, v);
    }
  }

  /** The minimiser's loop: children one depth level deeper with the bot to move; cut off
      once the running min reaches alpha; beta falls to the running min. */
  method MinPly<P(!new), A(!new)>(g: Game<P, A>, path: seq<P>, depth: nat, alpha: Ext, beta: Ext)
    returns (v: Ext, leaf: seq<P>)
    requires |path| > 0 && depth < g.maxDepth && !g.terminal(Last(path)) && Lt(alpha, beta)
    ensures path <= leaf
    ensures var (V, L) := Value(g, path, depth, false); FailSoft(alpha, beta, v, leaf, V, L)
    decreases g.maxDepth - depth, 0, 0
  {
    var node := Last(path);
    var acts := g.actions(node, false);
    var parent := node;
    var b := beta;
    v := PosInf;
    leaf := path;
    ghost var S := PosInf;
    ghost var R := path;
    var i := 0;
    while i < |acts|
      invariant 0 <= i <= |acts| && path <= leaf && path <= R
      invariant Value(g, path, depth, false) == Fold(g, path, parent, depth, false, acts, i, S, R)
      invariant b == Min(beta, v) && Lt(alpha, v)
      invariant Le(beta, v) ==> Le(v, S)
      invariant Lt(v, beta) ==> S == v && leaf == R
      invariant v == PosInf ==> S == PosInf && leaf == path && R == path
      decreases |acts| - i
    {
      var step := g.expand(parent, acts[i], false);
      var childPath := path + [step.1];
      var cv, cleaf := AlphaBeta(g, childPath, depth + 1, alpha, b, true);
      ghost var (C, CL) := Value(g, childPath, depth + 1, true);
      ghost var S' := Min(S, C);
      ghost var R' := if Lt(C, S) then CL else R;
      assert Fold(g, path, parent, depth, false, acts, i, S, R) == Fold(g, path, step.0, depth, false, acts, i + 1, S', R');
      if Lt(cv, v) {
        leaf := cleaf;
      }
      v := Min(v, cv);
      parent := step.0;
      S, R := S', R';
      i := i + 1;
      if Le(v, alpha) {
        FoldNeverWorse(g, path, parent, depth, false, acts, i, S, R);
        if v == NegInf && alpha == NegInf {
          FoldTiesKeepEarlier(g, path, parent, depth, false, acts, i, S, R);
        }
        break;
      }
      b := Min(b, v);
    }
  }

  /** Called with the full window (-inf, +inf), alpha-beta returns exactly the unpruned
      minimax value and the same leaf. */
  method FullWindow<P(!new), A(!new)>(g: Game<P, A>, path: seq<P>, depth: nat, myTurn: bool) returns (v: Ext, leaf: seq<P>)
    requires |path| > 0 && depth <= g.maxDepth
    ensures (v, leaf) == Value(g, path, depth, myTurn)
  {
    v, leaf := AlphaBeta(g, path, depth, NegInf, PosInf, myTurn);
  }
}

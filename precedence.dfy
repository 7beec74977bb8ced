/** The binary-operator loop macro `parser!` (parser/src/parser/macro_utils.rs).
    Its first arm is the loop of every left-associative tier (`ParserSpec.LeftLoop`); the
    lemmas below characterise it completely. Its second arm runs several operator groups
    one after the other, each with a flag saying whether the operator token is eaten and an
    operator kind to record in place of the token's own. As written it reads the token kind
    after eating, so it records the kind of the token that follows the operator;
    `GroupLoopIntended` reads it before, and `term` is exactly that corrected arm. */
module Precedence {
  import opened Tokens
  import W = Wrappers
  import A = Ast
  import opened ParserSpec

  // ------------------------------------------------------------------------------------
  // First arm

  /** One round of the first arm's loop: the operator kind eaten, the operand parsed after
      it, and the cursor after that operand. */
  datatype Step = Step(kind: TokenKind, operand: A.Expression, end: nat)

  /** `steps` is what the loop reads from `p`, stopping at `q`. */
  ghost predicate Steps(t: Tier, s: Stream, p: nat, steps: seq<Step>, q: nat)
    requires p <= |s.toks|
    decreases |steps|
  {
    if steps == [] then
      q == p && Cur(s, p).kind !in Kinds(t)
    else
      Cur(s, p).kind == steps[0].kind && steps[0].kind in Kinds(t)
      && SubOp(t, s, Advance(s, p)) == W.Ok((steps[0].operand, steps[0].end))
      && Steps(t, s, steps[0].end, steps[1..], q)
  }

  /** Every kind a tier loops on has an operator. */
  lemma TierOperators(t: Tier, k: TokenKind)
    requires k in Kinds(t)
    ensures KindToOp(k).Ok?
  {
    match t
    case CmpTier => assert k in {Less, LessEqual, Greater, GreaterEqual, Equal, NotEqual};
    case ShiftTier => assert k == BitRightShift || k == BitLeftShift;
    case AddSubTier => assert k == Plus || k == Minus;
    case _ =>
  }

  /** The tree the loop builds from `node` and `steps`: each round nests everything so far
      on the left, records the operator of the kind it ate, and takes the shared `start`;
      the node ends where the token after its right operand ends. */
  function Fold(t: Tier, s: Stream, start: nat, node: A.Expression, steps: seq<Step>): A.Expression
    requires forall i :: 0 <= i < |steps| ==> steps[i].kind in Kinds(t)
    decreases |steps|
  {
    if steps == [] then node
    else
      TierOperators(t, steps[0].kind);
      Fold(t, s, start,
           A.BinaryExpression(start, Cur(s, steps[0].end).end, node, KindToOp(steps[0].kind).value,
                              steps[0].operand),
           steps[1..])
  }

  ghost predicate Kinded(t: Tier, steps: seq<Step>) {
    forall i :: 0 <= i < |steps| ==> steps[i].kind in Kinds(t)
  }

  lemma StepsKinded(t: Tier, s: Stream, p: nat, steps: seq<Step>, q: nat)
    requires p <= |s.toks| && Steps(t, s, p, steps, q)
    ensures Kinded(t, steps)
    decreases |steps|
  {
    if steps != [] {
      StepsKinded(t, s, steps[0].end, steps[1..], q);
    }
  }

  /** What the loop reads determines what it returns. */
  lemma {:induction false} LeftLoopFold(t: Tier, s: Stream, p: nat, start: nat, node: A.Expression,
                                        steps: seq<Step>, q: nat)
    requires p <= |s.toks| && Steps(t, s, p, steps, q)
    ensures Kinded(t, steps)
    ensures LeftLoop(t, s, p, start, node) == W.Ok((Fold(t, s, start, node, steps), q))
    decreases |steps|
  {
    StepsKinded(t, s, p, steps, q);
    if steps != [] {
      var built := StepRound(t, s, p, start, node, steps[0]);
      LeftLoopFold(t, s, steps[0].end, start, built, steps[1..], q);
      assert Fold(t, s, start, node, steps) == Fold(t, s, start, built, steps[1..]);
    }
  }

  /** One round read as `step`: the node it builds, from which the rest of the loop goes on. */
  lemma StepRound(t: Tier, s: Stream, p: nat, start: nat, node: A.Expression, step: Step)
    returns (built: A.Expression)
    requires p <= |s.toks| && Cur(s, p).kind == step.kind && step.kind in Kinds(t)
    requires SubOp(t, s, Advance(s, p)) == W.Ok((step.operand, step.end))
    ensures KindToOp(step.kind).Ok? && step.end <= |s.toks|
    ensures built == A.BinaryExpression(start, Cur(s, step.end).end, node, KindToOp(step.kind).value, step.operand)
    ensures LeftLoop(t, s, p, start, node) == LeftLoop(t, s, step.end, start, built)
  {
    TierOperators(t, step.kind);
    built := A.BinaryExpression(start, Cur(s, step.end).end, node, KindToOp(step.kind).value, step.operand);
    assert BinaryNode(s, step.end, start, node, step.operand, step.kind) == W.Ok(built);
  }

  /** And every result of the loop is such a fold: the two directions together say the
      loop returns exactly the left-nested tree of the operands it reads. */
  lemma {:induction false} LeftLoopSteps(t: Tier, s: Stream, p: nat, start: nat, node: A.Expression)
    returns (steps: seq<Step>)
    requires p <= |s.toks| && LeftLoop(t, s, p, start, node).Ok?
    ensures Steps(t, s, p, steps, LeftLoop(t, s, p, start, node).value.1)
    ensures Kinded(t, steps)
    ensures LeftLoop(t, s, p, start, node).value.0 == Fold(t, s, start, node, steps)
    decreases |s.toks| - p
  {
    var q := LeftLoop(t, s, p, start, node).value.1;
    if Cur(s, p).kind in Kinds(t) {
      var kind := Cur(s, p).kind;
      var right, built := LeftLoopRound(t, s, p, start, node);
      var rest := LeftLoopSteps(t, s, right.1, start, built);
      steps := [Step(kind, right.0, right.1)] + rest;
      assert steps[1..] == rest;
      assert Fold(t, s, start, node, steps) == Fold(t, s, start, built, rest);
    } else {
      steps := [];
    }
  }

  /** One round of a loop that succeeds: the operand it reads after the operator and the
      node it builds, from which the rest of the loop goes on. */
  lemma LeftLoopRound(t: Tier, s: Stream, p: nat, start: nat, node: A.Expression)
    returns (right: (A.Expression, nat), built: A.Expression)
    requires p <= |s.toks| && LeftLoop(t, s, p, start, node).Ok? && Cur(s, p).kind in Kinds(t)
    ensures SubOp(t, s, Advance(s, p)) == W.Ok(right) && right.1 <= |s.toks|
    ensures KindToOp(Cur(s, p).kind).Ok?
    ensures built == A.BinaryExpression(start, Cur(s, right.1).end, node, KindToOp(Cur(s, p).kind).value, right.0)
    ensures LeftLoop(t, s, p, start, node) == LeftLoop(t, s, right.1, start, built)
  {
    TierOperators(t, Cur(s, p).kind);
    right := SubOp(t, s, Advance(s, p)).value;
    built := BinaryNode(s, right.1, start, node, right.0, Cur(s, p).kind).value;
  }

  /** With no operator of the tier after the first operand, the tier returns that operand
      unchanged. */
  lemma OperandOnly(t: Tier, s: Stream, p: nat)
    requires p <= |s.toks| && SubOp(t, s, p).Ok?
    requires Cur(s, SubOp(t, s, p).value.1).kind !in Kinds(t)
    ensures LeftTier(t, s, p) == SubOp(t, s, p)
  {
    var q := SubOp(t, s, p).value.1;
    LeftLoopFold(t, s, q, Cur(s, p).start, SubOp(t, s, p).value.0, [], q);
  }

  /** `a op1 b op2 c` nests as `(a op1 b) op2 c`; both nodes start at `a`, and each records
      the operator of the kind it ate. */
  lemma LeftNesting(t: Tier, s: Stream, p: nat, a: A.Expression, b: A.Expression, c: A.Expression,
                    q1: nat, q2: nat, q3: nat)
    requires p <= |s.toks| && SubOp(t, s, p) == W.Ok((a, q1))
    requires Cur(s, q1).kind in Kinds(t) && SubOp(t, s, Advance(s, q1)) == W.Ok((b, q2))
    requires Cur(s, q2).kind in Kinds(t) && SubOp(t, s, Advance(s, q2)) == W.Ok((c, q3))
    requires Cur(s, q3).kind !in Kinds(t)
    ensures KindToOp(Cur(s, q1).kind).Ok? && KindToOp(Cur(s, q2).kind).Ok?
    ensures LeftTier(t, s, p) == W.Ok((
      A.BinaryExpression(Cur(s, p).start, Cur(s, q3).end,
        A.BinaryExpression(Cur(s, p).start, Cur(s, q2).end, a, KindToOp(Cur(s, q1).kind).value, b),
        KindToOp(Cur(s, q2).kind).value, c),
      q3))
  {
    var steps := [Step(Cur(s, q1).kind, b, q2), Step(Cur(s, q2).kind, c, q3)];
    assert steps[1..][1..] == [];
    assert Steps(t, s, q3, steps[1..][1..], q3);
    assert Steps(t, s, q2, steps[1..], q3);
    LeftLoopFold(t, s, q1, Cur(s, p).start, a, steps, q3);
    TierOperators(t, Cur(s, q1).kind);
    TierOperators(t, Cur(s, q2).kind);
    var start := Cur(s, p).start;
    var inner := A.BinaryExpression(start, Cur(s, q2).end, a, KindToOp(Cur(s, q1).kind).value, b);
    var outer := A.BinaryExpression(start, Cur(s, q3).end, inner, KindToOp(Cur(s, q2).kind).value, c);
    assert Fold(t, s, start, inner, steps[1..]) == Fold(t, s, start, outer, steps[1..][1..]);
    assert Fold(t, s, start, a, steps) == outer;
  }

  /** `e` is `base` under a left spine of binary nodes that all start at `start`. */
  ghost predicate LeftSpine(e: A.Expression, start: nat, base: A.Expression) {
    e == base || (e.BinaryExpression? && e.start == start && LeftSpine(e.left, start, base))
  }

  lemma {:induction false} FoldSpine(t: Tier, s: Stream, start: nat, node: A.Expression,
                                     steps: seq<Step>, inner: A.Expression)
    requires Kinded(t, steps) && LeftSpine(node, start, inner)
    ensures LeftSpine(Fold(t, s, start, node, steps), start, inner)
    decreases |steps|
  {
    if steps != [] {
      TierOperators(t, steps[0].kind);
      var built := A.BinaryExpression(start, Cur(s, steps[0].end).end, node,
                                      KindToOp(steps[0].kind).value, steps[0].operand);
      FoldSpine(t, s, start, built, steps[1..], inner);
    }
  }

  /** Shared start: every node one expansion builds starts at its first operand. */
  lemma SharedStart(t: Tier, s: Stream, p: nat)
    requires p <= |s.toks| && LeftTier(t, s, p).Ok?
    ensures SubOp(t, s, p).Ok?
    ensures LeftSpine(LeftTier(t, s, p).value.0, Cur(s, p).start, SubOp(t, s, p).value.0)
  {
    var first := SubOp(t, s, p).value;
    var steps := LeftLoopSteps(t, s, first.1, Cur(s, p).start, first.0);
    FoldSpine(t, s, Cur(s, p).start, first.0, steps, first.0);
  }

  // ------------------------------------------------------------------------------------
  // Second arm

  /** One operator group: the kinds it loops on, whether it eats the operator token, and
      the kind to record (`Unexpected` meaning: the current token's kind). */
  datatype Group = Group(kinds: set<TokenKind>, eat: bool, sub: TokenKind)

  /** The loop of one group, as written (macro_utils.rs:24-38): the operator is read after
      the optional eat. Operands are parsed by the tier `t`. */
  function GroupLoop(g: Group, t: Tier, s: Stream, p: nat, start: nat, node: A.Expression)
    : (r: Parsed<A.Expression>)
    requires p <= |s.toks|
    ensures Moved(s, p, r)
    decreases |s.toks| - p
  {
    if Cur(s, p).kind in g.kinds then
      var p1 := if g.eat then Advance(s, p) else p;
      var operator := if g.sub != Unexpected then g.sub else Cur(s, p1).kind;
      var right :- LeftTier(t, s, p1);
      var built :- BinaryNode(s, right.1, start, node, right.0, operator);
      GroupLoop(g, t, s, right.1, start, built)
    else
      W.Ok((node, p))
  }

  /** The groups `gs` run one after the other, each loop finishing before the next. */
  function GroupsFrom(gs: seq<Group>, t: Tier, s: Stream, p: nat, start: nat, node: A.Expression)
    : (r: Parsed<A.Expression>)
    requires p <= |s.toks|
    ensures Moved(s, p, r)
    decreases |gs|, 0
  {
    if gs == [] then W.Ok((node, p))
    else GroupThen(gs[0], gs[1..], t, s, p, start, node)
  }

  /** Group `g`, then the groups `rest`. */
  function GroupThen(g: Group, rest: seq<Group>, t: Tier, s: Stream, p: nat, start: nat,
                     node: A.Expression): (r: Parsed<A.Expression>)
    requires p <= |s.toks|
    ensures Moved(s, p, r)
    decreases |rest|, 1
  {
    var done :- GroupLoop(g, t, s, p, start, node);
    GroupsFrom(rest, t, s, done.1, start, done.0)
  }

  /** The second arm as written. */
  function ArmTwo(gs: seq<Group>, t: Tier, s: Stream, p: nat): (r: Parsed<A.Expression>)
    requires p <= |s.toks|
    ensures Consumed(s, p, r)
  {
    var first :- LeftTier(t, s, p);
    GroupsFrom(gs, t, s, first.1, Cur(s, p).start, first.0)
  }

  /** Where a round of group `g` at `p` parses its right operand: after the operator token
      when the group eats it, at the operator token itself when it does not. */
  function OperandAt(g: Group, s: Stream, p: nat): (q: nat)
    requires p <= |s.toks|
    ensures p <= q <= |s.toks| && (!g.eat ==> q == p)
  {
    if g.eat then Advance(s, p) else p
  }

  /** The kind a round at `p` records, as written: the group's substitute unless it is
      `Unexpected`, otherwise the kind of the token at the operand's position, read after
      the eat. */
  function RecordedKind(g: Group, s: Stream, p: nat): TokenKind
    requires p <= |s.toks|
  {
    if g.sub != Unexpected then g.sub else Cur(s, OperandAt(g, s, p)).kind
  }

  /** One round of a group's loop: the kind recorded, the operand parsed, and the cursor
      after that operand. */
  datatype GroupStep = GroupStep(kind: TokenKind, operand: A.Expression, end: nat)

  /** `steps` is what the loop of `g` reads from `p`, stopping at `q`: each round starts on
      a kind of the group, records `RecordedKind`, which has an operator, and parses its
      operand from `OperandAt`; the loop stops on a kind outside the group. */
  ghost predicate GroupSteps(g: Group, t: Tier, s: Stream, p: nat, steps: seq<GroupStep>, q: nat)
    requires p <= |s.toks|
    decreases |steps|
  {
    if steps == [] then
      q == p && Cur(s, p).kind !in g.kinds
    else
      Cur(s, p).kind in g.kinds && steps[0].kind == RecordedKind(g, s, p)
      && KindToOp(steps[0].kind).Ok?
      && LeftTier(t, s, OperandAt(g, s, p)) == W.Ok((steps[0].operand, steps[0].end))
      && GroupSteps(g, t, s, steps[0].end, steps[1..], q)
  }

  ghost predicate Recordable(steps: seq<GroupStep>) {
    forall i :: 0 <= i < |steps| ==> KindToOp(steps[i].kind).Ok?
  }

  /** The tree a group's loop builds from `node` and `steps`, nesting to the left from the
      shared `start`. */
  function GroupFold(s: Stream, start: nat, node: A.Expression, steps: seq<GroupStep>): A.Expression
    requires Recordable(steps)
    decreases |steps|
  {
    if steps == [] then node
    else
      GroupFold(s, start,
                A.BinaryExpression(start, Cur(s, steps[0].end).end, node,
                                   KindToOp(steps[0].kind).value, steps[0].operand),
                steps[1..])
  }

  lemma {:induction false} GroupStepsRecordable(g: Group, t: Tier, s: Stream, p: nat,
                                                steps: seq<GroupStep>, q: nat)
    requires p <= |s.toks| && GroupSteps(g, t, s, p, steps, q)
    ensures Recordable(steps)
    decreases |steps|
  {
    if steps != [] {
      GroupStepsRecordable(g, t, s, steps[0].end, steps[1..], q);
    }
  }

  /** What a group's loop reads determines what it returns. */
  lemma {:induction false} GroupLoopFold(g: Group, t: Tier, s: Stream, p: nat, start: nat,
                                         node: A.Expression, steps: seq<GroupStep>, q: nat)
    requires p <= |s.toks| && GroupSteps(g, t, s, p, steps, q)
    ensures Recordable(steps)
    ensures GroupLoop(g, t, s, p, start, node) == W.Ok((GroupFold(s, start, node, steps), q))
    decreases |steps|
  {
    GroupStepsRecordable(g, t, s, p, steps, q);
    if steps != [] {
      var built := A.BinaryExpression(start, Cur(s, steps[0].end).end, node,
                                      KindToOp(steps[0].kind).value, steps[0].operand);
      assert BinaryNode(s, steps[0].end, start, node, steps[0].operand, steps[0].kind) == W.Ok(built);
      GroupLoopFold(g, t, s, steps[0].end, start, built, steps[1..], q);
    }
  }

  /** And every result of a group's loop is such a fold. */
  lemma {:induction false} GroupLoopSteps(g: Group, t: Tier, s: Stream, p: nat, start: nat,
                                          node: A.Expression) returns (steps: seq<GroupStep>)
    requires p <= |s.toks| && GroupLoop(g, t, s, p, start, node).Ok?
    ensures GroupSteps(g, t, s, p, steps, GroupLoop(g, t, s, p, start, node).value.1)
    ensures Recordable(steps)
    ensures GroupLoop(g, t, s, p, start, node).value.0 == GroupFold(s, start, node, steps)
    decreases |s.toks| - p
  {
    if Cur(s, p).kind in g.kinds {
      var kind := RecordedKind(g, s, p);
      var right := LeftTier(t, s, OperandAt(g, s, p)).value;
      var built := BinaryNode(s, right.1, start, node, right.0, kind).value;
      var rest := GroupLoopSteps(g, t, s, right.1, start, built);
      steps := [GroupStep(kind, right.0, right.1)] + rest;
      assert steps[1..] == rest;
    } else {
      steps := [];
    }
  }

  /** A successful group loop stops on a kind outside the group. */
  lemma GroupLoopStops(g: Group, t: Tier, s: Stream, p: nat, start: nat, node: A.Expression)
    requires p <= |s.toks| && GroupLoop(g, t, s, p, start, node).Ok?
    ensures Cur(s, GroupLoop(g, t, s, p, start, node).value.1).kind !in g.kinds
  {
    var steps := GroupLoopSteps(g, t, s, p, start, node);
    GroupStepsEnd(g, t, s, p, steps, GroupLoop(g, t, s, p, start, node).value.1);
  }

  lemma {:induction false} GroupStepsEnd(g: Group, t: Tier, s: Stream, p: nat,
                                         steps: seq<GroupStep>, q: nat)
    requires p <= |s.toks| && GroupSteps(g, t, s, p, steps, q)
    ensures q <= |s.toks| && Cur(s, q).kind !in g.kinds
    decreases |steps|
  {
    if steps != [] {
      GroupStepsEnd(g, t, s, steps[0].end, steps[1..], q);
    }
  }

  /** A round whose recorded kind has no operator ends the loop in the `unreachable!` of
      `kind_to_op`, once its operand parses. */
  lemma GroupRoundPanics(g: Group, t: Tier, s: Stream, p: nat, start: nat, node: A.Expression)
    requires p <= |s.toks| && Cur(s, p).kind in g.kinds
    requires LeftTier(t, s, OperandAt(g, s, p)).Ok? && KindToOp(RecordedKind(g, s, p)).Err?
    ensures GroupLoop(g, t, s, p, start, node).Err?
    ensures GroupLoop(g, t, s, p, start, node).error == KindToOp(RecordedKind(g, s, p)).error
  {
  }

  /** The groups run in the listed order: group `i`'s loop runs from cursor `ps[i]` and
      node `ns[i]` to `ps[i + 1]` and `ns[i + 1]`. */
  ghost predicate GroupChain(gs: seq<Group>, t: Tier, s: Stream, start: nat,
                             ps: seq<nat>, ns: seq<A.Expression>)
  {
    |ps| == |gs| + 1 && |ns| == |gs| + 1
    && forall i :: 0 <= i < |gs| ==>
         ps[i] <= |s.toks| && GroupLoop(gs[i], t, s, ps[i], start, ns[i]) == W.Ok((ns[i + 1], ps[i + 1]))
  }

  /** Every successful run of the groups is such a chain, with each loop finished (on a
      kind outside its group) before the next begins. */
  lemma {:induction false} GroupsFromChain(gs: seq<Group>, t: Tier, s: Stream, p: nat, start: nat,
                                           node: A.Expression) returns (ps: seq<nat>, ns: seq<A.Expression>)
    requires p <= |s.toks| && GroupsFrom(gs, t, s, p, start, node).Ok?
    ensures GroupChain(gs, t, s, start, ps, ns) && ps[0] == p && ns[0] == node
    ensures GroupsFrom(gs, t, s, p, start, node).value == (ns[|gs|], ps[|gs|])
    ensures forall i :: 0 <= i < |gs| ==> ps[i] <= ps[i + 1] && Cur(s, ps[i + 1]).kind !in gs[i].kinds
    decreases |gs|
  {
    if gs == [] {
      ps, ns := [p], [node];
    } else {
      var done := GroupLoop(gs[0], t, s, p, start, node).value;
      GroupLoopStops(gs[0], t, s, p, start, node);
      var ps', ns' := GroupsFromChain(gs[1..], t, s, done.1, start, done.0);
      ps, ns := [p] + ps', [node] + ns';
      forall i | 0 < i < |gs|
        ensures ps[i] <= |s.toks| && GroupLoop(gs[i], t, s, ps[i], start, ns[i]) == W.Ok((ns[i + 1], ps[i + 1]))
        ensures ps[i] <= ps[i + 1] && Cur(s, ps[i + 1]).kind !in gs[i].kinds
      {
        assert gs[i] == gs[1..][i - 1] && ps[i] == ps'[i - 1] && ns[i] == ns'[i - 1];
        assert ps[i + 1] == ps'[i] && ns[i + 1] == ns'[i];
      }
    }
  }

  /** And every such chain is what the groups compute. */
  lemma {:induction false} ChainGroupsFrom(gs: seq<Group>, t: Tier, s: Stream, start: nat,
                                           ps: seq<nat>, ns: seq<A.Expression>)
    requires GroupChain(gs, t, s, start, ps, ns) && ps[0] <= |s.toks|
    ensures GroupsFrom(gs, t, s, ps[0], start, ns[0]) == W.Ok((ns[|gs|], ps[|gs|]))
    decreases |gs|
  {
    if gs != [] {
      assert GroupLoop(gs[0], t, s, ps[0], start, ns[0]) == W.Ok((ns[1], ps[1]));
      forall i | 0 <= i < |gs[1..]|
        ensures ps[1..][i] <= |s.toks|
                && GroupLoop(gs[1..][i], t, s, ps[1..][i], start, ns[1..][i]) == W.Ok((ns[1..][i + 1], ps[1..][i + 1]))
      {
        assert gs[1..][i] == gs[i + 1];
      }
      ChainGroupsFrom(gs[1..], t, s, start, ps[1..], ns[1..]);
    }
  }

  /** The loop of one group with the operator read before the eat. */
  function GroupLoopIntended(g: Group, t: Tier, s: Stream, p: nat, start: nat, node: A.Expression)
    : (r: Parsed<A.Expression>)
    requires p <= |s.toks|
    ensures Moved(s, p, r)
    decreases |s.toks| - p
  {
    if Cur(s, p).kind in g.kinds then
      var operator := if g.sub != Unexpected then g.sub else Cur(s, p).kind;
      var p1 := if g.eat then Advance(s, p) else p;
      var right :- LeftTier(t, s, p1);
      var built :- BinaryNode(s, right.1, start, node, right.0, operator);
      GroupLoopIntended(g, t, s, right.1, start, built)
    else
      W.Ok((node, p))
  }

  function GroupsFromIntended(gs: seq<Group>, t: Tier, s: Stream, p: nat, start: nat,
                              node: A.Expression): (r: Parsed<A.Expression>)
    requires p <= |s.toks|
    ensures Moved(s, p, r)
    decreases |gs|
  {
    if gs == [] then W.Ok((node, p))
    else
      var done :- GroupLoopIntended(gs[0], t, s, p, start, node);
      GroupsFromIntended(gs[1..], t, s, done.1, start, done.0)
  }

  /** The second arm with the operator read before the eat. */
  function ArmTwoIntended(gs: seq<Group>, t: Tier, s: Stream, p: nat): (r: Parsed<A.Expression>)
    requires p <= |s.toks|
    ensures Consumed(s, p, r)
  {
    var first :- LeftTier(t, s, p);
    GroupsFromIntended(gs, t, s, first.1, Cur(s, p).start, first.0)
  }

  /** `term` in the terms of the second arm: juxtaposed operands recorded as `Multiply`
      without eating, then eaten `* / %` recorded as themselves. */
  const TermGroups: seq<Group> :=
    [Group(JuxtaposedKinds, false, Multiply), Group(MultiplicativeKinds, true, Unexpected)]

  lemma {:induction false} MulLoopIsGroup(s: Stream, p: nat, start: nat, node: A.Expression)
    requires p <= |s.toks|
    ensures GroupLoopIntended(TermGroups[1], PowerTier, s, p, start, node) == MulLoop(s, p, start, node)
    decreases |s.toks| - p
  {
    if Cur(s, p).kind in MultiplicativeKinds {
      var right := LeftTier(PowerTier, s, Advance(s, p));
      if right.Ok? {
        var built := BinaryNode(s, right.value.1, start, node, right.value.0, Cur(s, p).kind);
        if built.Ok? {
          MulLoopIsGroup(s, right.value.1, start, built.value);
        }
      }
    }
  }

  lemma {:induction false} JuxtLoopIsGroups(s: Stream, p: nat, start: nat, node: A.Expression)
    requires p <= |s.toks|
    ensures GroupsFromIntended(TermGroups, PowerTier, s, p, start, node) == JuxtLoop(s, p, start, node)
    decreases |s.toks| - p
  {
    var g := TermGroups[0];
    assert TermGroups[1..] == [TermGroups[1]];
    assert TermGroups[1..][1..] == [];
    if Cur(s, p).kind in JuxtaposedKinds {
      var right := LeftTier(PowerTier, s, p);
      if right.Ok? {
        var built := BinaryNode(s, right.value.1, start, node, right.value.0, Multiply);
        JuxtLoopIsGroups(s, right.value.1, start, built.value);
      }
    } else {
      MulLoopIsGroup(s, p, start, node);
      assert GroupLoopIntended(g, PowerTier, s, p, start, node) == W.Ok((node, p));
      var m := GroupLoopIntended(TermGroups[1], PowerTier, s, p, start, node);
      if m.Ok? {
        assert GroupsFromIntended(TermGroups[1..][1..], PowerTier, s, m.value.1, start, m.value.0)
            == W.Ok(m.value);
      }
      assert GroupsFromIntended(TermGroups[1..], PowerTier, s, p, start, node) == m;
    }
  }

  /** `term` is the second arm, corrected, over `power` with `TermGroups`. */
  lemma TermIsIntendedArmTwo(s: Stream, p: nat)
    requires p <= |s.toks|
    ensures Term(s, p) == ArmTwoIntended(TermGroups, PowerTier, s, p)
  {
    var first := LeftTier(PowerTier, s, p);
    if first.Ok? {
      JuxtLoopIsGroups(s, first.value.1, Cur(s, p).start, first.value.0);
    }
  }

  /** As written, the second arm with `TermGroups` records, for `a * b`, the kind of the
      first token of `b` as the operator. When that token starts an identifier, a number
      or a parenthesis, `kind_to_op` has no arm for it and the parse panics, where `term`
      builds the product. */
  lemma ArmTwoMisrecords(s: Stream, p: nat, a: A.Expression, b: A.Expression, q1: nat, q2: nat)
    requires p <= |s.toks| && LeftTier(PowerTier, s, p) == W.Ok((a, q1))
    requires Cur(s, q1).kind == Multiply
    requires Cur(s, Advance(s, q1)).kind in JuxtaposedKinds
    requires LeftTier(PowerTier, s, Advance(s, q1)) == W.Ok((b, q2))
    requires Cur(s, q2).kind !in MultiplicativeKinds
    ensures ArmTwo(TermGroups, PowerTier, s, p) == W.Err(W.Panic(UnreachableOperator))
    ensures Term(s, p) == W.Ok((A.BinaryExpression(Cur(s, p).start, Cur(s, q2).end, a, A.Operator.Multiply, b), q2))
  {
    assert TermGroups[1..] == [TermGroups[1]];
    var start := Cur(s, p).start;
    assert GroupLoop(TermGroups[0], PowerTier, s, q1, start, a) == W.Ok((a, q1));
    MultiplyRecordsOperand(s, q1, start, a, b, q2);
    assert GroupsFrom(TermGroups[1..], PowerTier, s, q1, start, a) == W.Err(W.Panic(UnreachableOperator));
    assert GroupThen(TermGroups[0], TermGroups[1..], PowerTier, s, q1, start, a) == W.Err(W.Panic(UnreachableOperator));
    assert GroupsFrom(TermGroups, PowerTier, s, q1, start, a) == W.Err(W.Panic(UnreachableOperator));
    TermProduct(s, p, a, b, q1, q2);
  }

  /** The eating group of the second arm, at `* b`, records the kind of `b`'s first token,
      which has no operator. */
  lemma MultiplyRecordsOperand(s: Stream, q1: nat, start: nat, a: A.Expression, b: A.Expression, q2: nat)
    requires q1 <= |s.toks| && Cur(s, q1).kind == Multiply
    requires Cur(s, Advance(s, q1)).kind in JuxtaposedKinds
    requires LeftTier(PowerTier, s, Advance(s, q1)) == W.Ok((b, q2))
    ensures GroupLoop(TermGroups[1], PowerTier, s, q1, start, a) == W.Err(W.Panic(UnreachableOperator))
  {
    var k := Cur(s, Advance(s, q1)).kind;
    assert KindToOp(k) == W.Err(W.Panic(UnreachableOperator)) by {
      assert k == Identifier || k == LParen || k == TokenKind.Number;
    }
    assert BinaryNode(s, q2, start, a, b, k) == W.Err(W.Panic(UnreachableOperator));
  }

  /** `term` on `a * b`: one product, nested to the left of nothing. */
  lemma TermProduct(s: Stream, p: nat, a: A.Expression, b: A.Expression, q1: nat, q2: nat)
    requires p <= |s.toks| && LeftTier(PowerTier, s, p) == W.Ok((a, q1))
    requires Cur(s, q1).kind == Multiply
    requires LeftTier(PowerTier, s, Advance(s, q1)) == W.Ok((b, q2))
    requires Cur(s, q2).kind !in MultiplicativeKinds
    ensures Term(s, p) == W.Ok((A.BinaryExpression(Cur(s, p).start, Cur(s, q2).end, a, A.Operator.Multiply, b), q2))
  {
    var start := Cur(s, p).start;
    var product := A.BinaryExpression(start, Cur(s, q2).end, a, A.Operator.Multiply, b);
    assert MulLoop(s, q2, start, product) == W.Ok((product, q2));
    assert MulLoop(s, q1, start, a) == W.Ok((product, q2));
  }
}

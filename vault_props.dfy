/** What each scope operation of the interpreter (interpreter/src/interpreter/mod.rs) does to
    the vault, the stack and the current scope, and what pairs of them restore. */
module VaultProps {
  import opened Wrappers
  import opened ScopePaths
  import opened Vault
  import A = Ast

  /** The bindings `initialize` gives `std.$0`. */
  const Natives: map<string, ScopeValues> :=
    map["print" := NativeFunction(Print), "println" := NativeFunction(Println)]

  /** Every key other than the listed ones keeps its presence and its record. */
  ghost predicate SameElsewhere(before: map<string, ScopeValue>, after: map<string, ScopeValue>, touched: set<string>) {
    forall k | k !in touched :: (k in after <==> k in before) && (k in before ==> after[k] == before[k])
  }

  /** `initialize` pushes `std.$0` and then `global.$0`, makes `global.$0` current, gives
      each a record of its own, and binds `print` and `println` in `std.$0`. */
  lemma InitializeEffect(st: Scopes)
    ensures var r := Initialize(st);
            r.stack == st.stack + [StdScope, GlobalScope] && r.current == GlobalScope && Tracking(r)
            && r.vault == st.vault[StdScope := ScopeValue(Natives, [])][GlobalScope := Fresh]
  {
    var std := InitScope(st, StdScope);
    assert std.vault[StdScope].values == map[];
    assert AddNatives(std).value.vault[StdScope] == ScopeValue(Natives, []);
  }

  /** From a new interpreter `initialize` leaves exactly the two root scopes. */
  lemma InitializeFromNew()
    ensures Initialize(Scopes(map[], [], "")) ==
            Scopes(map[StdScope := ScopeValue(Natives, []), GlobalScope := Fresh], [StdScope, GlobalScope], GlobalScope)
  {
    InitializeEffect(Scopes(map[], [], ""));
  }

  /** `parse_current_scope` panics exactly when the current path does not read back. */
  lemma CurrentPartsCases(st: Scopes)
    ensures CurrentParts(st).Ok? <==> ParseScope(st.current).Parsed?
    ensures ParseScope(st.current).Parsed? ==>
            CurrentParts(st).value == (ParseScope(st.current).prefix, ParseScope(st.current).number)
    ensures ParseScope(st.current).NoSeparator? ==> CurrentParts(st) == Err(Panic(UnwrapNone))
    ensures ParseScope(st.current).BadNumber? ==> CurrentParts(st) == Err(Panic(UnwrapErr))
  {
  }

  /** `enter_named_scope` from a path that reads back as `P` and some number: it appends
      `P.name.$0` to the current record's references (keeping its bindings), gives that path
      a fresh record, and pushes it as the current scope; no other record changes. It
      panics when the current path does not read back or has no record. */
  lemma EnterNamedEffect(st: Scopes, name: string)
    ensures EnterNamed(st, name).Ok? <==> ParseScope(st.current).Parsed? && st.current in st.vault
    ensures ParseScope(st.current).Parsed? && st.current !in st.vault ==> EnterNamed(st, name) == Err(Panic(UnwrapNone))
    ensures EnterNamed(st, name).Ok? ==>
            var r := EnterNamed(st, name).value;
            var path := NamedPath(ParseScope(st.current).prefix, name);
            var before := st.vault[st.current];
            r.stack == st.stack + [path] && r.current == path && Tracking(r)
            && r.vault[path] == Fresh
            && r.vault[st.current] == before.(namedScopeRefs := before.namedScopeRefs + [path])
            && SameElsewhere(st.vault, r.vault, {path, st.current})
  {
    if EnterNamed(st, name).Ok? {
      NamedNotParsed(st.current, name);
    }
  }

  /** The named path drops the number of the block it is entered from: from `P.$n` the
      scope `name` is `P.name.$0`, block 0 under `P.name`, whatever `n` is. */
  lemma EnterFromBlock(st: Scopes, prefix: string, n: nat, name: string)
    requires st.current == BlockPath(prefix, n) && n < USizeLimit && st.current in st.vault
    ensures EnterNamed(st, name).Ok?
    ensures EnterNamed(st, name).value.current == BlockPath(prefix + "." + name, 0)
  {
    ParseBlockPath(prefix, n);
    NamedIsBlockZero(prefix, name);
  }

  /** `exit_named_scope` only pops: the vault, and the named scope's record in it, stay as
      they are. It panics when nothing is left on the stack. */
  lemma ExitNamedEffect(st: Scopes)
    ensures ExitNamed(st).Ok? <==> |st.stack| >= 2
    ensures ExitNamed(st).Ok? ==>
            var r := ExitNamed(st).value;
            r.vault == st.vault && r.stack == st.stack[..|st.stack| - 1] && Tracking(r)
  {
  }

  /** `increment_scope` from `P.$n` pushes `P.$(n+1)`, a different path that reads back as
      `P` and `n + 1`, with a fresh record; no other record changes. */
  lemma IncrementEffect(st: Scopes)
    ensures Increment(st).Ok? <==> ParseScope(st.current).Parsed? && ParseScope(st.current).number + 1 < USizeLimit
    ensures ParseScope(st.current).Parsed? && ParseScope(st.current).number + 1 >= USizeLimit ==>
            Increment(st) == Err(Panic(AddOverflow))
    ensures Increment(st).Ok? ==>
            var r := Increment(st).value;
            var prefix := ParseScope(st.current).prefix;
            var n := ParseScope(st.current).number;
            r.current == BlockPath(prefix, n + 1) && ParseScope(r.current) == Parsed(prefix, n + 1)
            && r.current != st.current
            && r.stack == st.stack + [r.current] && Tracking(r)
            && r.vault[r.current] == Fresh && SameElsewhere(st.vault, r.vault, {r.current})
  {
    if Increment(st).Ok? {
      ParseBlockPath(ParseScope(st.current).prefix, ParseScope(st.current).number + 1);
    }
  }

  /** `decrement_scope` removes exactly the current scope and the named scopes its record
      refers to, and pops. It panics when the current scope has no record or the stack
      has only the current scope left. */
  lemma DecrementEffect(st: Scopes)
    ensures Decrement(st).Ok? <==> st.current in st.vault && |st.stack| >= 2
    ensures Decrement(st).Ok? ==>
            var r := Decrement(st).value;
            var refs := st.vault[st.current].namedScopeRefs;
            (forall k :: k in r.vault <==> k in st.vault && k != st.current && k !in refs)
            && (forall k | k in r.vault :: r.vault[k] == st.vault[k])
            && r.stack == st.stack[..|st.stack| - 1] && Tracking(r)
  {
  }

  /** Entering a named scope and exiting it restores the stack and the current scope; the
      named record stays behind. */
  lemma EnterExitRestores(st: Scopes, name: string)
    requires Tracking(st) && EnterNamed(st, name).Ok?
    ensures var entered := EnterNamed(st, name).value;
            ExitNamed(entered).Ok?
            && ExitNamed(entered).value.stack == st.stack
            && ExitNamed(entered).value.current == st.current
            && entered.current in ExitNamed(entered).value.vault
  {
    var entered := EnterNamed(st, name).value;
    assert Pop(entered.stack) == st.stack;
  }

  /** Incrementing and decrementing restores the stack and the current scope, and leaves
      the vault as it was apart from the block's own path. */
  lemma IncrementDecrementRestores(st: Scopes)
    requires Tracking(st) && Increment(st).Ok?
    ensures var entered := Increment(st).value;
            Decrement(entered) == Ok(Scopes(st.vault - {entered.current}, st.stack, st.current))
  {
    var entered := Increment(st).value;
    assert Pop(entered.stack) == st.stack;
    var path := entered.current;
    assert (set k | k in Fresh.namedScopeRefs) == {};
    assert RemoveKeys(entered.vault, Fresh.namedScopeRefs) == entered.vault;
    assert entered.vault - {path} == st.vault - {path};
  }

  /** Evaluating a scope declaration or a block that nests only such statements leaves
      the stack and the current scope as they were, unless it panics. */
  lemma EvalStatementRestores(s: A.Statement, st: Scopes)
    requires ScopeOnly(s) && Tracking(st)
    ensures EvalStatement(s, st).Ok? ==>
            EvalStatement(s, st).value.stack == st.stack && EvalStatement(s, st).value.current == st.current
    decreases s, 2
  {
    if s.ScopeDeclaration? {
      NamedArmRestores(s, st);
    } else {
      BlockArmRestores(s, st);
    }
  }

  lemma NamedArmRestores(s: A.Statement, st: Scopes)
    requires ScopeOnly(s) && s.ScopeDeclaration? && Tracking(st)
    ensures EvalStatement(s, st).Ok? ==>
            EvalStatement(s, st).value.stack == st.stack && EvalStatement(s, st).value.current == st.current
    decreases s, 1
  {
    var entered := EnterNamed(st, ScopeName(s));
    if entered.Ok? {
      assert entered.value.stack == st.stack + [entered.value.current];
      EvalBodyRestores(s, 0, entered.value);
      var done := EvalBody(s, 0, entered.value);
      if done.Ok? {
        assert Pop(done.value.stack) == st.stack;
      }
    }
  }

  lemma BlockArmRestores(s: A.Statement, st: Scopes)
    requires ScopeOnly(s) && s.BlockStatement? && Tracking(st)
    ensures EvalStatement(s, st).Ok? ==>
            EvalStatement(s, st).value.stack == st.stack && EvalStatement(s, st).value.current == st.current
    decreases s, 1
  {
    var entered := Increment(st);
    if entered.Ok? {
      assert entered.value.stack == st.stack + [entered.value.current];
      EvalBodyRestores(s, 0, entered.value);
      var done := EvalBody(s, 0, entered.value);
      if done.Ok? {
        assert Pop(done.value.stack) == st.stack;
      }
    }
  }

  /** Evaluating a run of such statements leaves the stack and current scope as they were. */
  lemma EvalBodyRestores(parent: A.Statement, i: nat, st: Scopes)
    requires ScopeOnly(parent) && i <= |parent.body| && Tracking(st)
    ensures EvalBody(parent, i, st).Ok? ==>
            EvalBody(parent, i, st).value.stack == st.stack && EvalBody(parent, i, st).value.current == st.current
    decreases parent, 0, |parent.body| - i
  {
    if i < |parent.body| && EvalStatement(parent.body[i], st).Ok? {
      EvalStatementRestores(parent.body[i], st);
      EvalBodyRestores(parent, i + 1, EvalStatement(parent.body[i], st).value);
    }
  }
}

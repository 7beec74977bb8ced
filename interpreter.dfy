/** The interpreter's scope bookkeeping (interpreter/src/interpreter/mod.rs) as an object
    whose methods update its stack, current scope and vault in place. Each method is proved
    to reach the state the matching `Vault` function computes, or to stop with the panic
    that function names. */
module Interpreting {
  import W = Wrappers
  import opened ScopePaths
  import opened Tokens
  import A = Ast
  import V = Vault

  /** A method's result agrees with the transition `spec`: when `spec` succeeds the method
      returns `Ok(())` in state `spec.value`; when it panics the method returns that panic. */
  predicate Outcome(spec: W.Result<V.Scopes>, r: W.Result<()>, now: V.Scopes) {
    match spec
    case Ok(st) => r == W.Ok(()) && now == st
    case Err(f) => r == W.Err(f)
  }

  class Interpreter {
    var scopeStack: seq<string>
    var currentScope: string
    var vault: map<string, V.ScopeValue>

    function State(): V.Scopes
      reads this
    {
      V.Scopes(vault, scopeStack, currentScope)
    }

    /** `Interpreter::new`: an empty stack, an empty current scope and an empty vault. */
    constructor ()
      ensures State() == V.Scopes(map[], [], "")
    {
      scopeStack := [];
      currentScope := "";
      vault := map[];
    }

    method UpdateCurrentScope() returns (r: W.Result<()>)
      modifies this
      ensures Outcome(V.UpdateCurrent(old(State())), r, State())
    {
      if |scopeStack| == 0 {
        return W.Err(W.Panic(V.UnwrapNone));
      }
      currentScope := scopeStack[|scopeStack| - 1];
      return W.Ok(());
    }

    method InitScope(name: string)
      modifies this
      ensures State() == V.InitScope(old(State()), name)
    {
      vault := vault[name := V.Fresh];
      scopeStack := scopeStack + [name];
      var _ := UpdateCurrentScope();
    }

    method AddNativeFunctions() returns (r: W.Result<()>)
      modifies this
      ensures Outcome(V.AddNatives(old(State())), r, State())
    {
      if currentScope !in vault {
        return W.Err(W.Panic(V.UnwrapNone));
      }
      var record := vault[currentScope];
      record := record.(values := record.values["print" := V.NativeFunction(V.Print)]);
      record := record.(values := record.values["println" := V.NativeFunction(V.Println)]);
      vault := vault[currentScope := record];
      return W.Ok(());
    }

    method Initialize()
      modifies this
      ensures State() == V.Initialize(old(State()))
    {
      vault := vault[V.StdScope := V.Fresh];
      scopeStack := scopeStack + [V.StdScope];
      var _ := UpdateCurrentScope();
      var _ := AddNativeFunctions();
      vault := vault[V.GlobalScope := V.Fresh];
      scopeStack := scopeStack + [V.GlobalScope];
      var _ := UpdateCurrentScope();
    }

    method ParseCurrentScope() returns (r: W.Result<(string, nat)>)
      ensures r == V.CurrentParts(State())
    {
      var split := SplitScope(currentScope);
      if split.None? {
        return W.Err(W.Panic(V.UnwrapNone));
      }
      var (prefix, number) := split.value;
      var n := ParseUsize(number);
      if n.None? {
        return W.Err(W.Panic(V.UnwrapErr));
      }
      return W.Ok((prefix, n.value));
    }

    method SendScopeRef(name: string) returns (r: W.Result<()>)
      modifies this
      ensures Outcome(V.SendRef(old(State()), name), r, State())
    {
      if currentScope !in vault {
        return W.Err(W.Panic(V.UnwrapNone));
      }
      var record := vault[currentScope];
      vault := vault[currentScope := record.(namedScopeRefs := record.namedScopeRefs + [name])];
      return W.Ok(());
    }

    method EnterNamedScope(name: string) returns (r: W.Result<()>)
      modifies this
      ensures Outcome(V.EnterNamed(old(State()), name), r, State())
    {
      var parts := ParseCurrentScope();
      if parts.Err? {
        return W.Err(parts.error);
      }
      var newScope := NamedPath(parts.value.0, name);
      r := SendScopeRef(newScope);
      if r.Err? {
        return;
      }
      InitScope(newScope);
    }

    method ExitNamedScope() returns (r: W.Result<()>)
      modifies this
      ensures Outcome(V.ExitNamed(old(State())), r, State())
    {
      if |scopeStack| > 0 {
        scopeStack := scopeStack[..|scopeStack| - 1];
      }
      r := UpdateCurrentScope();
    }

    method IncrementScope() returns (r: W.Result<()>)
      modifies this
      ensures Outcome(V.Increment(old(State())), r, State())
    {
      var parts := ParseCurrentScope();
      if parts.Err? {
        return W.Err(parts.error);
      }
      var (prefix, num) := parts.value;
      if num + 1 >= USizeLimit {
        return W.Err(W.Panic(V.AddOverflow));
      }
      InitScope(BlockPath(prefix, num + 1));
      return W.Ok(());
    }

    method DecrementScope() returns (r: W.Result<()>)
      modifies this
      ensures Outcome(V.Decrement(old(State())), r, State())
    {
      var scope := currentScope;
      if scope !in vault {
        return W.Err(W.Panic(V.UnwrapNone));
      }
      var refs := vault[scope].namedScopeRefs;
      for i := 0 to |refs|
        invariant vault == V.RemoveKeys(old(vault), refs[..i])
        invariant scopeStack == old(scopeStack) && currentScope == old(currentScope)
      {
        assert refs[..i + 1] == refs[..i] + [refs[i]];
        vault := vault - {refs[i]};
      }
      assert refs[..|refs|] == refs;
      vault := vault - {scope};
      if |scopeStack| > 0 {
        scopeStack := scopeStack[..|scopeStack| - 1];
      }
      r := UpdateCurrentScope();
    }

    /** The scope-declaration and block arms of `eval_statement`. */
    method EvalStatement(s: A.Statement) returns (r: W.Result<()>)
      requires V.ScopeOnly(s)
      modifies this
      ensures Outcome(V.EvalStatement(s, old(State())), r, State())
      decreases s, 1
    {
      if s.ScopeDeclaration? {
        r := EnterNamedScope(TokenText(s.id));
        if r.Err? {
          return;
        }
        r := EvalProgramBody(s);
        if r.Err? {
          return;
        }
        r := ExitNamedScope();
      } else {
        r := IncrementScope();
        if r.Err? {
          return;
        }
        r := EvalProgramBody(s);
        if r.Err? {
          return;
        }
        r := DecrementScope();
      }
    }

    /** `eval_program_body` on the statements of `parent`, in order, stopping at a panic. */
    method EvalProgramBody(parent: A.Statement) returns (r: W.Result<()>)
      requires V.ScopeOnly(parent)
      modifies this
      ensures Outcome(V.EvalBody(parent, 0, old(State())), r, State())
      decreases parent, 0
    {
      var body := parent.body;
      for i := 0 to |body|
        invariant V.EvalBody(parent, 0, old(State())) == V.EvalBody(parent, i, State())
      {
        r := EvalStatement(body[i]);
        if r.Err? {
          return;
        }
      }
      return W.Ok(());
    }
  }
}

/** The scope vault of the interpreter (interpreter/src/interpreter/mod.rs) as values: the
    vault maps scope paths to records, the stack holds the active paths, and the current
    scope is the path the stack ends with. Each operation of the `Interpreter` is a function
    from the state before to the state after, or to the panic that ends the run (the
    `unwrap` of a missing record, a pathless stack or an unreadable path). The class
    `Interpreting.Interpreter` changes the same state in place. */
module Vault {
  import opened Wrappers
  import opened ScopePaths
  import opened Tokens
  import A = Ast

  datatype NativeFunction = Print | Println

  /** A binding; the code modelled here binds only native functions. */
  datatype ScopeValues = NativeFunction(native: NativeFunction)

  /** A scope record: its bindings, and the paths of the named scopes entered from it. */
  datatype ScopeValue = ScopeValue(values: map<string, ScopeValues>, namedScopeRefs: seq<string>)

  /** `ScopeValue::new()`. */
  const Fresh := ScopeValue(map[], [])

  const StdScope := "std.$0"
  const GlobalScope := "global.$0"

  const UnwrapNone := "called `Option::unwrap()` on a `None` value"
  const UnwrapErr := "called `Result::unwrap()` on an `Err` value"
  const AddOverflow := "attempt to add with overflow"

  datatype Scopes = Scopes(vault: map<string, ScopeValue>, stack: seq<string>, current: string)

  /** The current scope is the top of a non-empty stack. */
  predicate Tracking(st: Scopes) {
    |st.stack| > 0 && st.current == st.stack[|st.stack| - 1]
  }

  /** `Vec::pop`, which leaves an empty stack empty. */
  function Pop(stack: seq<string>): seq<string> {
    if stack == [] then [] else stack[..|stack| - 1]
  }

  /** `update_current_scope`. */
  function UpdateCurrent(st: Scopes): Result<Scopes> {
    if st.stack == [] then Err(Panic(UnwrapNone))
    else Ok(st.(current := st.stack[|st.stack| - 1]))
  }

  /** `init_scope`: a fresh record at `name`, replacing any record there, pushed and made
      current. */
  function InitScope(st: Scopes, name: string): Scopes {
    Scopes(st.vault[name := Fresh], st.stack + [name], name)
  }

  /** A binding written into the current record (`get_curr_value().insert`). */
  function Bind(st: Scopes, name: string, value: ScopeValues): Result<Scopes> {
    if st.current !in st.vault then Err(Panic(UnwrapNone))
    else
      var record := st.vault[st.current];
      Ok(st.(vault := st.vault[st.current := record.(values := record.values[name := value])]))
  }

  /** `add_native_functions`: `print`, then `println`, bound in the current record. */
  function AddNatives(st: Scopes): Result<Scopes> {
    var printed :- Bind(st, "print", NativeFunction(Print));
    Bind(printed, "println", NativeFunction(Println))
  }

  /** `initialize`: `std.$0` with the native functions, then `global.$0` on top. */
  function Initialize(st: Scopes): Scopes {
    var std := InitScope(st, StdScope);
    var natives := AddNatives(std);
    InitScope(natives.value, GlobalScope)
  }

  /** `parse_current_scope`: the current path's prefix and block number. */
  function CurrentParts(st: Scopes): Result<(string, nat)> {
    match ParseScope(st.current)
    case Parsed(prefix, n) => Ok((prefix, n))
    case NoSeparator => Err(Panic(UnwrapNone))
    case BadNumber => Err(Panic(UnwrapErr))
  }

  /** `send_scope_ref`: `name` appended to the current record's named-scope references. */
  function SendRef(st: Scopes, name: string): Result<Scopes> {
    if st.current !in st.vault then Err(Panic(UnwrapNone))
    else
      var record := st.vault[st.current];
      Ok(st.(vault := st.vault[st.current := record.(namedScopeRefs := record.namedScopeRefs + [name])]))
  }

  /** `enter_named_scope`. */
  function EnterNamed(st: Scopes, name: string): Result<Scopes> {
    var parts :- CurrentParts(st);
    var path := NamedPath(parts.0, name);
    var sent :- SendRef(st, path);
    Ok(InitScope(sent, path))
  }

  /** `exit_named_scope`. */
  function ExitNamed(st: Scopes): Result<Scopes> {
    UpdateCurrent(st.(stack := Pop(st.stack)))
  }

  /** `increment_scope`; `num + 1` overflowing `usize` panics. */
  function Increment(st: Scopes): Result<Scopes> {
    var parts :- CurrentParts(st);
    if parts.1 + 1 >= USizeLimit then Err(Panic(AddOverflow))
    else Ok(InitScope(st, BlockPath(parts.0, parts.1 + 1)))
  }

  /** The vault without the given keys. */
  function RemoveKeys(vault: map<string, ScopeValue>, keys: seq<string>): map<string, ScopeValue> {
    vault - (set k | k in keys)
  }

  /** `decrement_scope`. */
  function Decrement(st: Scopes): Result<Scopes> {
    if st.current !in st.vault then Err(Panic(UnwrapNone))
    else
      var refs := st.vault[st.current].namedScopeRefs;
      UpdateCurrent(Scopes(RemoveKeys(st.vault, refs) - {st.current}, Pop(st.stack), st.current))
  }

  // ------------------------------------------------------------------------------------
  // The two scope arms of `eval_statement`

  /** A named-scope declaration or a block, all of whose statements are such too. */
  predicate ScopeOnly(s: A.Statement) {
    if s.ScopeDeclaration? then forall t | t in s.body :: ScopeOnly(t)
    else if s.BlockStatement? then forall t | t in s.body :: ScopeOnly(t)
    else false
  }

  /** The name `eval_statement` enters for a scope declaration: the display of its token. */
  function ScopeName(s: A.Statement): string
    requires s.ScopeDeclaration?
  {
    TokenText(s.id)
  }

  /** `eval_statement` on a scope declaration (enter, the body, exit) or a block
      (increment, the body, decrement). */
  function EvalStatement(s: A.Statement, st: Scopes): Result<Scopes>
    requires ScopeOnly(s)
    decreases s, 1, 0
  {
    if s.ScopeDeclaration? then
      var entered :- EnterNamed(st, ScopeName(s));
      var done :- EvalBody(s, 0, entered);
      ExitNamed(done)
    else
      var entered :- Increment(st);
      var done :- EvalBody(s, 0, entered);
      Decrement(done)
  }

  /** `eval_program_body` on the statements of `parent` from index `i`. */
  function EvalBody(parent: A.Statement, i: nat, st: Scopes): Result<Scopes>
    requires ScopeOnly(parent) && i <= |parent.body|
    decreases parent, 0, |parent.body| - i
  {
    if i == |parent.body| then Ok(st)
    else
      var next :- EvalStatement(parent.body[i], st);
      EvalBody(parent, i + 1, next)
  }
}

/** Two places where the scope vault of interpreter/src/interpreter/mod.rs loses track of
    named scopes, each as written (the `Vault` functions) beside a corrected definition with
    the intended property proved about it.

    Re-entry: `exit_named_scope` leaves a named scope's record in the vault, and its comment
    says named scopes are cleared only when the enclosing block is left. But
    `enter_named_scope` goes through `init_scope`, which always inserts a fresh record, so
    entering the scope again drops the references to the named scopes entered from it.

    Cleanup: `decrement_scope` is to delete the named scopes in the current scope, but it
    removes only those the block's own record refers to; a named scope entered from inside
    one of them is referred to by that scope's record only, and outlives the block. */
module ScopeFindings {
  import opened Wrappers
  import opened ScopePaths
  import opened Vault
  import VP = VaultProps

  // ------------------------------------------------------------------------------------
  // Re-entering a named scope

  /** Corrected `enter_named_scope`: a record already at the named path is kept, with its
      bindings; only a path without a record gets a fresh one. */
  function EnterNamedReusing(st: Scopes, name: string): Result<Scopes> {
    var parts :- CurrentParts(st);
    var path := NamedPath(parts.0, name);
    var sent :- SendRef(st, path);
    if path in sent.vault then Ok(sent.(stack := sent.stack + [path], current := path))
    else Ok(InitScope(sent, path))
  }

  /** The corrected entry differs from the written one only when the named path already
      has a record. */
  lemma ReusingAgreesOnFirstVisit(st: Scopes, name: string)
    requires ParseScope(st.current).Parsed?
    requires NamedPath(ParseScope(st.current).prefix, name) !in st.vault
    ensures EnterNamedReusing(st, name) == EnterNamed(st, name)
  {
    if st.current in st.vault {
      NamedNotParsed(st.current, name);
    }
  }

  // ------------------------------------------------------------------------------------
  // Cleaning up nested named scopes

  /** The vault without `pending` and every named scope reachable from them through
      named-scope references. */
  function RemoveReachable(vault: map<string, ScopeValue>, pending: seq<string>): map<string, ScopeValue>
    decreases |vault.Keys|, |pending|
  {
    if pending == [] then vault
    else if pending[0] !in vault then RemoveReachable(vault, pending[1..])
    else
      var k := pending[0];
      assert vault.Keys == (vault - {k}).Keys + {k};
      RemoveReachable(vault - {k}, vault[k].namedScopeRefs + pending[1..])
  }

  /** Removal only removes: whatever is left keeps its record. */
  lemma {:induction false} RemoveReachableShrinks(vault: map<string, ScopeValue>, pending: seq<string>)
    ensures var r := RemoveReachable(vault, pending);
            r.Keys <= vault.Keys && (forall k | k in r :: r[k] == vault[k])
            && (forall k | k in pending :: k !in r)
    decreases |vault.Keys|, |pending|
  {
    if pending != [] {
      var k := pending[0];
      if k !in vault {
        RemoveReachableShrinks(vault, pending[1..]);
      } else {
        assert vault.Keys == (vault - {k}).Keys + {k};
        RemoveReachableShrinks(vault - {k}, vault[k].namedScopeRefs + pending[1..]);
      }
    }
  }

  /** Corrected `decrement_scope`: the block's record and every named scope reachable from
      it are removed. */
  function DecrementCascading(st: Scopes): Result<Scopes> {
    if st.current !in st.vault then Err(Panic(UnwrapNone))
    else UpdateCurrent(Scopes(RemoveReachable(st.vault, [st.current]), Pop(st.stack), st.current))
  }

  /** The corrected cleanup panics exactly where the written one does, ends in the same
      stack and current scope, and removes at least what the written one removes. */
  lemma CascadingCoversDecrement(st: Scopes)
    ensures DecrementCascading(st).Ok? <==> Decrement(st).Ok?
    ensures DecrementCascading(st).Ok? ==>
            var r := DecrementCascading(st).value;
            r.stack == Decrement(st).value.stack && r.current == Decrement(st).value.current
            && r.vault.Keys <= Decrement(st).value.vault.Keys
  {
    if st.current in st.vault {
      var k := st.current;
      var refs := st.vault[k].namedScopeRefs;
      assert RemoveReachable(st.vault, [k]) == RemoveReachable(st.vault - {k}, refs + []);
      assert refs + [] == refs;
      RemoveReachableShrinks(st.vault - {k}, refs);
    }
  }

  /** Within a block `B`: the named scope `outer` entered, `inner` entered from it, both
      left again. */
  function NestedVisit(st: Scopes, outer: string, inner: string): Result<Scopes> {
    var s1 :- EnterNamed(st, outer);
    var s2 :- EnterNamed(s1, inner);
    var s3 :- ExitNamed(s2);
    ExitNamed(s3)
  }

  /** The records `NestedVisit` leaves behind: `(outer path, inner path)`. */
  function NestedPaths(st: Scopes, outer: string, inner: string): (string, string)
    requires ParseScope(st.current).Parsed?
  {
    var outerPath := NamedPath(ParseScope(st.current).prefix, outer);
    (outerPath, NamedPath(ParseScope(st.current).prefix + "." + outer, inner))
  }

  lemma NestedVisitEffect(st: Scopes, outer: string, inner: string)
    requires Tracking(st) && ParseScope(st.current).Parsed? && st.current in st.vault
    ensures NestedVisit(st, outer, inner).Ok?
    ensures var r := NestedVisit(st, outer, inner).value;
            var (outerPath, innerPath) := NestedPaths(st, outer, inner);
            r.stack == st.stack && r.current == st.current
            && st.current in r.vault && outerPath in r.vault && innerPath in r.vault
            && r.vault[st.current].namedScopeRefs == st.vault[st.current].namedScopeRefs + [outerPath]
            && r.vault[outerPath].namedScopeRefs == [innerPath]
            && innerPath != st.current && outerPath != st.current && innerPath != outerPath
  {
    var prefix := ParseScope(st.current).prefix;
    var (outerPath, innerPath) := NestedPaths(st, outer, inner);
    VP.EnterNamedEffect(st, outer);
    var s1 := EnterNamed(st, outer).value;
    NamedIsBlockZero(prefix, outer);
    ParseBlockPath(prefix + "." + outer, 0);
    VP.EnterNamedEffect(s1, inner);
    var s2 := EnterNamed(s1, inner).value;
    assert s2.vault[outerPath].namedScopeRefs == [innerPath];
    var s3 := ExitNamed(s2).value;
    assert Pop(s2.stack) == s1.stack && Pop(s1.stack) == st.stack;
    NamedIsBlockZero(prefix + "." + outer, inner);
    ParseBlockPath(prefix + "." + outer + "." + inner, 0);
    assert ParseScope(innerPath).prefix == prefix + "." + outer + "." + inner;
  }

  /** As written: after `scope outer { scope inner { } }`, entering `outer` again replaces
      its record with a fresh one, so the reference to `inner` is gone while `inner`'s
      record stays in the vault. */
  lemma ReentryResets(st: Scopes, outer: string, inner: string)
    requires Tracking(st) && ParseScope(st.current).Parsed? && st.current in st.vault
    ensures NestedVisit(st, outer, inner).Ok?
    ensures var left := NestedVisit(st, outer, inner).value;
            var (outerPath, innerPath) := NestedPaths(st, outer, inner);
            outerPath in left.vault && left.vault[outerPath].namedScopeRefs == [innerPath]
            && EnterNamed(left, outer).Ok?
            && var again := EnterNamed(left, outer).value;
               again.current == outerPath && again.vault[outerPath] == Fresh
               && innerPath in again.vault && again.vault[innerPath] == left.vault[innerPath]
  {
    NestedVisitEffect(st, outer, inner);
    var left := NestedVisit(st, outer, inner).value;
    VP.EnterNamedEffect(left, outer);
  }

  /** Corrected: entering `outer` again keeps its record, with the reference to `inner`. */
  lemma ReentryKeepsRefs(st: Scopes, outer: string, inner: string)
    requires Tracking(st) && ParseScope(st.current).Parsed? && st.current in st.vault
    ensures NestedVisit(st, outer, inner).Ok?
    ensures var left := NestedVisit(st, outer, inner).value;
            var (outerPath, innerPath) := NestedPaths(st, outer, inner);
            EnterNamedReusing(left, outer).Ok?
            && var again := EnterNamedReusing(left, outer).value;
               again.current == outerPath && again.stack == left.stack + [outerPath]
               && outerPath in again.vault && again.vault[outerPath].namedScopeRefs == [innerPath]
               && innerPath in again.vault
  {
    NestedVisitEffect(st, outer, inner);
    var left := NestedVisit(st, outer, inner).value;
    var (outerPath, innerPath) := NestedPaths(st, outer, inner);
    NamedNotParsed(left.current, outer);
    var sent := SendRef(left, outerPath).value;
    assert sent.vault[outerPath] == left.vault[outerPath];
  }

  /** As written: after the nested visit, leaving the block removes the block and `outer`
      but leaves `inner`'s record in the vault. */
  lemma NestedNamedScopeLeaks(st: Scopes, outer: string, inner: string)
    requires Tracking(st) && |st.stack| >= 2
    requires ParseScope(st.current).Parsed? && st.current in st.vault
    requires st.vault[st.current].namedScopeRefs == []
    ensures NestedVisit(st, outer, inner).Ok? && Decrement(NestedVisit(st, outer, inner).value).Ok?
    ensures var r := Decrement(NestedVisit(st, outer, inner).value).value;
            NestedPaths(st, outer, inner).0 !in r.vault && NestedPaths(st, outer, inner).1 in r.vault
  {
    NestedVisitEffect(st, outer, inner);
    var v := NestedVisit(st, outer, inner).value.vault;
    var paths := NestedPaths(st, outer, inner);
    assert [] + [paths.0] == [paths.0];
    RemoveDirect(v, st.current, paths.0, paths.1);
  }

  /** A record referring to one record: removing the referred record and the first leaves
      any third record. */
  lemma RemoveDirect(v: map<string, ScopeValue>, b: string, outer: string, inner: string)
    requires b in v && inner in v && inner != outer && inner != b
    requires v[b].namedScopeRefs == [outer]
    ensures var r := RemoveKeys(v, v[b].namedScopeRefs) - {b}; outer !in r && inner in r
  {
  }

  /** Corrected: leaving the block removes `inner` as well. */
  lemma NestedNamedScopeCleaned(st: Scopes, outer: string, inner: string)
    requires Tracking(st) && |st.stack| >= 2
    requires ParseScope(st.current).Parsed? && st.current in st.vault
    requires st.vault[st.current].namedScopeRefs == []
    ensures NestedVisit(st, outer, inner).Ok? && DecrementCascading(NestedVisit(st, outer, inner).value).Ok?
    ensures var r := DecrementCascading(NestedVisit(st, outer, inner).value).value;
            st.current !in r.vault
            && NestedPaths(st, outer, inner).0 !in r.vault && NestedPaths(st, outer, inner).1 !in r.vault
  {
    NestedVisitEffect(st, outer, inner);
    var (outerPath, innerPath) := NestedPaths(st, outer, inner);
    RemoveChain(NestedVisit(st, outer, inner).value.vault, st.current, outerPath, innerPath);
  }

  /** A record referring to one record referring to a third: removal from the first
      removes all three. */
  lemma RemoveChain(v: map<string, ScopeValue>, b: string, outer: string, inner: string)
    requires b in v && outer in v && inner in v && b != outer && outer != inner && b != inner
    requires v[b].namedScopeRefs == [outer] && v[outer].namedScopeRefs == [inner]
    ensures var r := RemoveReachable(v, [b]); b !in r && outer !in r && inner !in r
  {
    assert RemoveReachable(v, [b]) == RemoveReachable(v - {b}, [outer] + []);
    assert [outer] + [] == [outer];
    var v1 := v - {b};
    assert outer in v1 && v1[outer] == v[outer];
    assert RemoveReachable(v1, [outer]) == RemoveReachable(v1 - {outer}, [inner] + []);
    assert [inner] + [] == [inner];
    var v2 := v1 - {outer};
    RemoveReachableShrinks(v2, [inner]);
  }
}
